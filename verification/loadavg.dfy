/** The load-average agent: a percent-style agent that reports the 1, 5 or
    15 minute system load divided by the number of CPU cores.

    The agent is built from the lines of the CPU description file and the
    configured update timer; its value is read from the OS load-average
    triple, which is passed in as a parameter. */
module LoadAverage {
  import opened Wrappers

  /** The exceptions the agent throws, one constructor per throw site. */
  datatype AgentError =
    | MissingUpdateTimer      // constructor: the update timer is zero
    | InvalidUpdateTime       // setup: the minute count is not 1, 5 or 15
    | LoadAverageUnavailable  // getValue: the OS load-average call failed

  /** The parameter type of setup: an unsigned 8-bit integer. */
  type Byte = x: int | 0 <= x < 256

  /** An index into the load-average triple: 0, 1 or 2. */
  type Slot = s: int | 0 <= s < 3

  /** The averaging windows setup accepts, in minutes; a window's position
      in this table is the slot the agent reads. */
  const Windows: seq<nat> := [1, 5, 15]

  // ---------------------------------------------------------------------
  // Severity table
  // ---------------------------------------------------------------------

  /** The severity levels the table uses, in the host's ascending order. */
  datatype Level = Ready | Warning | Error | Critical

  /** Position of a level in the host's severity order. */
  function Rank(level: Level): nat {
    match level
    case Ready => 0
    case Warning => 1
    case Error => 2
    case Critical => 3
  }

  /** One band of the threshold table: values up to `value` map to `name`. */
  datatype StateDescription = StateDescription(
    value: real,
    name: string,
    level: Level,
    message: string,
    summary: string)

  /** The fixed band table handed to the percent classifier. */
  const InternalStates: seq<StateDescription> := [
    StateDescription(0.5, "good", Ready, "System load is lower than 50%", ""),
    StateDescription(0.8, "gt50", Warning, "System load is higher than 50%", ""),
    StateDescription(0.95, "gt90", Error, "System load is higher than 80%", ""),
    StateDescription(1.0, "full", Critical, "System load is too high", "")
  ]

  /** Band upper bounds grow strictly along the table. */
  predicate BoundsIncrease(states: seq<StateDescription>) {
    forall i, j :: 0 <= i < j < |states| ==> states[i].value < states[j].value
  }

  /** Severities grow strictly along the table. */
  predicate SeverityAscends(states: seq<StateDescription>) {
    forall i, j :: 0 <= i < j < |states| ==> Rank(states[i].level) < Rank(states[j].level)
  }

  /** Bounds increase, all lie in (0, 1], and the last one is the 1.0 ceiling. */
  lemma InternalStatesWellFormed()
    ensures |InternalStates| == 4
    ensures BoundsIncrease(InternalStates)
    ensures forall i :: 0 <= i < |InternalStates| ==> 0.0 < InternalStates[i].value <= 1.0
    ensures InternalStates[|InternalStates| - 1].value == 1.0
  {
  }

  /** Severities run ready < warning < error < critical in table order. */
  lemma InternalStatesSeverityAscends()
    ensures SeverityAscends(InternalStates)
    ensures InternalStates[0].level == Ready
    ensures InternalStates[|InternalStates| - 1].level == Critical
  {
  }

  /** Every fraction in [0, 1] falls under some band: the table has no gap
      at the top that a classifier could fall through. */
  lemma InternalStatesCoverUnitInterval(v: real)
    requires 0.0 <= v <= 1.0
    ensures exists i :: 0 <= i < |InternalStates| && v <= InternalStates[i].value
  {
    InternalStatesWellFormed();
    assert v <= InternalStates[3].value;
  }

  // ---------------------------------------------------------------------
  // Core count
  // ---------------------------------------------------------------------

  /** ASCII lower-casing, as `tolower` in the C locale. */
  function LowerAscii(c: char): char {
    if 'A' <= c <= 'Z' then (c as int + 32) as char else c
  }

  /** `strncasecmp(a, b, n) == 0` for strings without embedded NUL: the
      first `n` characters agree up to ASCII case, where a string that ends
      before `n` characters only matches one ending at the same place. */
  function CaseEqualPrefix(a: string, b: string, n: nat): (r: bool)
    ensures r && n <= |b| ==> n <= |a|
    ensures r && n <= |a| ==> n <= |b|
    ensures r && 0 < n && 0 < |a| ==> 0 < |b| && LowerAscii(a[0]) == LowerAscii(b[0])
    decreases n
  {
    if n == 0 then true
    else if |a| == 0 || |b| == 0 then |a| == |b|
    else LowerAscii(a[0]) == LowerAscii(b[0]) && CaseEqualPrefix(a[1..], b[1..], n - 1)
  }

  /** Against a pattern at least `n` long, the comparison succeeds exactly
      when the string has `n` characters that match the pattern's up to case. */
  lemma {:induction false} CaseEqualPrefixIff(a: string, b: string, n: nat)
    requires n <= |b|
    ensures CaseEqualPrefix(a, b, n)
        <==> n <= |a| && forall i :: 0 <= i < n ==> LowerAscii(a[i]) == LowerAscii(b[i])
    decreases n
  {
    if n == 0 || |a| == 0 {
    } else {
      CaseEqualPrefixIff(a[1..], b[1..], n - 1);
      assert forall i :: 1 <= i < n && i < |a| ==> a[1..][i - 1] == a[i];
      assert forall i :: 1 <= i < n ==> b[1..][i - 1] == b[i];
    }
  }

  /** A line of the CPU description that names one processor. */
  predicate IsProcessorLine(line: string)
    ensures IsProcessorLine(line) ==> |line| >= 9
    ensures |line| >= 9 && line[..9] == "processor" ==> IsProcessorLine(line)
  {
    CaseEqualPrefixIff(line, "processor", 9);
    CaseEqualPrefix(line, "processor", 9)
  }

  /** A line counts exactly when its first nine characters spell "processor"
      in any mix of case; whatever follows them is ignored. */
  lemma ProcessorLineIff(line: string)
    ensures IsProcessorLine(line)
        <==> |line| >= 9 && forall i :: 0 <= i < 9 ==> LowerAscii(line[i]) == "processor"[i]
  {
    CaseEqualPrefixIff(line, "processor", 9);
    assert forall i :: 0 <= i < 9 ==> LowerAscii("processor"[i]) == "processor"[i];
  }

  /** Lines shorter than "processor" never count. */
  lemma ShortLineNeverCounts(line: string)
    requires |line| < 9
    ensures !IsProcessorLine(line)
  {
    ProcessorLineIff(line);
  }

  /** Number of processor lines, counted front to back. */
  function CountCores(lines: seq<string>): (cores: nat)
    ensures cores <= |lines|
    decreases |lines|
  {
    if |lines| == 0 then 0
    else CountCores(lines[..|lines| - 1]) + (if IsProcessorLine(lines[|lines| - 1]) then 1 else 0)
  }

  /** Counting a file in two parts adds up. */
  lemma {:induction false} CountCoresAppend(a: seq<string>, b: seq<string>)
    ensures CountCores(a + b) == CountCores(a) + CountCores(b)
    decreases |b|
  {
    if |b| == 0 {
      assert a + b == a;
    } else {
      var b' := b[..|b| - 1];
      assert (a + b)[..|a + b| - 1] == a + b';
      CountCoresAppend(a, b');
    }
  }

  /** The count is zero exactly when no line names a processor. */
  lemma {:induction false} CountCoresZeroIff(lines: seq<string>)
    ensures CountCores(lines) == 0 <==> forall i :: 0 <= i < |lines| ==> !IsProcessorLine(lines[i])
    decreases |lines|
  {
    if |lines| > 0 {
      var init := lines[..|lines| - 1];
      CountCoresZeroIff(init);
      assert forall i :: 0 <= i < |init| ==> init[i] == lines[i];
    }
  }

  /** The constructor's loop over the CPU description file. */
  method CountCoresInFile(cpuinfo: seq<string>) returns (cores: nat)
    ensures cores == CountCores(cpuinfo)
  {
    cores := 0;
    var k := 0;
    while k < |cpuinfo|
      invariant k <= |cpuinfo|
      invariant cores == CountCores(cpuinfo[..k])
    {
      assert cpuinfo[..k + 1][..k] == cpuinfo[..k];
      if CaseEqualPrefix(cpuinfo[k], "processor", 9) {
        cores := cores + 1;
      }
      k := k + 1;
    }
    assert cpuinfo[..k] == cpuinfo;
  }

  // ---------------------------------------------------------------------
  // Configuration
  // ---------------------------------------------------------------------

  /** The first slot at or after `from` whose window is `minutes`. */
  function FindWindow(minutes: Byte, from: nat): (r: Result<Slot, AgentError>)
    requires from <= |Windows|
    ensures r.Success? ==> from <= r.value && Windows[r.value] == minutes
    ensures r.Failure? ==> r.error == InvalidUpdateTime
    ensures r.Failure? <==> forall k :: from <= k < |Windows| ==> Windows[k] != minutes
    decreases |Windows| - from
  {
    if from == |Windows| then Failure(InvalidUpdateTime)
    else if Windows[from] == minutes then Success(from)
    else FindWindow(minutes, from + 1)
  }

  /** Chooses the load-average slot for a window given in minutes. */
  function Setup(minutes: Byte): (r: Result<Slot, AgentError>)
    ensures r.Success? <==> minutes == 1 || minutes == 5 || minutes == 15
    ensures minutes == 1 ==> r == Success(0)
    ensures minutes == 5 ==> r == Success(1)
    ensures minutes == 15 ==> r == Success(2)
    ensures r.Failure? ==> r.error == InvalidUpdateTime
  {
    FindWindow(minutes, 0)
  }

  /** A constructed load-average agent. */
  datatype Agent = Agent(cores: nat, slot: Slot)

  /** The implicit conversion of a non-negative integer to `uint8_t`. */
  function ToByte(x: nat): (b: Byte)
    ensures x < 256 ==> b == x
    ensures (x - b) % 256 == 0
  {
    x % 256
  }

  /** The constructor as the code is written: the minute count `timer / 60`
      is narrowed to 8 bits on its way into setup. */
  function NewAgentAsWritten(cpuinfo: seq<string>, timer: nat): (r: Result<Agent, AgentError>)
    ensures timer == 0 ==> r == Failure(MissingUpdateTimer)
    ensures timer > 0 ==> (r.Success? <==> (timer / 60) % 256 in Windows)
    ensures timer > 0 && r.Failure? ==> r.error == InvalidUpdateTime
    ensures r.Success? ==> r.value.cores == CountCores(cpuinfo)
    ensures r.Success? ==> Windows[r.value.slot] == (timer / 60) % 256
  {
    var cores := CountCores(cpuinfo);
    if timer == 0 then Failure(MissingUpdateTimer)
    else
      var slot :- Setup(ToByte(timer / 60));
      Success(Agent(cores, slot))
  }

  /** The constructor as intended: any minute count other than 1, 5 or 15,
      however large, is rejected. */
  function NewAgent(cpuinfo: seq<string>, timer: nat): (r: Result<Agent, AgentError>)
    ensures timer == 0 ==> r == Failure(MissingUpdateTimer)
    ensures timer > 0 ==> (r.Success? <==> timer / 60 in Windows)
    ensures timer > 0 && r.Failure? ==> r.error == InvalidUpdateTime
    ensures r.Success? ==> r.value.cores == CountCores(cpuinfo)
    ensures r.Success? ==> Windows[r.value.slot] == timer / 60
  {
    var cores := CountCores(cpuinfo);
    if timer == 0 then Failure(MissingUpdateTimer)
    else if timer / 60 >= 256 then Failure(InvalidUpdateTime)
    else
      var slot :- Setup(timer / 60);
      Success(Agent(cores, slot))
  }

  /** Timers of 60..119, 300..359 and 900..959 seconds select slots 0, 1
      and 2; timers of 1..59 seconds (zero minutes) are rejected. */
  lemma TimerSelectsSlot(cpuinfo: seq<string>, timer: nat)
    ensures 60 <= timer < 120 ==> NewAgent(cpuinfo, timer) == Success(Agent(CountCores(cpuinfo), 0))
    ensures 300 <= timer < 360 ==> NewAgent(cpuinfo, timer) == Success(Agent(CountCores(cpuinfo), 1))
    ensures 900 <= timer < 960 ==> NewAgent(cpuinfo, timer) == Success(Agent(CountCores(cpuinfo), 2))
    ensures 0 < timer < 60 ==> NewAgent(cpuinfo, timer) == Failure(InvalidUpdateTime)
  {
  }

  /** Below 256 minutes the narrowing is invisible: both constructors agree. */
  lemma NewAgentAgreesBelowWrap(cpuinfo: seq<string>, timer: nat)
    requires timer < 256 * 60
    ensures NewAgentAsWritten(cpuinfo, timer) == NewAgent(cpuinfo, timer)
  {
  }

  /** A 257-minute timer wraps to one minute: the code as written accepts it
      and reads the 1-minute slot, where the intended constructor rejects it. */
  lemma WrappedTimerAccepted(cpuinfo: seq<string>)
    ensures 15420 / 60 == 257 && 257 !in Windows
    ensures NewAgentAsWritten(cpuinfo, 15420) == Success(Agent(CountCores(cpuinfo), 0))
    ensures NewAgent(cpuinfo, 15420) == Failure(InvalidUpdateTime)
  {
  }

  // ---------------------------------------------------------------------
  // Value
  // ---------------------------------------------------------------------

  /** The 1, 5 and 15 minute load averages the OS reports. */
  datatype LoadVector = LoadVector(one: real, five: real, fifteen: real) {
    function At(slot: Slot): real {
      if slot == 0 then one else if slot == 1 then five else fifteen
    }
  }

  /** The cap on the reported value. */
  const Ceiling: real := 100.0

  /** The agent's reading: the selected load average per core, capped at 100.
      `reading` is None when the OS load-average call fails. */
  function GetValue(agent: Agent, reading: Option<LoadVector>): (r: Result<real, AgentError>)
    requires agent.cores > 0
    ensures r.Failure? <==> reading.None?
    ensures r.Failure? ==> r.error == LoadAverageUnavailable
    ensures r.Success? ==> r.value <= Ceiling
    ensures r.Success? && r.value < Ceiling ==>
      r.value * agent.cores as real == reading.value.At(agent.slot)
    ensures r.Success? && r.value == Ceiling ==>
      reading.value.At(agent.slot) >= Ceiling * agent.cores as real
  {
    match reading
    case None => Failure(LoadAverageUnavailable)
    case Some(loads) =>
      var rc := loads.At(agent.slot) / agent.cores as real;
      if rc > Ceiling then Success(Ceiling) else Success(rc)
  }

  /** A higher load never yields a lower reading. */
  lemma GetValueMonotone(agent: Agent, a: LoadVector, b: LoadVector)
    requires agent.cores > 0
    requires a.At(agent.slot) <= b.At(agent.slot)
    ensures GetValue(agent, Some(a)).value <= GetValue(agent, Some(b)).value
  {
    var c := agent.cores as real;
    assert a.At(agent.slot) / c <= b.At(agent.slot) / c;
  }

  /** Only the configured slot matters, and a non-negative load gives a
      non-negative reading. */
  lemma GetValueReadsOnlyItsSlot(agent: Agent, a: LoadVector, b: LoadVector)
    requires agent.cores > 0
    requires a.At(agent.slot) == b.At(agent.slot)
    ensures GetValue(agent, Some(a)) == GetValue(agent, Some(b))
    ensures a.At(agent.slot) >= 0.0 ==> GetValue(agent, Some(a)).value >= 0.0
  {
  }
}
