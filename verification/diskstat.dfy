/** The disk-stat agent: reports the accumulated read, write or average disk
    throughput of the physical disks, scaled by a configured unit.

    The disk enumeration, the configured unit, the statistics type index and
    the update timer are inputs. The accumulator operations of the disk
    statistics library (its empty value, `+=` and `update`) are not part of
    this model: they are passed in as a `StatOps` record and left
    uninterpreted, so nothing here depends on how the library computes a delta. */
module DiskStat {
  import opened Wrappers

  /** The exception the constructor throws. */
  datatype AgentError = MissingUpdateTimer

  // ---------------------------------------------------------------------
  // Kinds, units and values
  // ---------------------------------------------------------------------

  /** The statistic an agent reports; its index is the configured type. */
  datatype Kind = Average | Read | Write

  /** The configuration index of a kind. */
  function IndexOf(kind: Kind): nat {
    match kind
    case Average => 0
    case Read => 1
    case Write => 2
  }

  /** The kind a configuration index names, if any. */
  function KindOf(index: nat): (r: Option<Kind>)
    ensures r.Some? <==> index < 3
    ensures r.Some? ==> IndexOf(r.value) == index
  {
    if index == 0 then Some(Average)
    else if index == 1 then Some(Read)
    else if index == 2 then Some(Write)
    else None
  }

  /** Index and kind are inverse to each other. */
  lemma KindIndexRoundTrip(kind: Kind)
    ensures KindOf(IndexOf(kind)) == Some(kind)
  {
  }

  /** The default label of each kind, by index. */
  const Labels: seq<string> := ["Average disk speed", "Read disk speed", "Write disk speed"]

  /** A display unit: the divisor applied to byte counts and its suffix. */
  datatype Unit = Unit(value: real, speed: string) {
    predicate Valid() {
      value > 0.0
    }
  }

  /** The accumulated read and write counters of the library's statistics record. */
  datatype Data = Data(read: real, write: real)

  /** One enumerated disk: whether it is a physical device, and its counters. */
  datatype Disk = Disk(physical: bool, data: Data)

  /** A magnitude expressed in a unit. */
  function Scale(x: real, unit: Unit): (r: real)
    requires unit.Valid()
    ensures r * unit.value == x
    ensures x >= 0.0 <==> r >= 0.0
  {
    x / unit.value
  }

  /** Mean of the read and write counters, in the unit. */
  function GetAverage(data: Data, unit: Unit): (r: real)
    requires unit.Valid()
    ensures 2.0 * r * unit.value == data.read + data.write
  {
    Scale((data.read + data.write) / 2.0, unit)
  }

  /** The read counter, in the unit. */
  function GetRead(data: Data, unit: Unit): (r: real)
    requires unit.Valid()
    ensures r * unit.value == data.read
  {
    Scale(data.read, unit)
  }

  /** The write counter, in the unit. */
  function GetWrite(data: Data, unit: Unit): (r: real)
    requires unit.Valid()
    ensures r * unit.value == data.write
  {
    Scale(data.write, unit)
  }

  /** The average lies between the read and the write value. */
  lemma AverageBetweenReadAndWrite(data: Data, unit: Unit)
    requires unit.Valid()
    ensures GetAverage(data, unit) == (GetRead(data, unit) + GetWrite(data, unit)) / 2.0
    ensures GetRead(data, unit) <= GetWrite(data, unit) ==>
      GetRead(data, unit) <= GetAverage(data, unit) <= GetWrite(data, unit)
    ensures GetWrite(data, unit) <= GetRead(data, unit) ==>
      GetWrite(data, unit) <= GetAverage(data, unit) <= GetRead(data, unit)
  {
    var r, w, a := GetRead(data, unit), GetWrite(data, unit), GetAverage(data, unit);
    assert 2.0 * a * unit.value == (r + w) * unit.value;
    assert (2.0 * a - (r + w)) * unit.value == 0.0;
  }

  /** The value of the configured statistic; an unknown index reads as zero. */
  function ValueByType(index: nat, data: Data, unit: Unit): (r: real)
    requires unit.Valid()
    ensures index == 0 ==> 2.0 * r * unit.value == data.read + data.write
    ensures index == 1 ==> r * unit.value == data.read
    ensures index == 2 ==> r * unit.value == data.write
    ensures index >= 3 ==> r == 0.0
  {
    match KindOf(index)
    case Some(Average) => GetAverage(data, unit)
    case Some(Read) => GetRead(data, unit)
    case Some(Write) => GetWrite(data, unit)
    case None => 0.0
  }

  // ---------------------------------------------------------------------
  // Aggregation over physical disks
  // ---------------------------------------------------------------------

  /** The statistics library's accumulator operations, uninterpreted:
      the default-constructed record, `+=`, and `update`. */
  datatype StatOps = StatOps(
    empty: Data,
    add: (Data, Data) -> Data,
    update: (Data, Data) -> Data)

  /** The physical disks of an enumeration, in order. */
  function PhysicalOnly(disks: seq<Disk>): (r: seq<Disk>)
    ensures |r| <= |disks|
    ensures forall d :: d in r <==> d in disks && d.physical
    decreases |disks|
  {
    if |disks| == 0 then []
    else
      var init := PhysicalOnly(disks[..|disks| - 1]);
      var last := disks[|disks| - 1];
      assert disks == disks[..|disks| - 1] + [last];
      if last.physical then init + [last] else init
  }

  /** Filtering distributes over concatenation. */
  lemma {:induction false} PhysicalOnlyAppend(a: seq<Disk>, b: seq<Disk>)
    ensures PhysicalOnly(a + b) == PhysicalOnly(a) + PhysicalOnly(b)
    decreases |b|
  {
    if |b| == 0 {
      assert a + b == a;
    } else {
      var b' := b[..|b| - 1];
      assert (a + b)[..|a + b| - 1] == a + b';
      PhysicalOnlyAppend(a, b');
    }
  }

  /** Filtering twice is filtering once. */
  lemma {:induction false} PhysicalOnlyIdempotent(disks: seq<Disk>)
    ensures PhysicalOnly(PhysicalOnly(disks)) == PhysicalOnly(disks)
    decreases |disks|
  {
    if |disks| > 0 {
      var init := disks[..|disks| - 1];
      var last := disks[|disks| - 1];
      PhysicalOnlyIdempotent(init);
      if last.physical {
        PhysicalOnlyAppend(PhysicalOnly(init), [last]);
        assert PhysicalOnly([last]) == [last] by {
          assert [last][..0] == [];
        }
      }
    }
  }

  /** `+=` applied to each disk in order, starting from the empty record. */
  function Accumulate(ops: StatOps, disks: seq<Disk>): (r: Data)
    ensures |disks| == 0 ==> r == ops.empty
    ensures |disks| == 1 ==> r == ops.add(ops.empty, disks[0].data)
    decreases |disks|
  {
    if |disks| == 0 then ops.empty
    else ops.add(Accumulate(ops, disks[..|disks| - 1]), disks[|disks| - 1].data)
  }

  /** The accumulated statistics of the physical disks. */
  function Aggregate(ops: StatOps, disks: seq<Disk>): (r: Data)
    ensures (forall i :: 0 <= i < |disks| ==> !disks[i].physical) ==> r == ops.empty
  {
    var physical := PhysicalOnly(disks);
    assert |physical| > 0 ==> physical[0] in disks && physical[0].physical;
    Accumulate(ops, physical)
  }

  /** Extending the enumeration by one disk: a non-physical disk leaves the
      sum unchanged, a physical one is added to it with `+=`. */
  lemma AggregateStep(ops: StatOps, disks: seq<Disk>, d: Disk)
    ensures !d.physical ==> Aggregate(ops, disks + [d]) == Aggregate(ops, disks)
    ensures d.physical ==> Aggregate(ops, disks + [d]) == ops.add(Aggregate(ops, disks), d.data)
  {
    assert (disks + [d])[..|disks|] == disks;
    var init := PhysicalOnly(disks);
    assert (init + [d])[..|init|] == init;
  }

  /** A non-physical disk anywhere in the enumeration contributes nothing. */
  lemma VirtualDiskContributesNothing(ops: StatOps, a: seq<Disk>, d: Disk, b: seq<Disk>)
    requires !d.physical
    ensures Aggregate(ops, a + [d] + b) == Aggregate(ops, a + b)
  {
    PhysicalOnlyAppend(a + [d], b);
    PhysicalOnlyAppend(a, [d]);
    PhysicalOnlyAppend(a, b);
    assert [d][..0] == [];
  }

  /** Only the physical disks matter: dropping the others changes nothing. */
  lemma AggregateOfPhysicalOnly(ops: StatOps, disks: seq<Disk>)
    ensures Aggregate(ops, disks) == Aggregate(ops, PhysicalOnly(disks))
  {
    PhysicalOnlyIdempotent(disks);
  }

  /** The loop that sums the physical disks, as the constructor and refresh run it. */
  method SumPhysicalDisks(ops: StatOps, disks: seq<Disk>) returns (sum: Data)
    ensures sum == Accumulate(ops, PhysicalOnly(disks))
  {
    sum := ops.empty;
    var k := 0;
    while k < |disks|
      invariant k <= |disks|
      invariant sum == Accumulate(ops, PhysicalOnly(disks[..k]))
    {
      assert disks[..k + 1][..k] == disks[..k];
      if disks[k].physical {
        sum := ops.add(sum, disks[k].data);
        assert (PhysicalOnly(disks[..k]) + [disks[k]])[..|PhysicalOnly(disks[..k])|]
          == PhysicalOnly(disks[..k]);
      }
      k := k + 1;
    }
    assert disks[..k] == disks;
  }

  // ---------------------------------------------------------------------
  // The agent
  // ---------------------------------------------------------------------

  /** A constructed disk-stat agent. */
  datatype Agent = Agent(index: nat, unit: Unit, title: string, stat: Data)

  /** The label the constructor settles on: the configured one, or the kind's
      default label followed by " in " and the unit suffix when none is set. */
  function DefaultLabel(title: string, index: nat, unit: Unit): (r: string)
    requires title == "" ==> index < |Labels|
    ensures r != ""
    ensures title != "" ==> r == title
    ensures title == "" ==> |r| == |Labels[index]| + 4 + |unit.speed|
    ensures title == "" ==> r[..|Labels[index]|] == Labels[index]
    ensures title == "" ==> r[|r| - |unit.speed| - 4..] == " in " + unit.speed
  {
    if title != "" then title else Labels[index] + " in " + unit.speed
  }

  /** Settling the label twice is settling it once. */
  lemma DefaultLabelIdempotent(title: string, index: nat, unit: Unit)
    requires title == "" ==> index < |Labels|
    ensures DefaultLabel(DefaultLabel(title, index, unit), index, unit) == DefaultLabel(title, index, unit)
  {
  }

  /** The constructor: settles the label, rejects a zero timer, and seeds the
      statistics with the sum over the physical disks. */
  function NewAgent(ops: StatOps, index: nat, unit: Unit, title: string, timer: nat, disks: seq<Disk>)
    : (r: Result<Agent, AgentError>)
    requires title == "" ==> index < |Labels|
    ensures r.Failure? <==> timer == 0
    ensures r.Failure? ==> r.error == MissingUpdateTimer
    ensures r.Success? ==> r.value.index == index && r.value.unit == unit
    ensures r.Success? && title != "" ==> r.value.title == title
    ensures r.Success? && title == "" ==> r.value.title == Labels[index] + " in " + unit.speed
    ensures r.Success? ==> r.value.stat == Accumulate(ops, PhysicalOnly(disks))
  {
    var settled := DefaultLabel(title, index, unit);
    if timer == 0 then Failure(MissingUpdateTimer)
    else Success(Agent(index, unit, settled, Aggregate(ops, disks)))
  }

  /** The value `get` stores for the host. */
  function Get(agent: Agent): (r: real)
    requires agent.unit.Valid()
    ensures KindOf(agent.index) == Some(Average) ==>
      2.0 * r * agent.unit.value == agent.stat.read + agent.stat.write
    ensures KindOf(agent.index) == Some(Read) ==> r * agent.unit.value == agent.stat.read
    ensures KindOf(agent.index) == Some(Write) ==> r * agent.unit.value == agent.stat.write
    ensures KindOf(agent.index).None? ==> r == 0.0
  {
    ValueByType(agent.index, agent.stat, agent.unit)
  }

  /** Result of a refresh: the success flag and the agent afterwards. */
  datatype Refreshed = Refreshed(ok: bool, agent: Agent)

  /** Sums the physical disks again and hands the sum to the library's
      `update`; nothing but the statistics changes. */
  function Refresh(ops: StatOps, agent: Agent, disks: seq<Disk>): (r: Refreshed)
    ensures r.ok
    ensures r.agent.index == agent.index && r.agent.unit == agent.unit && r.agent.title == agent.title
    ensures r.agent.stat == ops.update(agent.stat, Accumulate(ops, PhysicalOnly(disks)))
  {
    Refreshed(true, agent.(stat := ops.update(agent.stat, Aggregate(ops, disks))))
  }

  /** A refresh that sees an extra non-physical disk ends in the same state. */
  lemma RefreshIgnoresVirtualDisks(ops: StatOps, agent: Agent, a: seq<Disk>, d: Disk, b: seq<Disk>)
    requires !d.physical
    ensures Refresh(ops, agent, a + [d] + b) == Refresh(ops, agent, a + b)
  {
    VirtualDiskContributesNothing(ops, a, d, b);
  }

  /** `to_string`: the value rendered by `format`, a space, and the unit
      suffix; stripping the suffix gives back the rendered value. */
  function Render(agent: Agent, format: real -> string): (s: string)
    requires agent.unit.Valid()
    ensures |s| == |format(Get(agent))| + 1 + |agent.unit.speed|
    ensures s[|s| - |agent.unit.speed| - 1..] == " " + agent.unit.speed
    ensures s[..|s| - |agent.unit.speed| - 1] == format(Get(agent))
  {
    format(Get(agent)) + " " + agent.unit.speed
  }
}
