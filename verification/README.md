# Load-average and disk-stat agents of the udjat sysinfo module

This project models two metric agents of the udjat `sysinfo` module in Dafny
and proves properties of the model.

- **Load-average agent** (`module LoadAverage`, `loadavg.dfy`). At
  construction it counts the CPU cores: these are the lines of the CPU
  description file that begin with `processor` in any case. It then turns
  the update timer into minutes and picks the 1, 5 or 15 minute slot of the
  load-average triple. Its value is the selected load average divided by
  the core count, capped at 100. The agent also carries a fixed four-band
  severity table (good / gt50 / gt90 / full).
- **Disk-stat agent** (`module DiskStat`, `diskstat.dfy`). It has a kind
  (average, read or write; indices 0, 1, 2) and a unit, which is a divisor
  plus a speed suffix. If no label is configured, it builds a default one.
  A zero timer is rejected. At construction and on every refresh it sums
  the statistics of the physical disks only. Its value is the read counter,
  the write counter or their mean, divided by the unit.

`wrappers.dfy` holds the `Option` and `Result` types. Every throw in the
source becomes a `Failure` of the agent's `AgentError` type.

Inputs that come from the OS or from configuration are parameters:

- the lines of the CPU description file (`seq<string>`);
- the update timer in seconds (`nat`);
- the load-average triple (`Option<LoadVector>`, `None` when the OS call fails);
- the disk enumeration (`seq<Disk>`, each disk flagged physical or not);
- the unit and the statistics type index.

The disk statistics library's accumulator is not part of this model. That
covers its default-constructed record, `operator+=` and `Data::update`. The
model passes them in as an uninterpreted `StatOps` record. So the proofs
say only which disks are summed and in what order. They say nothing about
how `update` folds a new sum into the stored one.

Three points where the code differs from what a reader might expect:

- The header comment of `src/module/loadavg.cc` (lines 24-26) says to
  multiply the load by 100 to get a percentage, then truncate it to 100.
  `getValue` (lines 146-150) only divides the load by the core count. It
  never multiplies by 100. It returns the plain ratio and caps values above
  `100.0`, so a ratio of 2.5 is reported as 2.5. The model follows the code.
- `refresh` passes the new physical-disk sum to the library's `update`
  (`src/module/diskstat.cc:144`). That library function is not part of
  this model. No delta, reset or counter-regression clamp rule is modelled.
- The agent never checks the unit divisor `unit->value` before dividing by
  it. The model requires `unit.Valid()` (divisor > 0) wherever it divides.

## Model

| member | source | states |
|---|---|---|
| LoadAverage.InternalStatesWellFormed | src/module/loadavg.cc:47-76 | the table has four bands, the bounds increase strictly, every bound is in (0, 1] and the last bound is 1.0 |
| LoadAverage.InternalStatesSeverityAscends | src/module/loadavg.cc:47-76 | severities rise strictly along the table, from ready at the first band to critical at the last |
| LoadAverage.InternalStatesCoverUnitInterval | src/module/loadavg.cc:47-76 | every fraction in [0, 1] is at or below some band's bound, so the table has no gap at the top |
| LoadAverage.CaseEqualPrefix | src/module/loadavg.cc:165 | the strncasecmp test of n characters: a match against a string at least n long implies the other is at least n long too, and a match of non-empty strings agrees on the first character up to case |
| LoadAverage.IsProcessorLine | src/module/loadavg.cc:165 | a line counted as a processor has at least nine characters, and every line that starts with exactly "processor" is counted |
| LoadAverage.CaseEqualPrefixIff | src/module/loadavg.cc:165 | against a pattern at least n long, the strncasecmp comparison of n characters succeeds exactly when the string has n characters equal to the pattern's up to ASCII case |
| LoadAverage.ProcessorLineIff | src/module/loadavg.cc:165 | a line counts as a core exactly when it has at least nine characters and the first nine, lower-cased, spell "processor"; the rest of the line is ignored |
| LoadAverage.ShortLineNeverCounts | src/module/loadavg.cc:165 | a line shorter than nine characters never counts as a core |
| LoadAverage.CountCores | src/module/loadavg.cc:162-168 | the core count never exceeds the number of lines |
| LoadAverage.CountCoresAppend | src/module/loadavg.cc:162-168 | the count of a file split in two parts is the sum of the two parts' counts |
| LoadAverage.CountCoresZeroIff | src/module/loadavg.cc:162-168 | the count is zero exactly when no line names a processor |
| LoadAverage.CountCoresInFile | src/module/loadavg.cc:161-168 | the constructor's counting loop over the file yields the core count |
| LoadAverage.FindWindow | src/module/loadavg.cc:117-131 | the table search returns a slot whose window equals the minutes, or InvalidUpdateTime exactly when no remaining window matches |
| LoadAverage.Setup | src/module/loadavg.cc:85-131 | setup succeeds exactly for 1, 5 and 15 minutes, selecting slots 0, 1 and 2; any other value fails with InvalidUpdateTime (the EINVAL error) and selects no slot |
| LoadAverage.ToByte | src/module/loadavg.cc:185 | passing a minute count to the uint8_t parameter keeps values below 256 and otherwise loses a multiple of 256 |
| LoadAverage.NewAgentAsWritten | src/module/loadavg.cc:156-188 | construction fails with MissingUpdateTimer for a zero timer; otherwise it succeeds exactly when (timer / 60) mod 256 is a window, with the counted cores and that window's slot, and fails with InvalidUpdateTime otherwise |
| LoadAverage.NewAgent | src/module/loadavg.cc:177-185 | intended construction: a zero timer fails with MissingUpdateTimer; otherwise it succeeds exactly when timer / 60 is 1, 5 or 15, selecting that window's slot, and fails with InvalidUpdateTime otherwise |
| LoadAverage.TimerSelectsSlot | src/module/loadavg.cc:177-185 | timers of 60..119, 300..359 and 900..959 seconds select slots 0, 1 and 2; timers of 1..59 seconds are rejected |
| LoadAverage.NewAgentAgreesBelowWrap | src/module/loadavg.cc:185 | for timers below 256 minutes the as-written and intended constructors agree |
| LoadAverage.WrappedTimerAccepted | src/module/loadavg.cc:185 | a 15420-second timer (257 minutes, not a window) is accepted as written and reads the 1-minute slot, while the intended constructor rejects it |
| LoadAverage.GetValue | src/module/loadavg.cc:138-153 | a failed load-average call gives LoadAverageUnavailable and nothing else fails; a value never exceeds 100, below 100 it times the cores equals the slot's load, and it is exactly 100 only when the load is at least 100 times the cores |
| LoadAverage.GetValueMonotone | src/module/loadavg.cc:146-152 | a higher load in the agent's slot never gives a lower value |
| LoadAverage.GetValueReadsOnlyItsSlot | src/module/loadavg.cc:146-152 | readings that agree on the agent's slot give the same value, and a non-negative load gives a non-negative value |
| DiskStat.KindOf | src/module/diskstat.cc:79-94 | indices 0, 1 and 2 name a kind and no other index does; the kind maps back to its index |
| DiskStat.KindIndexRoundTrip | src/module/diskstat.cc:79-94 | every kind's index names that kind again |
| DiskStat.Scale | src/module/diskstat.cc:67-77 | a scaled value times the unit divisor gives back the raw value, and it keeps the raw value's sign |
| DiskStat.GetAverage | src/module/diskstat.cc:67-69 | twice the average times the divisor is read plus write |
| DiskStat.GetRead | src/module/diskstat.cc:71-73 | the read value times the divisor is the read counter |
| DiskStat.GetWrite | src/module/diskstat.cc:75-77 | the write value times the divisor is the write counter |
| DiskStat.AverageBetweenReadAndWrite | src/module/diskstat.cc:67-77 | the average is the mean of the read and write values, so it lies between them |
| DiskStat.ValueByType | src/module/diskstat.cc:79-94 | type 0 gives the value whose double times the divisor is read plus write, type 1 the read value, type 2 the write value, and any other type 0 |
| DiskStat.PhysicalOnly | src/module/diskstat.cc:114-118 | the filtered enumeration holds exactly the physical disks of the input and is no longer than it |
| DiskStat.PhysicalOnlyAppend | src/module/diskstat.cc:114-118 | filtering a concatenation is concatenating the filtered parts |
| DiskStat.PhysicalOnlyIdempotent | src/module/diskstat.cc:114-118 | filtering an already filtered enumeration changes nothing |
| DiskStat.Accumulate | src/module/diskstat.cc:114-118 | `+=` folded over disks in order: no disks give the default-constructed record, one disk gives that record plus the disk's data |
| DiskStat.Aggregate | src/module/diskstat.cc:137-142 | the physical-disk sum: an enumeration with no physical disk gives the default-constructed record |
| DiskStat.AggregateStep | src/module/diskstat.cc:137-142 | appending a non-physical disk leaves the sum unchanged; appending a physical disk adds its data to the sum with `+=` |
| DiskStat.VirtualDiskContributesNothing | src/module/diskstat.cc:114-118 | inserting a non-physical disk anywhere in the enumeration leaves the aggregate unchanged |
| DiskStat.AggregateOfPhysicalOnly | src/module/diskstat.cc:137-142 | the aggregate of an enumeration equals the aggregate of its physical disks alone |
| DiskStat.SumPhysicalDisks | src/module/diskstat.cc:114-118 | the summing loop applies `+=` to the physical disks in enumeration order, starting from the empty record |
| DiskStat.DefaultLabel | src/module/diskstat.cc:102-108 | a non-empty label is kept; an empty label becomes the kind's default label followed by " in " and the unit's speed suffix; the result is never empty |
| DiskStat.DefaultLabelIdempotent | src/module/diskstat.cc:102-108 | settling the label a second time changes nothing |
| DiskStat.NewAgent | src/module/diskstat.cc:97-125 | construction fails with MissingUpdateTimer exactly when the timer is zero; otherwise the agent keeps the index and unit, carries the settled label, and starts from the sum over the physical disks |
| DiskStat.Get | src/module/diskstat.cc:130-133 | the value handed to the host is the average, read or write value of the agent's statistics as its kind says, and 0 for an unknown kind |
| DiskStat.Refresh | src/module/diskstat.cc:135-151 | refresh always reports true; index, unit and label stay unchanged; only the statistics change, to the library's update of the old statistics with the new physical-disk sum |
| DiskStat.RefreshIgnoresVirtualDisks | src/module/diskstat.cc:137-144 | a refresh that sees an extra non-physical disk ends in the same state |
| DiskStat.Render | src/module/diskstat.cc:153-157 | the rendering is the formatted value, a space and the unit suffix; removing the suffix gives back the formatted value |

## Left out

- LoadAverage.GetValue: requires at least one core. The source has no guard. With zero cores its floating-point division gives infinity, which is capped to 100, or NaN for a zero load. Reals cannot express either.
- DiskStat.NewAgent: requires the type index to be below 3 when the label is empty. The source indexes the three-entry label table there without a check.
- DiskStat.Scale, DiskStat.GetAverage, DiskStat.GetRead, DiskStat.GetWrite, DiskStat.ValueByType, DiskStat.Get, DiskStat.Render: require a positive unit divisor. The unit table of the disk library is not part of this model.
- Reading the CPU description file, the OS load-average call and the disk enumeration are I/O. Their results are parameters. A CPU description file that cannot be opened is not modelled.
- The load-average call may return fewer than three samples. Only a negative return (failure) is modelled.
- Lines with embedded NUL characters are not modelled. The comparison treats the end of the string as the NUL.
- The `uint16_t` core counter can overflow. It is modelled as an unbounded count.
- Floating point (`double` loads narrowed to `float`, `double` disk counters) is modelled with `real`, without rounding.
- The percent classifier that consumes the severity table lives in a base class that is not part of this model. Only the table is modelled.
- The disk statistics library's default record, `operator+=` and `Data::update` are uninterpreted parameters. No delta, reset or regression rule is assumed.
- The statistics type index comes from an attribute selection, and the unit from the disk library's unit lookup. Both are inputs, and so is the update timer.
- Localised labels and summaries chosen by `setup`, icons, the `Quark` label interning and gettext are not modelled. The default disk label is built from the untranslated strings.
- The two-decimal number formatting of `to_string` is a parameter `format`. Only the suffix is modelled.
- Factory and module registration and debug logging are not modelled.

## Findings

| source | as written | input that shows it | evidently intended | confidence | as-written member | corrected member |
|---|---|---|---|---|---|---|
| src/module/loadavg.cc:185 | `setup(update_timer/60)` passes the minute count to a `uint8_t` parameter, which keeps only its value modulo 256 | an update timer of 15420 seconds (257 minutes) becomes 1 minute and selects the 1-minute slot | any minute count other than 1, 5 or 15 fails with the "1, 5 or 15 minutes" error | medium, not executed | LoadAverage.NewAgentAsWritten, LoadAverage.WrappedTimerAccepted | LoadAverage.NewAgent |
