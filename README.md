# CAN descriptor lookup and bus activity

A model of the lookup layer and the bus-activity check of the vehicle
interface firmware's CAN utilities (`src/can/canutil.cpp`).

- `GenericLookup` (lookup.dfy) is the generic first-match linear search
  `lookup`. It scans a candidate table in ascending order and returns the
  lowest index the comparator accepts, or -1. `FirstMatch` is its reference
  definition. `Find` adds the step every typed lookup performs after the
  search: an index becomes the matching descriptor, and -1 becomes "not
  found" (`NULL`).
- `DescriptorCatalog` (catalog.dfy) holds the descriptor records, the five
  comparators and the typed lookups. These are `lookupSignalState` by name
  and by value, `lookupSignal` with and without the writable filter, and
  `lookupCommand`. The C overloads get distinct names:
  `LookupSignalStateByName`, `LookupSignalStateByValue`, `LookupSignal` for
  the four-argument form and `LookupSignalByName` for the three-argument one.
- `BusActivity` (bus_activity.dfy) is the `busActive` predicate over the
  last-received timestamp and the current time. The class `CanBus` models
  the timestamp reset done by `initializeCommon`.

Modelling decisions:

- A C comparator receives `(key, index, candidates)` and only ever reads
  `candidates[index]`. The model passes the candidate itself, as a total
  function `(K, C) -> bool`. `strcmp(a, b) == 0` becomes exact string equality.
- Tables are sequences, and the declared count is a separate `int`, as in
  the C signatures. A count of zero or less finds nothing. The model requires
  `count <= |table|`, because the C code would read past the end of the
  array otherwise. Tables are values, so no lookup can change them.
- `CanSignal` keeps `stateCount` beside `states`, as the firmware's records
  do. Only `states[0 .. stateCount)` is searched.
- A lookup returns `Option<descriptor>`: `None` for `NULL`, otherwise the
  table entry at the index that was found.
- `busActive` reads only `bus->lastMessageReceived`. It is modelled as a
  function of that timestamp and of `now`, which is passed in place of
  `time::systemTimeMs()`. Both are `unsigned long`. That type is 32 bits on
  the firmware's targets, so the subtraction is taken modulo 2^32. With
  `now >= lastMessageReceived`, it is plain subtraction. After a clock wrap,
  it is the distance across the wrap.

## Model

| member | source | states |
|---|---|---|
| GenericLookup.Lookup | src/can/canutil.cpp:35-44 | result is -1 or an index below the count; it is the lowest index the comparator accepts, and -1 exactly when none in `[0, count)` is accepted; equals `FirstMatch` |
| GenericLookup.FirstMatchFrom | src/can/canutil.cpp:38-43 | scanning from `from`, the result is an accepted index no earlier than `from` preceded only by rejected ones, or -1 when every index in `[from, count)` is rejected |
| GenericLookup.FirstMatch | src/can/canutil.cpp:35-44 | the result is the first match of the whole table (or -1 when nothing matches), and -1 whenever the count is zero or negative |
| GenericLookup.FirstMatchCharacterization | src/can/canutil.cpp:35-44 | an index is the first match if and only if it equals `FirstMatch`, so the first-match property determines the answer uniquely |
| GenericLookup.FirstMatchIgnoresUncounted | src/can/canutil.cpp:38 | two tables that agree on their first `count` entries give the same index: nothing at or beyond the count is examined |
| GenericLookup.Find | src/can/canutil.cpp:54-58 | a found descriptor satisfies the comparator; "not found" is returned exactly when no entry in `[0, count)` matches |
| GenericLookup.FindReturnsFirstMatch | src/can/canutil.cpp:38-43 | when entry `k` matches and no earlier entry does, the descriptor returned is entry `k`: duplicates resolve to the lowest index |
| DescriptorCatalog.SignalStateNameComparator | src/can/canutil.cpp:46-48 | true exactly when `name` and the state's name have the same length and agree character by character, which is what `strcmp(...) == 0` decides |
| DescriptorCatalog.SignalStateValueComparator | src/can/canutil.cpp:61-63 | true exactly when the state's integer value is the key, the state's name playing no part |
| DescriptorCatalog.SignalComparator | src/can/canutil.cpp:76-78 | true exactly when `name` equals the signal's `genericName` character by character, whatever the writable flag |
| DescriptorCatalog.WritableSignalComparator | src/can/canutil.cpp:80-83 | true exactly when `name` equals the signal's `genericName` and the signal is writable; it accepts nothing `SignalComparator` rejects |
| DescriptorCatalog.CommandComparator | src/can/canutil.cpp:103-105 | true exactly when `name` equals the command's `genericName` character by character |
| DescriptorCatalog.LookupSignalStateByName | src/can/canutil.cpp:46-59 | searches only the signal's own `states[0 .. stateCount)` by name; the result does not depend on `signals`/`signalCount`; found states carry the name; `None` exactly when no counted state has it |
| DescriptorCatalog.LookupSignalStateByValue | src/can/canutil.cpp:61-74 | the same search by integer equality on `value`; `None` exactly when no counted state has the value |
| DescriptorCatalog.LookupSignal | src/can/canutil.cpp:76-97 | with the flag clear, the first signal with the generic name; with it set, the first signal with the name that is also writable, so a read-only signal is never returned; `None` exactly when no entry qualifies |
| DescriptorCatalog.LookupSignalByName | src/can/canutil.cpp:99-101 | the three-argument form gives the same result as the four-argument form with `writable = false` |
| DescriptorCatalog.LookupCommand | src/can/canutil.cpp:103-115 | the first command with the generic name among the first `commandCount`, else `None` |
| DescriptorCatalog.WritableSearchSkipsReadOnly | src/can/canutil.cpp:80-97 | a read-only entry with the name that comes before the first writable one is returned by the unfiltered search and skipped by the writable search, which returns the later writable entry |
| DescriptorCatalog.SignalSearchFindsLowestOccurrence | src/can/canutil.cpp:76-97 | a name present in the signal table resolves to its lowest occurrence, and so to the single entry when it occurs once |
| DescriptorCatalog.StateSearchFindsLowestValue | src/can/canutil.cpp:61-74 | duplicate state values resolve to the lowest-index state |
| DescriptorCatalog.StateSearchIgnoresUncountedStates | src/can/canutil.cpp:50-68 | two signals whose first `stateCount` states agree give the same result for both the by-name and the by-value state lookup |
| DescriptorCatalog.CommandSearchIgnoresUncounted | src/can/canutil.cpp:107-109 | command tables that agree below `commandCount` give the same command lookup result |
| DescriptorCatalog.WritableSearchScenario | src/can/canutil.cpp:80-97 | with a read-only ENGINE_SPEED and a writable DOOR_LOCK, the writable search finds DOOR_LOCK and does not find ENGINE_SPEED, while the unfiltered search finds ENGINE_SPEED |
| BusActivity.ElapsedMs | src/can/canutil.cpp:32 | the unsigned `now - lastMessageReceived` is the plain difference when `now` is not behind, and the distance across one clock wrap otherwise |
| BusActivity.BusActive | src/can/canutil.cpp:30-33 | false whenever the timestamp is the "never" value 0; otherwise true exactly when less than 30 * 1000 ms have elapsed, both without and across a clock wrap |
| BusActivity.InactiveStaysInactive | src/can/canutil.cpp:30-33 | without a clock wrap, once the timeout has passed the bus stays inactive as time goes on |
| BusActivity.TimeoutBoundary | src/can/canutil.cpp:16 | still active 29999 ms after the last message, inactive at 30000 ms |
| BusActivity.ActivityScenario | src/can/canutil.cpp:31-32 | active with a message 1000 ms ago, inactive with one 31000 ms ago |
| BusActivity.CanBus.InitializeCommon | src/can/canutil.cpp:23 | sets `lastMessageReceived` to 0, changes no other modelled field (`address`), and leaves the bus inactive at every time |

## Left out

- `logBusStatistics` (src/can/canutil.cpp:117-206): it is compiled only with `__LOG_STATS__` and only produces debug log lines. Its accumulators come from `util/statistics`, which is not part of this model, and it uses floating-point ratios and function-local static state.
- The statistics accumulators: `statistics::initialize`, `update` and `exponentialMovingAverage` live in `util/statistics`, which is not part of this model. So `InitializeCommon` does not model the four `statistics::initialize` calls (src/can/canutil.cpp:24-27).
- The queue initialisation, the `writeHandler` assignment and the debug message in `initializeCommon` (src/can/canutil.cpp:19-22): these are macros, a function pointer into the write path, and console output.
- `time::systemTimeMs()`: an external clock, so `now` is a parameter of `BusActive`.
- The width of `unsigned long`: the model fixes it at 32 bits. The header that declares `CanBus` is not part of this model.
- Pointer identity: a lookup returns the descriptor value, not its address in the table. Two identical entries cannot be told apart in the model.
- A `NULL` signal or table pointer with a nonzero count is a crash in C. The model has no null values, and it requires the count to fit the table.
- src/platform/pic32/telit_he910.h, src/commands/device_id_command.cpp and src/strutil.h: they are a modem driver interface, a transport-level command handler and a declaration without a body, and they lie outside this core.
