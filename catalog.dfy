/**
 * Typed lookups over the fixed descriptor tables of the CAN layer: signal
 * states by name or by value, signals by generic name (optionally only
 * writable ones) and commands by generic name. Each one is the generic
 * search with its own comparator, followed by the step that turns the index
 * into the matching descriptor or into "not found".
 */
module DescriptorCatalog {
  import opened GenericLookup

  /** One named symbolic value of a signal. */
  datatype CanSignalState = CanSignalState(name: string, value: int)

  /** A signal descriptor. As in the firmware's table entries, the count of
      valid states is carried beside the states themselves. */
  datatype CanSignal = CanSignal(genericName: string, writable: bool,
                                 states: seq<CanSignalState>, stateCount: int)

  /** A command descriptor. */
  datatype CanCommand = CanCommand(genericName: string)

  // The comparators. `strcmp(a, b) == 0` holds exactly when the two strings
  // have the same length and agree character by character: exact,
  // case-sensitive equality.

  /** `signalStateNameComparator`: the state carries exactly this name. */
  function SignalStateNameComparator(name: string, state: CanSignalState): (matches: bool)
    ensures matches <==> |name| == |state.name| &&
                         forall i | 0 <= i < |name| :: name[i] == state.name[i]
  {
    name == state.name
  }

  /** `signalStateValueComparator`: the state's integer value is the key. */
  function SignalStateValueComparator(value: int, state: CanSignalState): (matches: bool)
    ensures matches <==> state == CanSignalState(state.name, value)
  {
    value == state.value
  }

  /** `signalComparator`: the signal's generic name is exactly this name,
      whatever its writable flag. */
  function SignalComparator(name: string, signal: CanSignal): (matches: bool)
    ensures matches <==> |name| == |signal.genericName| &&
                         forall i | 0 <= i < |name| :: name[i] == signal.genericName[i]
  {
    name == signal.genericName
  }

  /** `writableSignalComparator`: the name comparison and, in addition, the
      writable flag; it accepts only what `SignalComparator` accepts too. */
  function WritableSignalComparator(name: string, signal: CanSignal): (matches: bool)
    ensures matches ==> SignalComparator(name, signal)
    ensures matches <==> signal.writable && |name| == |signal.genericName| &&
                         forall i | 0 <= i < |name| :: name[i] == signal.genericName[i]
  {
    SignalComparator(name, signal) && signal.writable
  }

  /** `commandComparator`: the command's generic name is exactly this name. */
  function CommandComparator(name: string, command: CanCommand): (matches: bool)
    ensures matches <==> |name| == |command.genericName| &&
                         forall i | 0 <= i < |name| :: name[i] == command.genericName[i]
  {
    name == command.genericName
  }

  /** `lookupSignalState` by name: only the signal's own states are searched;
      `signals` and `signalCount` take no part in the answer. */
  method LookupSignalStateByName(name: string, signal: CanSignal,
                                 signals: seq<CanSignal>, signalCount: int)
    returns (r: Option<CanSignalState>)
    requires signal.stateCount <= |signal.states|
    ensures r == Find(name, SignalStateNameComparator, signal.states, signal.stateCount)
    ensures r.Some? ==> r.value.name == name
    ensures r.None? <==> forall i | 0 <= i < signal.stateCount :: signal.states[i].name != name
  {
    var index := Lookup(name, SignalStateNameComparator, signal.states, signal.stateCount);
    if index != -1 {
      r := Some(signal.states[index]);
    } else {
      r := None;
    }
  }

  /** `lookupSignalState` by value: the same search with integer equality. */
  method LookupSignalStateByValue(value: int, signal: CanSignal,
                                  signals: seq<CanSignal>, signalCount: int)
    returns (r: Option<CanSignalState>)
    requires signal.stateCount <= |signal.states|
    ensures r == Find(value, SignalStateValueComparator, signal.states, signal.stateCount)
    ensures r.Some? ==> r.value.value == value
    ensures r.None? <==> forall i | 0 <= i < signal.stateCount :: signal.states[i].value != value
  {
    var index := Lookup(value, SignalStateValueComparator, signal.states, signal.stateCount);
    if index != -1 {
      r := Some(signal.states[index]);
    } else {
      r := None;
    }
  }

  /** `lookupSignal` with the writable flag: when it is set, a signal must
      also be writable to match, so a read-only entry is never returned. */
  method LookupSignal(name: string, signals: seq<CanSignal>, signalCount: int, writable: bool)
    returns (r: Option<CanSignal>)
    requires signalCount <= |signals|
    ensures !writable ==> r == Find(name, SignalComparator, signals, signalCount)
    ensures writable ==> r == Find(name, WritableSignalComparator, signals, signalCount)
    ensures r.Some? ==> r.value.genericName == name && (writable ==> r.value.writable)
    ensures r.None? <==> forall i | 0 <= i < signalCount ::
                           signals[i].genericName != name || (writable && !signals[i].writable)
  {
    var comparator := SignalComparator;
    if writable {
      comparator := WritableSignalComparator;
    }
    var index := Lookup(name, comparator, signals, signalCount);
    if index != -1 {
      r := Some(signals[index]);
    } else {
      r := None;
    }
  }

  /** `lookupSignal` without the flag: the unfiltered search. */
  method LookupSignalByName(name: string, signals: seq<CanSignal>, signalCount: int)
    returns (r: Option<CanSignal>)
    requires signalCount <= |signals|
    ensures r == Find(name, SignalComparator, signals, signalCount)
    ensures r.Some? ==> r.value.genericName == name
    ensures r.None? <==> forall i | 0 <= i < signalCount :: signals[i].genericName != name
  {
    r := LookupSignal(name, signals, signalCount, false);
  }

  /** `lookupCommand`: the first command with the given generic name. */
  method LookupCommand(name: string, commands: seq<CanCommand>, commandCount: int)
    returns (r: Option<CanCommand>)
    requires commandCount <= |commands|
    ensures r == Find(name, CommandComparator, commands, commandCount)
    ensures r.Some? ==> r.value.genericName == name
    ensures r.None? <==> forall i | 0 <= i < commandCount :: commands[i].genericName != name
  {
    var index := Lookup(name, CommandComparator, commands, commandCount);
    if index != -1 {
      r := Some(commands[index]);
    } else {
      r := None;
    }
  }

  /** The writable search skips a read-only entry with the right name and
      returns the first entry that has both the name and the flag, while the
      unfiltered search returns the read-only one. */
  lemma WritableSearchSkipsReadOnly(name: string, signals: seq<CanSignal>, signalCount: int,
                                    readOnly: int, k: int)
    requires signalCount <= |signals|
    requires 0 <= readOnly < k < signalCount
    requires signals[readOnly].genericName == name && !signals[readOnly].writable
    requires forall i | 0 <= i < readOnly :: signals[i].genericName != name
    requires signals[k].genericName == name && signals[k].writable
    requires forall i | 0 <= i < k :: signals[i].genericName == name ==> !signals[i].writable
    ensures Find(name, SignalComparator, signals, signalCount) == Some(signals[readOnly])
    ensures Find(name, WritableSignalComparator, signals, signalCount) == Some(signals[k])
  {
  }

  /** A name present in the table resolves to its lowest occurrence; a name
      present exactly once resolves to that entry. */
  lemma SignalSearchFindsLowestOccurrence(name: string, signals: seq<CanSignal>,
                                          signalCount: int, k: int)
    requires signalCount <= |signals|
    requires 0 <= k < signalCount && signals[k].genericName == name
    requires forall i | 0 <= i < k :: signals[i].genericName != name
    ensures Find(name, SignalComparator, signals, signalCount) == Some(signals[k])
  {
  }

  /** Duplicate state values resolve to the lowest index. */
  lemma StateSearchFindsLowestValue(value: int, signal: CanSignal, k: int)
    requires signal.stateCount <= |signal.states|
    requires 0 <= k < signal.stateCount && signal.states[k].value == value
    requires forall i | 0 <= i < k :: signal.states[i].value != value
    ensures Find(value, SignalStateValueComparator, signal.states, signal.stateCount)
            == Some(signal.states[k])
  {
  }

  /** States at or beyond `stateCount` are never looked at, by name or by value. */
  lemma StateSearchIgnoresUncountedStates(name: string, value: int, signal: CanSignal, other: CanSignal)
    requires signal.stateCount <= |signal.states| && other.stateCount == signal.stateCount
    requires signal.stateCount <= |other.states|
    requires forall i | 0 <= i < signal.stateCount :: signal.states[i] == other.states[i]
    ensures Find(name, SignalStateNameComparator, signal.states, signal.stateCount)
            == Find(name, SignalStateNameComparator, other.states, other.stateCount)
    ensures Find(value, SignalStateValueComparator, signal.states, signal.stateCount)
            == Find(value, SignalStateValueComparator, other.states, other.stateCount)
  {
  }

  /** Commands at or beyond `commandCount` are never looked at. */
  lemma CommandSearchIgnoresUncounted(name: string, commands: seq<CanCommand>,
                                      others: seq<CanCommand>, commandCount: int)
    requires commandCount <= |commands| && commandCount <= |others|
    requires forall i | 0 <= i < commandCount :: commands[i] == others[i]
    ensures Find(name, CommandComparator, commands, commandCount)
            == Find(name, CommandComparator, others, commandCount)
  {
  }

  /** Two-entry table: a read-only ENGINE_SPEED and a writable DOOR_LOCK. */
  lemma WritableSearchScenario()
    ensures var table := [CanSignal("ENGINE_SPEED", false, [], 0),
                          CanSignal("DOOR_LOCK", true, [], 0)];
            Find("DOOR_LOCK", WritableSignalComparator, table, 2) == Some(table[1]) &&
            Find("ENGINE_SPEED", WritableSignalComparator, table, 2) == None &&
            Find("ENGINE_SPEED", SignalComparator, table, 2) == Some(table[0])
  {
  }
}
