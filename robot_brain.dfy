// The robot's behaviour state machine (Brain.cpp): fourteen states, each
// optionally with an entry action, a transition check and a watchdog that
// moves to another state after a timeout. A tick first honours the current
// state's watchdog, then takes the first other state whose check passes.
module RobotBrain {
  import opened CInt

  /** The states, indexed in their declaration order in `AllStates`. */
  const FORWARD_AFTER_A_SEC: nat := 0
  const FORWARDS_MINDLESSLY: nat := 1
  const SCANNING_RANDOM: nat := 2
  const SCANNING_LEFT: nat := 3
  const SCANNING_RIGHT: nat := 4
  const TOWARDS_ON_LEFT: nat := 5
  const TOWARDS_ON_RIGHT: nat := 6
  const PICKING_UP_MIDDLE: nat := 7
  const CLOSE_ON_LEFT: nat := 8
  const CLOSE_ON_RIGHT: nat := 9
  const AVOIDING_FRONT: nat := 10
  const AVOIDING_LEFT: nat := 11
  const AVOIDING_RIGHT: nat := 12
  const AVOIDING_ON_LEAN: nat := 13
  const STATE_COUNT: nat := 14

  /** A `State`: whether it has an entry action and a transition check
      (the function pointers themselves are not modelled), its watchdog,
      and its flags. `timeoutState` is an index into the state table. */
  datatype StateRecord = StateRecord(
    initialised: bool,
    hasAction: bool,
    hasCallback: bool,
    numberOfSuccesses: int,
    hasWatchdog: bool,
    timeoutState: nat,
    timeout: U32,
    resetSensorsPost: bool,
    automaticTransision: bool)
  {
    /** `State::Initialise`: sets the action, the check and the success
        count, and marks the state initialised; the flags and the watchdog
        are kept. */
    function Initialise(action: bool, callback: bool, successes: int): (r: StateRecord)
      ensures r.initialised && r.hasAction == action && r.hasCallback == callback
      ensures r.numberOfSuccesses == successes
      ensures r.(initialised := initialised, hasAction := hasAction, hasCallback := hasCallback,
                 numberOfSuccesses := numberOfSuccesses) == this
    {
      this.(hasAction := action, hasCallback := callback, numberOfSuccesses := successes, initialised := true)
    }

    /** `State::setResetSensorsPost`: only that flag changes. */
    function SetResetSensorsPost(): (r: StateRecord)
      ensures r.resetSensorsPost && r.(resetSensorsPost := resetSensorsPost) == this
    {
      this.(resetSensorsPost := true)
    }

    /** `State::setAutomaticTransision`: only that flag changes. */
    function SetAutomaticTransision(): (r: StateRecord)
      ensures r.automaticTransision && r.(automaticTransision := automaticTransision) == this
    {
      this.(automaticTransision := true)
    }

    /** `State::addWatchdog`: the watchdog's target and timeout, and
        nothing else. */
    function AddWatchdog(target: nat, after: U32): (r: StateRecord)
      ensures r.hasWatchdog && r.timeoutState == target && r.timeout == after
      ensures r.(hasWatchdog := hasWatchdog, timeoutState := timeoutState, timeout := timeout) == this
    {
      this.(timeoutState := target, timeout := after, hasWatchdog := true)
    }
  }

  /** A `State` as the default constructor and static zero storage leave it. */
  const Blank := StateRecord(false, false, false, 0, false, 0, 0, false, false)

  /** The brain's statics: the state table, the current and last state, the
      time of the last change, the temporary scan time, how many times the
      sensor buffers were flushed, the states whose entry action ran, and
      whether a change into an uninitialised state has stopped the program. */
  datatype BrainValue = BrainValue(
    states: seq<StateRecord>,
    current: nat,
    last: nat,
    stateChangedTimestamp: U32,
    temporaryScanTime: U32,
    sensorFlushes: nat,
    entered: seq<nat>,
    halted: bool)

  /** Every index in range, watchdog targets included. */
  predicate Valid(b: BrainValue)
  {
    |b.states| == STATE_COUNT && b.current < STATE_COUNT && b.last < STATE_COUNT &&
    forall i :: 0 <= i < |b.states| ==> b.states[i].timeoutState < STATE_COUNT
  }

  /** `BrainClass::stateChange` at time `now`. */
  function AfterStateChange(b: BrainValue, next: nat, now: U32): (r: BrainValue)
    requires Valid(b) && next < STATE_COUNT && !b.halted
    ensures Valid(r) && r.states == b.states && r.temporaryScanTime == b.temporaryScanTime
    // a change into an uninitialised state never returns: nothing else happens
    ensures !b.states[next].initialised ==> r == b.(halted := true)
    ensures b.states[next].initialised ==>
              !r.halted && r.last == b.current && r.current == next && r.stateChangedTimestamp == now
    // the sensors are flushed when leaving a state that asks for it
    ensures b.states[next].initialised ==>
              r.sensorFlushes == b.sensorFlushes + (if b.states[b.current].resetSensorsPost then 1 else 0)
    ensures b.states[next].initialised ==>
              r.entered == b.entered + (if b.states[next].hasAction then [next] else [])
  {
    if !b.states[next].initialised then b.(halted := true)
    else
      b.(sensorFlushes := b.sensorFlushes + (if b.states[b.current].resetSensorsPost then 1 else 0),
         last := b.current,
         current := next,
         stateChangedTimestamp := now,
         entered := b.entered + (if b.states[next].hasAction then [next] else []))
  }

  /** Whether state `i` is a candidate for a conditional change: not the
      current state, with a check, and the check passes. */
  predicate Candidate(b: BrainValue, fires: seq<bool>, i: nat)
    requires |b.states| == STATE_COUNT && |fires| == STATE_COUNT && i < STATE_COUNT
  {
    i != b.current && b.states[i].hasCallback && fires[i]
  }

  /** The first candidate at index `from` or later, in declaration order. */
  function FirstFiring(b: BrainValue, fires: seq<bool>, from: nat): (r: Option<nat>)
    requires |b.states| == STATE_COUNT && |fires| == STATE_COUNT && from <= STATE_COUNT
    ensures r.Some? ==> from <= r.value < STATE_COUNT && Candidate(b, fires, r.value) &&
                        forall j :: from <= j < r.value ==> !Candidate(b, fires, j)
    ensures r.None? ==> forall j :: from <= j < STATE_COUNT ==> !Candidate(b, fires, j)
    decreases STATE_COUNT - from
  {
    if from == STATE_COUNT then None
    else if Candidate(b, fires, from) then Some(from)
    else FirstFiring(b, fires, from + 1)
  }

  /** Whether the current state's watchdog has expired at `now`, with the
      elapsed time computed in unsigned 32-bit arithmetic. */
  predicate WatchdogExpired(b: BrainValue, now: U32)
    requires Valid(b)
  {
    b.states[b.current].hasWatchdog &&
    Wrap32(now - b.stateChangedTimestamp) >= b.states[b.current].timeout
  }

  /** Whether the temporary scan time of a scanning state has run out. */
  predicate ScanTimeExpired(b: BrainValue, now: U32)
    requires Valid(b)
  {
    b.states[b.current].hasWatchdog &&
    (b.current == SCANNING_LEFT || b.current == SCANNING_RIGHT) &&
    b.temporaryScanTime != 0 &&
    Wrap32(now - b.stateChangedTimestamp) >= b.temporaryScanTime
  }

  /** `BrainClass::stateTick` at time `now`, with `fires[i]` the answer the
      transition check of state `i` gives. The expiry of a temporary scan
      changes state but does not end the tick, so the conditional scan then
      runs from the new state. */
  /** The temporary scan's expiry, checked when the watchdog has not
      fired: back to driving forward, with the scan time cleared. */
  function AfterScanExpiry(b: BrainValue, now: U32): (r: BrainValue)
    requires Valid(b) && !b.halted
    ensures Valid(r) && r.states == b.states
    ensures !ScanTimeExpired(b, now) <==> r == b
  {
    if ScanTimeExpired(b, now) then AfterStateChange(b.(temporaryScanTime := 0), FORWARDS_MINDLESSLY, now)
    else b
  }

  /** The scan over the transition checks, skipped once the program has
      stopped or when the state moves on by itself. */
  function AfterConditional(b: BrainValue, now: U32, fires: seq<bool>): (r: BrainValue)
    requires Valid(b) && |fires| == STATE_COUNT
    ensures Valid(r) && r.states == b.states
  {
    if b.halted || b.states[b.current].automaticTransision then b
    else
      match FirstFiring(b, fires, 0)
      case None => b
      case Some(i) => AfterStateChange(b, i, now)
  }

  /** `BrainClass::stateTick` at time `now`, with `fires[i]` the answer the
      transition check of state `i` gives. The expiry of a temporary scan
      changes state but does not end the tick, so the conditional scan then
      runs from the new state. */
  function AfterStateTick(b: BrainValue, now: U32, fires: seq<bool>): (r: BrainValue)
    requires Valid(b) && !b.halted && |fires| == STATE_COUNT
    ensures Valid(r) && r.states == b.states
  {
    if WatchdogExpired(b, now) then AfterStateChange(b, b.states[b.current].timeoutState, now)
    else AfterConditional(AfterScanExpiry(b, now), now, fires)
  }

  /** An expired watchdog wins over every transition check. */
  lemma WatchdogPriority(b: BrainValue, now: U32, fires: seq<bool>, other: seq<bool>)
    requires Valid(b) && !b.halted && |fires| == STATE_COUNT && |other| == STATE_COUNT
    requires WatchdogExpired(b, now)
    requires b.states[b.states[b.current].timeoutState].initialised
    ensures AfterStateTick(b, now, fires) == AfterStateTick(b, now, other)
    ensures AfterStateTick(b, now, fires).current == b.states[b.current].timeoutState
    ensures AfterStateTick(b, now, fires).last == b.current
  {
  }

  /** A state that moves on by itself is never left by a transition check. */
  lemma AutomaticSkipsScan(b: BrainValue, now: U32, fires: seq<bool>)
    requires Valid(b) && !b.halted && |fires| == STATE_COUNT
    requires b.states[b.current].automaticTransision && !b.states[b.current].hasWatchdog
    ensures AfterStateTick(b, now, fires) == b
  {
  }

  /** Without a watchdog or temporary scan, a tick moves to the first
      candidate in declaration order, and stays put when there is none. */
  lemma ConditionalPicksFirst(b: BrainValue, now: U32, fires: seq<bool>, i: nat)
    requires Valid(b) && !b.halted && |fires| == STATE_COUNT && i < STATE_COUNT
    requires !b.states[b.current].hasWatchdog && !b.states[b.current].automaticTransision
    requires forall j :: 0 <= j < STATE_COUNT ==> b.states[j].initialised
    ensures (AfterStateTick(b, now, fires).current == i && AfterStateTick(b, now, fires) != b) <==>
              Candidate(b, fires, i) && forall j :: 0 <= j < i ==> !Candidate(b, fires, j)
    ensures (forall j :: 0 <= j < STATE_COUNT ==> !Candidate(b, fires, j)) ==> AfterStateTick(b, now, fires) == b
  {
    var r := AfterStateTick(b, now, fires);
    match FirstFiring(b, fires, 0)
    case None =>
    case Some(k) =>
      assert r.current == k && k != b.current;
  }

  /** The expiry of a temporary scan and a conditional change can both
      happen in one tick: the forward state is entered and left again. */
  lemma ScanExpiryThenConditional(b: BrainValue, now: U32, fires: seq<bool>, i: nat)
    requires Valid(b) && !b.halted && |fires| == STATE_COUNT && i < STATE_COUNT
    requires b.current == SCANNING_LEFT && !WatchdogExpired(b, now) && ScanTimeExpired(b, now)
    requires forall j :: 0 <= j < STATE_COUNT ==> b.states[j].initialised && !b.states[j].automaticTransision
    requires i != FORWARDS_MINDLESSLY && b.states[i].hasCallback && fires[i]
    requires forall j :: 0 <= j < i ==> !(b.states[j].hasCallback && fires[j])
    ensures var r := AfterStateTick(b, now, fires);
            r.current == i && r.last == FORWARDS_MINDLESSLY && r.temporaryScanTime == 0
    ensures b.states[FORWARDS_MINDLESSLY].hasAction && b.states[i].hasAction ==>
              AfterStateTick(b, now, fires).entered == b.entered + [FORWARDS_MINDLESSLY, i]
  {
    var b1 := AfterStateChange(b.(temporaryScanTime := 0), FORWARDS_MINDLESSLY, now);
    assert Candidate(b1, fires, i);
  }

  /** The table `BrainClass::InitialiseStates` builds: every state with an
      entry action, a check on the approach and avoidance states, watchdogs
      back to driving forward, and a sensor flush after picking up or
      avoiding. */
  function Configured(i: nat): (s: StateRecord)
    requires i < STATE_COUNT
  {
    StateRecord(
      initialised := true,
      hasAction := true,
      hasCallback := i >= TOWARDS_ON_LEFT,
      numberOfSuccesses := 1,
      hasWatchdog := i in {FORWARD_AFTER_A_SEC, FORWARDS_MINDLESSLY, SCANNING_LEFT, SCANNING_RIGHT,
                           TOWARDS_ON_LEFT, TOWARDS_ON_RIGHT},
      timeoutState := if i == FORWARDS_MINDLESSLY then SCANNING_RANDOM
                      else if i in {FORWARD_AFTER_A_SEC, SCANNING_LEFT, SCANNING_RIGHT,
                                    TOWARDS_ON_LEFT, TOWARDS_ON_RIGHT} then FORWARDS_MINDLESSLY
                      else 0,
      timeout := if i in {FORWARDS_MINDLESSLY, SCANNING_LEFT, SCANNING_RIGHT} then 4000
                 else if i in {FORWARD_AFTER_A_SEC, TOWARDS_ON_LEFT, TOWARDS_ON_RIGHT} then 1000
                 else 0,
      resetSensorsPost := i in {PICKING_UP_MIDDLE, AVOIDING_FRONT, AVOIDING_LEFT, AVOIDING_RIGHT,
                                AVOIDING_ON_LEAN},
      automaticTransision := false)
  }

  /** A brain running on the configured table. */
  predicate Configuration(b: BrainValue)
  {
    |b.states| == STATE_COUNT && forall i :: 0 <= i < STATE_COUNT ==> b.states[i] == Configured(i)
  }

  /** Ticks at the given times with the given check answers. */
  function Run(b: BrainValue, ticks: seq<(U32, seq<bool>)>): (r: BrainValue)
    requires Valid(b) && !b.halted
    requires forall k :: 0 <= k < |ticks| ==> |ticks[k].1| == STATE_COUNT
    ensures Valid(r)
    decreases |ticks|
  {
    if |ticks| == 0 then b
    else
      var b1 := AfterStateTick(b, ticks[0].0, ticks[0].1);
      if b1.halted then b1 else Run(b1, ticks[1..])
  }

  /** With the configured table no watchdog or check ever leads into an
      uninitialised state, so the program never stops, and it only ever
      waits in a state with a watchdog or leaves through a check. */
  lemma {:induction false} ConfiguredNeverHalts(b: BrainValue, ticks: seq<(U32, seq<bool>)>)
    requires Valid(b) && !b.halted && Configuration(b)
    requires forall k :: 0 <= k < |ticks| ==> |ticks[k].1| == STATE_COUNT
    ensures !Run(b, ticks).halted && Configuration(Run(b, ticks))
    decreases |ticks|
  {
    if |ticks| > 0 {
      var b1 := AfterStateTick(b, ticks[0].0, ticks[0].1);
      assert !b1.halted by {
        assert forall i :: 0 <= i < STATE_COUNT ==> b.states[i].initialised;
      }
      ConfiguredNeverHalts(b1, ticks[1..]);
    }
  }

  /** The brain: the state table and its statics. */
  class Brain {
    var allStates: seq<StateRecord>
    var currentState: nat
    var lastState: nat
    var stateChangedTimestamp: U32
    var temporaryScanTime: U32
    var sensorFlushes: nat
    var entered: seq<nat>
    var halted: bool

    function Value(): BrainValue
      reads this
    {
      BrainValue(allStates, currentState, lastState, stateChangedTimestamp, temporaryScanTime,
                 sensorFlushes, entered, halted)
    }

    /** Static storage: fourteen blank states, everything else zero. */
    constructor ()
      ensures Valid(Value()) && !halted && allStates == seq(STATE_COUNT, _ => Blank)
      ensures temporaryScanTime == 0 && sensorFlushes == 0 && entered == []
    {
      allStates := seq(STATE_COUNT, _ => Blank);
      currentState := 0;
      lastState := 0;
      stateChangedTimestamp := 0;
      temporaryScanTime := 0;
      sensorFlushes := 0;
      entered := [];
      halted := false;
    }

    /** `BrainClass::stateChange`. */
    method StateChange(next: nat, now: U32)
      requires Valid(Value()) && next < STATE_COUNT && !halted
      modifies this
      ensures Value() == AfterStateChange(old(Value()), next, now)
    {
      if !allStates[next].initialised {
        halted := true;
        return;
      }
      if allStates[currentState].resetSensorsPost {
        sensorFlushes := sensorFlushes + 1;
      }
      lastState := currentState;
      currentState := next;
      stateChangedTimestamp := now;
      if allStates[next].hasAction {
        entered := entered + [next];
      }
    }

    /** `BrainClass::stateTick`: the watchdog, the temporary scan, then the
        scan over the states in declaration order. */
    method StateTick(now: U32, fires: seq<bool>)
      requires Valid(Value()) && !halted && |fires| == STATE_COUNT
      modifies this
      ensures Value() == AfterStateTick(old(Value()), now, fires)
    {
      if allStates[currentState].hasWatchdog {
        if Wrap32(now - stateChangedTimestamp) >= allStates[currentState].timeout {
          StateChange(allStates[currentState].timeoutState, now);
          return;
        } else if currentState == SCANNING_LEFT || currentState == SCANNING_RIGHT {
          ScanExpiry(now);
        }
      }
      ConditionalScan(now, fires);
    }

    /** The temporary scan's expiry inside a scanning state's watchdog check. */
    method ScanExpiry(now: U32)
      requires Valid(Value()) && !halted && allStates[currentState].hasWatchdog
      requires currentState == SCANNING_LEFT || currentState == SCANNING_RIGHT
      modifies this
      ensures Value() == AfterScanExpiry(old(Value()), now)
    {
      if temporaryScanTime != 0 && Wrap32(now - stateChangedTimestamp) >= temporaryScanTime {
        temporaryScanTime := 0;
        StateChange(FORWARDS_MINDLESSLY, now);
      }
    }

    /** The automatic-transition check and the loop over the states. */
    method ConditionalScan(now: U32, fires: seq<bool>)
      requires Valid(Value()) && |fires| == STATE_COUNT
      modifies this
      ensures Value() == AfterConditional(old(Value()), now, fires)
    {
      if halted {
        return;
      }
      if allStates[currentState].automaticTransision {
        return;
      }
      var i := 0;
      while i < STATE_COUNT
        invariant 0 <= i <= STATE_COUNT && Value() == old(Value())
        invariant FirstFiring(Value(), fires, 0) == FirstFiring(Value(), fires, i)
      {
        if i != currentState && allStates[i].hasCallback {
          if fires[i] {
            StateChange(i, now);
            return;
          }
        }
        i := i + 1;
      }
    }

    /** The first `State::Initialise` calls of `BrainClass::InitialiseStates`:
        the driving and scanning states get an entry action only. */
    method InitialiseUnchecked()
      requires |allStates| == STATE_COUNT
      modifies this`allStates
      ensures |allStates| == STATE_COUNT
      ensures forall i :: 0 <= i < STATE_COUNT ==>
                allStates[i] == if i < TOWARDS_ON_LEFT then old(allStates[i]).Initialise(true, false, 1)
                                else old(allStates[i])
    {
      var s := allStates;
      s := s[FORWARD_AFTER_A_SEC := s[FORWARD_AFTER_A_SEC].Initialise(true, false, 1)];
      s := s[FORWARDS_MINDLESSLY := s[FORWARDS_MINDLESSLY].Initialise(true, false, 1)];
      s := s[SCANNING_RANDOM := s[SCANNING_RANDOM].Initialise(true, false, 1)];
      s := s[SCANNING_LEFT := s[SCANNING_LEFT].Initialise(true, false, 1)];
      s := s[SCANNING_RIGHT := s[SCANNING_RIGHT].Initialise(true, false, 1)];
      allStates := s;
    }

    /** The remaining `State::Initialise` calls: the approach, pick-up and
        avoidance states get an entry action and a transition check. */
    method InitialiseChecked()
      requires |allStates| == STATE_COUNT
      modifies this`allStates
      ensures |allStates| == STATE_COUNT
      ensures forall i :: 0 <= i < STATE_COUNT ==>
                allStates[i] == if i >= TOWARDS_ON_LEFT then old(allStates[i]).Initialise(true, true, 1)
                                else old(allStates[i])
    {
      var s := allStates;
      s := s[TOWARDS_ON_LEFT := s[TOWARDS_ON_LEFT].Initialise(true, true, 1)];
      s := s[TOWARDS_ON_RIGHT := s[TOWARDS_ON_RIGHT].Initialise(true, true, 1)];
      s := s[PICKING_UP_MIDDLE := s[PICKING_UP_MIDDLE].Initialise(true, true, 1)];
      s := s[CLOSE_ON_LEFT := s[CLOSE_ON_LEFT].Initialise(true, true, 1)];
      s := s[CLOSE_ON_RIGHT := s[CLOSE_ON_RIGHT].Initialise(true, true, 1)];
      s := s[AVOIDING_FRONT := s[AVOIDING_FRONT].Initialise(true, true, 1)];
      s := s[AVOIDING_LEFT := s[AVOIDING_LEFT].Initialise(true, true, 1)];
      s := s[AVOIDING_RIGHT := s[AVOIDING_RIGHT].Initialise(true, true, 1)];
      s := s[AVOIDING_ON_LEAN := s[AVOIDING_ON_LEAN].Initialise(true, true, 1)];
      allStates := s;
    }

    /** The `State::addWatchdog` calls of `BrainClass::InitialiseStates`. */
    method AddWatchdogs()
      requires |allStates| == STATE_COUNT
      modifies this`allStates
      ensures |allStates| == STATE_COUNT
      ensures forall i :: 0 <= i < STATE_COUNT ==>
                allStates[i] == (if Configured(i).hasWatchdog
                                 then old(allStates[i]).AddWatchdog(Configured(i).timeoutState, Configured(i).timeout)
                                 else old(allStates[i]))
    {
      var s := allStates;
      s := s[FORWARD_AFTER_A_SEC := s[FORWARD_AFTER_A_SEC].AddWatchdog(FORWARDS_MINDLESSLY, 1000)];
      s := s[FORWARDS_MINDLESSLY := s[FORWARDS_MINDLESSLY].AddWatchdog(SCANNING_RANDOM, 4000)];
      s := s[SCANNING_LEFT := s[SCANNING_LEFT].AddWatchdog(FORWARDS_MINDLESSLY, 4000)];
      s := s[SCANNING_RIGHT := s[SCANNING_RIGHT].AddWatchdog(FORWARDS_MINDLESSLY, 4000)];
      s := s[TOWARDS_ON_LEFT := s[TOWARDS_ON_LEFT].AddWatchdog(FORWARDS_MINDLESSLY, 1000)];
      s := s[TOWARDS_ON_RIGHT := s[TOWARDS_ON_RIGHT].AddWatchdog(FORWARDS_MINDLESSLY, 1000)];
      allStates := s;
    }

    /** The `State::setResetSensorsPost` calls of `BrainClass::InitialiseStates`. */
    method SetFlushes()
      requires |allStates| == STATE_COUNT
      modifies this`allStates
      ensures |allStates| == STATE_COUNT
      ensures forall i :: 0 <= i < STATE_COUNT ==>
                allStates[i] == (if Configured(i).resetSensorsPost then old(allStates[i]).SetResetSensorsPost()
                                 else old(allStates[i]))
    {
      var s := allStates;
      s := s[AVOIDING_FRONT := s[AVOIDING_FRONT].SetResetSensorsPost()];
      s := s[AVOIDING_LEFT := s[AVOIDING_LEFT].SetResetSensorsPost()];
      s := s[AVOIDING_RIGHT := s[AVOIDING_RIGHT].SetResetSensorsPost()];
      s := s[PICKING_UP_MIDDLE := s[PICKING_UP_MIDDLE].SetResetSensorsPost()];
      s := s[AVOIDING_ON_LEAN := s[AVOIDING_ON_LEAN].SetResetSensorsPost()];
      allStates := s;
    }

    /** `BrainClass::InitialiseStates`, run once on the blank table: the
        states' set-up calls in the source's order, then a forced change
        into driving forward. */
    method InitialiseStates(now: U32)
      requires allStates == seq(STATE_COUNT, _ => Blank) && currentState < STATE_COUNT
      requires lastState < STATE_COUNT && !halted
      modifies this
      ensures Configuration(Value()) && Valid(Value()) && !halted
      ensures currentState == FORWARDS_MINDLESSLY && lastState == FORWARDS_MINDLESSLY
      ensures stateChangedTimestamp == now && sensorFlushes == old(sensorFlushes)
      ensures entered == old(entered) + [FORWARDS_MINDLESSLY]
    {
      ghost var s0 := allStates;
      InitialiseUnchecked();
      ghost var s1 := allStates;
      InitialiseChecked();
      ghost var s2 := allStates;
      AddWatchdogs();
      ghost var s3 := allStates;
      SetFlushes();
      forall i | 0 <= i < STATE_COUNT
        ensures allStates[i] == Configured(i)
      {
        assert s0[i] == Blank;
      }
      currentState := FORWARDS_MINDLESSLY;
      StateChange(currentState, now);
    }
  }
}
