/**
  The older serial-addition engine, `Game`. It works like the numbers task, with these
  differences: the adaptive rule looks at the last five ledger entries; the ledger is a
  mixed list of bare speeds (the inverse speed, in ms) and result strings, with no
  timestamps; `start` is never rejected; `stop` records nothing; and a tick tells the
  number before it reschedules itself, so a `stop()` from inside `tellNumber` is undone.
*/
module LegacyGame {
  import opened Wrappers
  import opened Trials

  /** The numbers a tick draws from. */
  const NUMBERS: seq<int> := [1, 2, 3, 4, 5, 6, 7, 8, 9]

  /** How many trailing ledger entries the adaptive rule inspects. */
  const WINDOW: nat := 5

  /** How far one adjustment moves the inverse speed, in ms. */
  const STEP: int := 100

  /** The delay before the first tick of a chain. */
  const FIRST_DELAY: int := 1000

  /** One ledger entry: a bare speed (pushed by `start` and by an adjustment) or a result. */
  datatype Entry = Speed(ms: int) | Result(verdict: Verdict)

  predicate IsFailure(x: Entry) { x.Result? && x.verdict != Right }

  predicate IsRight(x: Entry) { x == Result(Right) }

  predicate AllFailures(w: seq<Entry>) { forall i {:trigger IsFailure(w[i])} | 0 <= i < |w| :: IsFailure(w[i]) }

  predicate AllRight(w: seq<Entry>) { forall i {:trigger IsRight(w[i])} | 0 <= i < |w| :: IsRight(w[i]) }

  /** The closure variables of `Game` as one value. */
  datatype GameState = GameState(
    pending: bool,             // a tick is scheduled (`nextNumberTimeoutId` is set)
    scheduledDelay: int,       // the delay the pending tick was scheduled with
    previousNumber: Option<int>,
    currentNumber: Option<int>,
    userHasAnswered: bool,
    inverseSpeed: int,
    events: seq<Entry>)

  /** The arguments of one `onCount(result, inverseSpeed)` call. */
  datatype Report = Report(verdict: Verdict, inverseSpeed: int)

  /** A game as constructed: nothing scheduled, no numbers, an empty ledger. */
  function Initial(): GameState
  {
    GameState(false, 0, None, None, false, 0, [])
  }

  /** `start(startingInverseSpeed)`: a pending tick is kept, with the delay it already has. */
  function StartStep(s: GameState, speed: int): GameState
  {
    s.(inverseSpeed := speed, currentNumber := None, previousNumber := None, userHasAnswered := false,
       pending := true, scheduledDelay := if s.pending then s.scheduledDelay else FIRST_DELAY,
       events := s.events + [Speed(speed)])
  }

  /** `stop()`. */
  function StopStep(s: GameState): GameState
  {
    s.(pending := false)
  }

  /** `count(result)`: record the result, then apply the adaptive rule to the last WINDOW entries. */
  function CountStep(s: GameState, v: Verdict): GameState
  {
    var s1 := s.(events := s.events + [Result(v)]);
    var w := Last(s1.events, WINDOW);
    if AllFailures(w) then
      s1.(inverseSpeed := s.inverseSpeed + STEP, events := s1.events + [Speed(s.inverseSpeed + STEP)])
    else if AllRight(w) then
      s1.(inverseSpeed := s.inverseSpeed - STEP, events := s1.events + [Speed(s.inverseSpeed - STEP)])
    else s1
  }

  /** The open trial closes unanswered on the next tick. */
  predicate MissDue(s: GameState)
  {
    !s.userHasAnswered && s.previousNumber.Some?
  }

  /**
    `nextNumber()` with the drawn number d. `stopOnTell` says whether `tellNumber` calls
    `stop()`; the reschedule after it sets the timer again either way.
  */
  function TickStep(s: GameState, d: int, stopOnTell: bool): GameState
    requires s.pending
  {
    var s1 := if MissDue(s) then CountStep(s, Miss) else s;
    var s2 := s1.(userHasAnswered := false, previousNumber := s1.currentNumber, currentNumber := Some(d));
    var s3 := if stopOnTell then StopStep(s2) else s2;
    s3.(pending := true, scheduledDelay := s3.inverseSpeed)
  }

  /** An answer is ignored before the second number and once the trial is answered. */
  predicate AnswerIgnored(s: GameState)
  {
    s.previousNumber.None? || s.userHasAnswered
  }

  /** `setUserAnswer(number)`; in `currentNumber + previousNumber` JavaScript reads `null` as 0. */
  function AnswerStep(s: GameState, number: int): GameState
  {
    if AnswerIgnored(s) then s
    else CountStep(s.(userHasAnswered := true),
                   Judge(number, s.previousNumber.value, s.currentNumber.GetOr(0)))
  }

  // ---------------------------------------------------------------------------
  // The invariant

  /** The most recent speed in the ledger. */
  function LastSpeed(e: seq<Entry>): (r: Option<int>)
    ensures r.Some? ==> exists i | 0 <= i < |e| :: e[i] == Speed(r.value) && forall j | i < j < |e| :: e[j].Result?
    ensures r.None? ==> forall i | 0 <= i < |e| :: e[i].Result?
  {
    if e == [] then None
    else if e[|e| - 1].Speed? then Some(e[|e| - 1].ms)
    else
      var init := e[..|e| - 1];
      var r := LastSpeed(init);
      assert e == init + [e[|e| - 1]];
      if r.Some? then
        var i :| 0 <= i < |init| && init[i] == Speed(r.value) && forall j | i < j < |init| :: init[j].Result?;
        assert e[i] == Speed(r.value) && forall j | i < j < |e| :: e[j].Result?;
        r
      else r
  }

  /** The ledger opens with a speed, and its last speed is the one in effect. */
  predicate Inv(s: GameState)
  {
    && (s.previousNumber.Some? ==> s.previousNumber.value in NUMBERS && s.currentNumber.Some?)
    && (s.currentNumber.Some? ==> s.currentNumber.value in NUMBERS)
    && (s.events == [] ==> !s.pending && s.currentNumber.None?)
    && (s.events != [] ==> s.events[0].Speed? && LastSpeed(s.events) == Some(s.inverseSpeed))
  }

  lemma LastSpeedAppend(e: seq<Entry>, x: Entry)
    ensures LastSpeed(e + [x]) == if x.Speed? then Some(x.ms) else LastSpeed(e)
  {
    assert (e + [x])[..|e|] == e;
  }

  lemma {:induction false} CountKeepsInv(s: GameState, v: Verdict)
    requires Inv(s) && s.events != []
    ensures Inv(CountStep(s, v)) && CountStep(s, v).events != []
  {
    var e1 := s.events + [Result(v)];
    LastSpeedAppend(s.events, Result(v));
    LastSpeedAppend(e1, Speed(s.inverseSpeed + STEP));
    LastSpeedAppend(e1, Speed(s.inverseSpeed - STEP));
  }

  lemma InitialInv()
    ensures Inv(Initial())
  {
  }

  lemma {:induction false} StartKeepsInv(s: GameState, speed: int)
    requires Inv(s)
    ensures Inv(StartStep(s, speed))
  {
    LastSpeedAppend(s.events, Speed(speed));
  }

  lemma StopKeepsInv(s: GameState)
    requires Inv(s)
    ensures Inv(StopStep(s))
  {
  }

  lemma {:induction false} TickKeepsInv(s: GameState, d: int, stopOnTell: bool)
    requires Inv(s) && s.pending && d in NUMBERS
    ensures Inv(TickStep(s, d, stopOnTell))
  {
    if MissDue(s) {
      CountKeepsInv(s, Miss);
    }
  }

  lemma {:induction false} AnswerKeepsInv(s: GameState, number: int)
    requires Inv(s)
    ensures Inv(AnswerStep(s, number))
  {
    if !AnswerIgnored(s) {
      CountKeepsInv(s.(userHasAnswered := true), Judge(number, s.previousNumber.value, s.currentNumber.GetOr(0)));
    }
  }

  // ---------------------------------------------------------------------------
  // The adaptive rule

  /** The four entries before a failure are failures too: a slow-down is due. */
  predicate SlowerDue(e: seq<Entry>, v: Verdict)
  {
    v != Right && |e| >= WINDOW - 1 && AllFailures(e[|e| - (WINDOW - 1)..])
  }

  /** The four entries before a right answer are right too: a speed-up is due. */
  predicate FasterDue(e: seq<Entry>, v: Verdict)
  {
    v == Right && |e| >= WINDOW - 1 && AllRight(e[|e| - (WINDOW - 1)..])
  }

  /** The window after a result is all failures, or all right, exactly when that adjustment is due. */
  lemma {:induction false} WindowDecides(e: seq<Entry>, v: Verdict)
    requires e != [] && e[0].Speed?
    ensures AllFailures(Last(e + [Result(v)], WINDOW)) <==> SlowerDue(e, v)
    ensures AllRight(Last(e + [Result(v)], WINDOW)) <==> FasterDue(e, v)
  {
    var x := Result(v);
    var e1 := e + [x];
    var w := Last(e1, WINDOW);
    if |e1| < WINDOW {
      assert w == e1 && !IsFailure(w[0]) && !IsRight(w[0]);
    } else {
      var tail := e[|e| - (WINDOW - 1)..];
      assert w == tail + [x];
      if AllFailures(w) {
        forall i | 0 <= i < |tail| ensures IsFailure(tail[i]) { assert tail[i] == w[i]; }
        assert IsFailure(w[WINDOW - 1]);
      }
      if SlowerDue(e, v) {
        forall i | 0 <= i < |w| ensures IsFailure(w[i]) {
          if i < |tail| { assert w[i] == tail[i]; }
        }
      }
      if AllRight(w) {
        forall i | 0 <= i < |tail| ensures IsRight(tail[i]) { assert tail[i] == w[i]; }
        assert IsRight(w[WINDOW - 1]);
      }
      if FasterDue(e, v) {
        forall i | 0 <= i < |w| ensures IsRight(w[i]) {
          if i < |tail| { assert w[i] == tail[i]; }
        }
      }
    }
  }

  /**
    `count` records the result; after five failures in a row the inverse speed rises by
    STEP and the new speed is pushed; after five right answers in a row it falls by STEP
    and the new speed is pushed; otherwise nothing else changes. Never both.
  */
  lemma {:induction false} CountOutcomes(s: GameState, v: Verdict)
    requires s.events != [] && s.events[0].Speed?
    ensures !(SlowerDue(s.events, v) && FasterDue(s.events, v))
    ensures var r, scored := CountStep(s, v), s.events + [Result(v)];
      && (SlowerDue(s.events, v) ==>
            r.inverseSpeed == s.inverseSpeed + STEP && r.events == scored + [Speed(s.inverseSpeed + STEP)])
      && (FasterDue(s.events, v) ==>
            r.inverseSpeed == s.inverseSpeed - STEP && r.events == scored + [Speed(s.inverseSpeed - STEP)])
      && (!SlowerDue(s.events, v) && !FasterDue(s.events, v) ==>
            r.inverseSpeed == s.inverseSpeed && r.events == scored)
      && r.previousNumber == s.previousNumber && r.currentNumber == s.currentNumber
      && r.userHasAnswered == s.userHasAnswered && r.pending == s.pending
  {
    WindowDecides(s.events, v);
  }

  /**
    A pushed speed, the starting one included, among the last four entries blocks any
    adjustment by the next result.
  */
  lemma {:induction false} SpeedBlocksAdjustment(s: GameState, v: Verdict, i: nat)
    requires |s.events| - (WINDOW - 1) <= i < |s.events| && s.events[i].Speed?
    ensures CountStep(s, v) == s.(events := s.events + [Result(v)])
  {
    var e1 := s.events + [Result(v)];
    assert e1[i] == s.events[i];
    var w := Last(e1, WINDOW);
    var k := i - (|e1| - |w|);
    assert w[k] == e1[i];
    assert !AllFailures(w) && !AllRight(w) by {
      assert !IsFailure(w[k]) && !IsRight(w[k]);
    }
  }

  /** `count` applied to each result of vs in turn. */
  function Counts(s: GameState, vs: seq<Verdict>): GameState
    decreases |vs|
  {
    if vs == [] then s else Counts(CountStep(s, vs[0]), vs[1..])
  }

  /** The ledger entries of a run of results with no adjustment among them. */
  function Results(vs: seq<Verdict>): (r: seq<Entry>)
    ensures |r| == |vs|
  {
    if vs == [] then [] else [Result(vs[0])] + Results(vs[1..])
  }

  /**
    Right after a pushed speed, up to four results are recorded without adjustment,
    whatever they are.
  */
  lemma {:induction false} NoAdjustmentAfterSpeed(s: GameState, vs: seq<Verdict>, i: nat)
    requires i < |s.events| && s.events[i].Speed?
    requires |s.events| - i + |vs| <= WINDOW
    ensures Counts(s, vs) == s.(events := s.events + Results(vs))
    decreases |vs|
  {
    if vs == [] {
      assert s.events + Results(vs) == s.events;
    } else {
      var s1 := s.(events := s.events + [Result(vs[0])]);
      UnadjustedCount(s, vs, i);
      assert s1.events[i] == s.events[i];
      NoAdjustmentAfterSpeed(s1, vs[1..], i);
      assert Results(vs) == [Result(vs[0])] + Results(vs[1..]);
      assert s.events + Results(vs) == s1.events + Results(vs[1..]);
    }
  }

  lemma UnadjustedCount(s: GameState, vs: seq<Verdict>, i: nat)
    requires vs != [] && |s.events| - (WINDOW - 1) <= i < |s.events| && s.events[i].Speed?
    ensures Counts(s, vs) == Counts(s.(events := s.events + [Result(vs[0])]), vs[1..])
  {
    SpeedBlocksAdjustment(s, vs[0], i);
  }

  /**
    With a five-entry window, the first slow-down after a pushed speed comes with the
    fifth failure in a row: four failures change nothing and the fifth raises the speed.
  */
  lemma {:induction false} FifthFailureSlowsDown(s: GameState, four: seq<Verdict>, fifth: Verdict)
    requires s.events != [] && s.events[|s.events| - 1].Speed?
    requires |four| == WINDOW - 1 && Right !in four + [fifth]
    ensures Counts(s, four) == s.(events := s.events + Results(four))
    ensures Counts(s, four + [fifth]) ==
      s.(inverseSpeed := s.inverseSpeed + STEP,
         events := s.events + Results(four + [fifth]) + [Speed(s.inverseSpeed + STEP)])
  {
    NoAdjustmentAfterSpeed(s, four, |s.events| - 1);
    FifthAfterFour(s, four, fifth);
  }

  /** A fifth failure after four unadjusted ones raises the speed by STEP and pushes it. */
  lemma FifthAfterFour(s: GameState, four: seq<Verdict>, fifth: Verdict)
    requires |four| == WINDOW - 1 && Right !in four + [fifth]
    requires Counts(s, four) == s.(events := s.events + Results(four))
    ensures Counts(s, four + [fifth]) ==
      s.(inverseSpeed := s.inverseSpeed + STEP,
         events := s.events + Results(four + [fifth]) + [Speed(s.inverseSpeed + STEP)])
  {
    CountsSplit(s, four, [fifth]);
    var s4 := s.(events := s.events + Results(four));
    FiveFailuresWindow(s.events, four, fifth);
    SlowDownStep(s4, fifth);
    var up := Speed(s.inverseSpeed + STEP);
    AppendPair(s4.events, Result(fifth), up);
    assert s4.events + [Result(fifth), up] == s.events + Results(four + [fifth]) + [up];
    UpdateAfterEvents(s, s4.events, s.inverseSpeed + STEP, s4.events + [Result(fifth), up]);
  }

  lemma AppendPair(e: seq<Entry>, x: Entry, y: Entry)
    ensures e + [x, y] == (e + [x]) + [y]
  {
  }

  lemma UpdateAfterEvents(s: GameState, e1: seq<Entry>, speed: int, e2: seq<Entry>)
    ensures s.(events := e1).(inverseSpeed := speed, events := e2) == s.(inverseSpeed := speed, events := e2)
  {
  }

  /** Four failures and a fifth fill the window with failures. */
  lemma FiveFailuresWindow(e: seq<Entry>, four: seq<Verdict>, fifth: Verdict)
    requires |four| == WINDOW - 1 && Right !in four + [fifth]
    ensures var e5 := e + Results(four) + [Result(fifth)];
      && e5 == e + Results(four + [fifth])
      && AllFailures(Last(e5, WINDOW))
  {
    ResultsAppend(four, fifth);
    var e5 := e + Results(four) + [Result(fifth)];
    assert e5 == e + Results(four + [fifth]);
    FailuresRecorded(four + [fifth]);
    assert Last(e5, WINDOW) == Results(four + [fifth]);
  }

  /** A result that completes a window of failures raises the speed by STEP and pushes it. */
  lemma SlowDownCount(s: GameState, v: Verdict)
    requires AllFailures(Last(s.events + [Result(v)], WINDOW))
    ensures CountStep(s, v) ==
      s.(inverseSpeed := s.inverseSpeed + STEP, events := s.events + [Result(v), Speed(s.inverseSpeed + STEP)])
  {
    assert s.events + [Result(v), Speed(s.inverseSpeed + STEP)] == s.events + [Result(v)] + [Speed(s.inverseSpeed + STEP)];
  }

  /** The same, as a run of one result. */
  lemma SlowDownStep(s: GameState, v: Verdict)
    requires AllFailures(Last(s.events + [Result(v)], WINDOW))
    ensures Counts(s, [v]) ==
      s.(inverseSpeed := s.inverseSpeed + STEP, events := s.events + [Result(v), Speed(s.inverseSpeed + STEP)])
  {
    CountsOne(s, v);
    SlowDownCount(s, v);
  }

  lemma CountsOne(s: GameState, v: Verdict)
    ensures Counts(s, [v]) == CountStep(s, v)
  {
    assert [v][1..] == [];
  }

  lemma {:induction false} ResultsAppend(vs: seq<Verdict>, v: Verdict)
    ensures Results(vs + [v]) == Results(vs) + [Result(v)]
    decreases |vs|
  {
    if vs == [] {
      assert [v][1..] == [];
    } else {
      assert (vs + [v])[1..] == vs[1..] + [v];
      ResultsAppend(vs[1..], v);
    }
  }

  lemma {:induction false} FailuresRecorded(vs: seq<Verdict>)
    requires Right !in vs
    ensures AllFailures(Results(vs))
    decreases |vs|
  {
    if vs != [] {
      FailuresRecorded(vs[1..]);
      var r := Results(vs);
      forall i | 0 <= i < |r| ensures IsFailure(r[i]) {
        if i > 0 {
          assert r[i] == Results(vs[1..])[i - 1];
        }
      }
    }
  }

  lemma {:induction false} CountsSplit(s: GameState, us: seq<Verdict>, vs: seq<Verdict>)
    ensures Counts(s, us + vs) == Counts(Counts(s, us), vs)
    decreases |us|
  {
    if us == [] {
      assert us + vs == vs;
    } else {
      assert (us + vs)[0] == us[0] && (us + vs)[1..] == us[1..] + vs;
      CountsSplit(CountStep(s, us[0]), us[1..], vs);
    }
  }

  // ---------------------------------------------------------------------------
  // The run, step by step

  /**
    `start` is never rejected: it sets the speed, clears both numbers and the answered
    flag and pushes the speed. Only a game with no pending tick schedules one, after
    FIRST_DELAY; a pending tick keeps its delay, so repeated starts keep one timer chain.
  */
  lemma StartOutcomes(s: GameState, speed: int)
    ensures var r := StartStep(s, speed);
      && r.events == s.events + [Speed(speed)] && r.inverseSpeed == speed && r.pending
      && r.previousNumber.None? && r.currentNumber.None? && !r.userHasAnswered
      && r.scheduledDelay == (if s.pending then s.scheduledDelay else FIRST_DELAY)
  {
  }

  /** Starting twice pushes both speeds and schedules the first tick once, after FIRST_DELAY. */
  lemma {:induction false} RestartKeepsOneTimer(s: GameState, a: int, b: int)
    requires !s.pending
    ensures var r := StartStep(StartStep(s, a), b);
      r.events == s.events + [Speed(a), Speed(b)] && r.pending && r.scheduledDelay == FIRST_DELAY
      && r.inverseSpeed == b
  {
  }

  /** `stop` clears the timer and nothing else: the ledger is untouched. */
  lemma StopOutcomes(s: GameState)
    ensures StopStep(s).events == s.events && !StopStep(s).pending
    ensures StopStep(s).(pending := s.pending) == s
  {
  }

  /**
    A tick scores MISS exactly when a previous number exists and is unanswered, shifts
    the numbers, clears the answered flag and reschedules with the speed in effect.
  */
  lemma {:induction false} TickOutcomes(s: GameState, d: int, stopOnTell: bool)
    requires s.pending
    ensures var r := TickStep(s, d, stopOnTell);
      && r.previousNumber == s.currentNumber && r.currentNumber == Some(d) && !r.userHasAnswered
      && r.pending && r.scheduledDelay == r.inverseSpeed
      && (MissDue(s) ==> r.events[..|s.events| + 1] == s.events + [Result(Miss)])
      && (MissDue(s) ==> r.events == CountStep(s, Miss).events && r.inverseSpeed == CountStep(s, Miss).inverseSpeed)
      && (!MissDue(s) ==> r.events == s.events && r.inverseSpeed == s.inverseSpeed)
  {
    if MissDue(s) {
      assert CountStep(s, Miss).events[..|s.events| + 1] == s.events + [Result(Miss)];
    }
  }

  /** A `stop()` issued from `tellNumber` is overridden: the tick is pending again. */
  lemma StopDuringTellOverridden(s: GameState, d: int)
    requires s.pending
    ensures TickStep(s, d, true) == TickStep(s, d, false)
  {
  }

  /**
    `setUserAnswer` changes nothing before the second number or once the trial is
    answered; otherwise it marks the trial answered and records RIGHT exactly when the
    answer is the sum of the last two numbers, and WRONG otherwise. A scored answer keeps
    the numbers and the timer; the ledger and the speed are those `count` leaves.
  */
  lemma {:induction false} AnswerOutcomes(s: GameState, number: int)
    requires Inv(s)
    ensures AnswerIgnored(s) ==> AnswerStep(s, number) == s
    ensures !AnswerIgnored(s) ==>
      var r := AnswerStep(s, number);
      var v := if number == s.previousNumber.value + s.currentNumber.value then Right else Wrong;
      && r.userHasAnswered && r.previousNumber == s.previousNumber && r.currentNumber == s.currentNumber
      && r.events[..|s.events| + 1] == s.events + [Result(v)]
      && r.pending == s.pending && r.scheduledDelay == s.scheduledDelay
      && r.events == CountStep(s, v).events && r.inverseSpeed == CountStep(s, v).inverseSpeed
  {
    if !AnswerIgnored(s) {
      var s' := s.(userHasAnswered := true);
      var v := Judge(number, s.previousNumber.value, s.currentNumber.GetOr(0));
      assert CountStep(s', v).events[..|s.events| + 1] == s.events + [Result(v)];
    }
  }

  /** Once answered, a trial is neither answered again nor missed: the next tick records nothing. */
  lemma {:induction false} TrialScoredOnce(s: GameState, a: int, b: int, d: int)
    requires s.pending && !AnswerIgnored(s)
    ensures var r := AnswerStep(s, a);
      && AnswerStep(r, b) == r && !MissDue(r) && r.pending
      && TickStep(r, d, false).events == r.events
  {
    var r := AnswerStep(s, a);
    assert r.pending && !MissDue(r);
    TickOutcomes(r, d, false);
  }

  /** `count` only appends to the ledger. */
  lemma CountGrows(s: GameState, v: Verdict)
    ensures |CountStep(s, v).events| >= |s.events| && CountStep(s, v).events[..|s.events|] == s.events
  {
    var e, r := s.events, CountStep(s, v);
    assert r.events == e + [Result(v)] || r.events == e + [Result(v)] + [r.events[|r.events| - 1]];
    assert (e + [Result(v)])[..|e|] == e;
    assert (e + [Result(v)] + [r.events[|r.events| - 1]])[..|e|] == e;
  }

  /** Every operation only appends to the ledger. */
  lemma {:induction false} LedgerOnlyGrows(s: GameState, speed: int, d: int, number: int, stopOnTell: bool)
    ensures var e := s.events;
      && StartStep(s, speed).events[..|e|] == e
      && StopStep(s).events == e
      && (s.pending ==> |TickStep(s, d, stopOnTell).events| >= |e| && TickStep(s, d, stopOnTell).events[..|e|] == e)
      && |AnswerStep(s, number).events| >= |e| && AnswerStep(s, number).events[..|e|] == e
  {
    var e := s.events;
    assert StartStep(s, speed).events[..|e|] == e;
    CountGrows(s, Miss);
    if !AnswerIgnored(s) {
      CountGrows(s.(userHasAnswered := true), Judge(number, s.previousNumber.value, s.currentNumber.GetOr(0)));
    }
  }

  // ---------------------------------------------------------------------------
  // The game object

  /** `new Game(options)`: the closure's state as fields, its functions as methods. */
  class Game {
    var pending: bool
    var scheduledDelay: int
    var previousNumber: Option<int>
    var currentNumber: Option<int>
    var userHasAnswered: bool
    var inverseSpeed: int
    var events: seq<Entry>

    function State(): GameState
      reads this
    {
      GameState(pending, scheduledDelay, previousNumber, currentNumber, userHasAnswered, inverseSpeed, events)
    }

    ghost predicate Valid()
      reads this
    {
      Inv(State())
    }

    constructor ()
      ensures Valid() && State() == Initial()
    {
      pending, scheduledDelay := false, 0;
      previousNumber, currentNumber := None, None;
      userHasAnswered := false;
      inverseSpeed := 0;
      events := [];
    }

    method Start(startingInverseSpeed: int)
      requires Valid()
      modifies this
      ensures Valid()
      ensures State() == StartStep(old(State()), startingInverseSpeed)
    {
      StartKeepsInv(State(), startingInverseSpeed);
      inverseSpeed := startingInverseSpeed;
      currentNumber, previousNumber := None, None;
      userHasAnswered := false;
      if !pending {
        pending, scheduledDelay := true, FIRST_DELAY;
      }
      events := events + [Speed(inverseSpeed)];
    }

    method Stop()
      requires Valid()
      modifies this
      ensures Valid()
      ensures State() == StopStep(old(State()))
    {
      StopKeepsInv(State());
      pending := false;
    }

    /** `count(result)`; returns what it passes to `onCount`. */
    method Count(v: Verdict) returns (report: Report)
      modifies this
      ensures State() == CountStep(old(State()), v)
      ensures report == Report(v, inverseSpeed)
    {
      var ledger, speed := events + [Result(v)], inverseSpeed;
      var w := Last(ledger, WINDOW);
      if AllFailures(w) {
        speed := speed + STEP;
        ledger := ledger + [Speed(speed)];
      } else if AllRight(w) {
        speed := speed - STEP;
        ledger := ledger + [Speed(speed)];
      }
      events, inverseSpeed := ledger, speed;
      report := Report(v, inverseSpeed);
    }

    /**
      `nextNumber()`, run by the pending timer with the drawn number d; returns the
      number passed to `tellNumber` and what was passed to `onCount`, if anything.
    */
    method NextNumber(d: int, stopOnTell: bool) returns (told: int, report: Option<Report>)
      requires Valid() && pending && d in NUMBERS
      modifies this
      ensures Valid()
      ensures State() == TickStep(old(State()), d, stopOnTell)
      ensures told == d
      ensures report == if MissDue(old(State())) then Some(Report(Miss, inverseSpeed)) else None
    {
      TickKeepsInv(State(), d, stopOnTell);
      report := None;
      if !userHasAnswered && previousNumber.Some? {
        var r := Count(Miss);
        report := Some(r);
      }
      userHasAnswered := false;
      previousNumber := currentNumber;
      currentNumber := Some(d);
      told := d;
      if stopOnTell {
        Stop();
      }
      pending, scheduledDelay := true, inverseSpeed;
    }

    /** `setUserAnswer(number)`; returns what was passed to `onCount`, if anything. */
    method SetUserAnswer(number: int) returns (report: Option<Report>)
      requires Valid()
      modifies this
      ensures Valid()
      ensures State() == AnswerStep(old(State()), number)
      ensures report ==
        if AnswerIgnored(old(State())) then None
        else Some(Report(Judge(number, old(previousNumber).value, old(currentNumber).GetOr(0)), inverseSpeed))
    {
      AnswerKeepsInv(State(), number);
      if previousNumber.None? {
        return None;
      }
      if userHasAnswered {
        return None;
      }
      userHasAnswered := true;
      var r := Count(Judge(number, previousNumber.value, currentNumber.GetOr(0)));
      report := Some(r);
    }

    /** `getEvents()`: the ledger, read at the moment of the call. */
    function GetEvents(): (e: seq<Entry>)
      reads this
      ensures e == State().events
    {
      events
    }
  }
}
