/**
  The numbers task: a timer-driven serial-addition engine. Every tick presents a digit;
  the user answers with the sum of the last two digits; each trial is scored once (right,
  wrong, or miss when the next digit comes first); the inter-stimulus interval (isi) grows
  or shrinks by 100 ms after four failures or four successes in a row; and everything is
  recorded in an append-only ledger.

  The timer is the pair (pending, scheduledDelay): `setTimeout(nextDigit, delay)` sets
  it, `clearTimeout` clears it, and the tick is a method that only the pending timer calls.
*/
module NumbersTask {
  import opened Wrappers
  import opened Trials
  import opened NumbersLedger

  /** The digits a tick draws from. */
  const DIGITS: seq<int> := [1, 2, 3, 4, 5, 6, 7, 8, 9]

  /** How many trailing ledger entries the adaptive rule inspects. */
  const WINDOW: nat := 4

  /** How far one adjustment moves the isi, in ms. */
  const STEP: int := 100

  /** The delay before the first tick when none (or 0) is given. */
  const DEFAULT_DELAY: int := 500

  /** The closure variables of `NumbersTask` as one value. */
  datatype RunState = RunState(
    pending: bool,             // a tick is scheduled (`nextDigitTimeoutId` is set)
    scheduledDelay: int,       // the delay the pending tick was scheduled with
    previousDigit: Option<int>,
    currentDigit: Option<int>,
    userHasAnswered: bool,
    isi: int,
    events: seq<Event>)

  /** The arguments of one `onCount(result, isi)` call. */
  datatype Report = Report(verdict: Verdict, isi: int)

  datatype StartOutcome = Started | AlreadyRunning

  /** A task as constructed: nothing scheduled, no digits, an empty ledger. */
  function Initial(): RunState
  {
    RunState(false, 0, None, None, false, 0, [])
  }

  /** `pushEvent(name)`: record the name with the isi now in effect. */
  function Push(s: RunState, name: Name, now: Time): RunState
  {
    s.(events := s.events + [Event(now, s.isi, name)])
  }

  /** `count(result)`: record the score, then apply the adaptive rule to the last WINDOW entries. */
  function CountStep(s: RunState, v: Verdict, now: Time): RunState
  {
    var s1 := Push(s, Scored(v), now);
    var w := Last(s1.events, WINDOW);
    if AllFailures(w) then Push(s1.(isi := s1.isi + STEP), Slower, now)
    else if AllSuccesses(w) then Push(s1.(isi := s1.isi - STEP), Faster, now)
    else s1
  }

  /** `initialDelay || 500`: an absent or zero delay becomes the default. */
  function FirstDelay(initialDelay: Option<int>): (d: int)
    ensures d == DEFAULT_DELAY <==> initialDelay.None? || initialDelay.value in {0, DEFAULT_DELAY}
    ensures initialDelay.Some? && initialDelay.value != 0 ==> d == initialDelay.value
  {
    if initialDelay.None? || initialDelay.value == 0 then DEFAULT_DELAY else initialDelay.value
  }

  /** `start(startingIsi, initialDelay)`; a pending timer makes it throw, changing nothing. */
  function StartStep(s: RunState, startingIsi: int, initialDelay: Option<int>, now: Time): RunState
  {
    if s.pending then s
    else
      Push(s.(isi := startingIsi, previousDigit := None, currentDigit := None,
              userHasAnswered := false, pending := true, scheduledDelay := FirstDelay(initialDelay)),
           Start, now)
  }

  /** `stop()`. */
  function StopStep(s: RunState, now: Time): RunState
  {
    if !s.pending then s else Push(s.(pending := false), Stop, now)
  }

  /** The open trial closes unanswered on the next tick. */
  predicate MissDue(s: RunState)
  {
    !s.userHasAnswered && s.previousDigit.Some?
  }

  /**
    `nextDigit()` with the drawn digit d. The tick reschedules itself before it calls
    `emitDigit`; `stopOnEmit` says whether that callback calls `stop()`.
  */
  function TickStep(s: RunState, d: int, now: Time, stopOnEmit: bool): RunState
    requires s.pending
  {
    var s1 := if MissDue(s) then CountStep(s, Miss, now) else s;
    var s2 := s1.(userHasAnswered := false, previousDigit := s1.currentDigit, currentDigit := Some(d),
                  pending := true, scheduledDelay := s1.isi);
    if stopOnEmit then StopStep(s2, now) else s2
  }

  /** An answer is ignored before the second digit and once the trial is answered. */
  predicate AnswerIgnored(s: RunState)
  {
    s.previousDigit.None? || s.userHasAnswered
  }

  /** `setUserAnswer(number)`; in `currentDigit + previousDigit` JavaScript reads `null` as 0. */
  function AnswerStep(s: RunState, number: int, now: Time): RunState
  {
    if AnswerIgnored(s) then s
    else CountStep(s.(userHasAnswered := true),
                   Judge(number, s.previousDigit.value, s.currentDigit.GetOr(0)), now)
  }

  // ---------------------------------------------------------------------------
  // The invariant

  predicate IsAdjustment(e: Event) { e.name == Slower || e.name == Faster }

  /**
    An adjustment at index j follows WINDOW scored events of its polarity and records the
    isi one STEP away from the entry before it.
  */
  predicate AdjustedAt(e: seq<Event>, j: nat)
    requires j < |e|
  {
    && (e[j].name == Slower ==>
          j >= WINDOW && AllFailures(e[j - WINDOW..j]) && e[j].isi == e[j - 1].isi + STEP)
    && (e[j].name == Faster ==>
          j >= WINDOW && AllSuccesses(e[j - WINDOW..j]) && e[j].isi == e[j - 1].isi - STEP)
  }

  predicate AdjustmentsFollowStreaks(e: seq<Event>)
  {
    forall j | 0 <= j < |e| :: AdjustedAt(e, j)
  }

  /** The ledger opens with START; its last entry records the isi in effect. */
  predicate LedgerInv(s: RunState)
  {
    && (s.events != [] ==> s.events[0].name == Start && s.events[|s.events| - 1].isi == s.isi)
    && AdjustmentsFollowStreaks(s.events)
  }

  predicate Inv(s: RunState)
  {
    && (s.previousDigit.Some? ==> s.previousDigit.value in DIGITS && s.currentDigit.Some?)
    && (s.currentDigit.Some? ==> s.currentDigit.value in DIGITS)
    && (s.events == [] ==> !s.pending && s.currentDigit.None?)
    && LedgerInv(s)
  }

  lemma {:induction false} AppendKeepsStreaks(e: seq<Event>, x: Event)
    requires AdjustmentsFollowStreaks(e)
    requires AdjustedAt(e + [x], |e|)
    ensures AdjustmentsFollowStreaks(e + [x])
  {
    var e' := e + [x];
    forall j | 0 <= j < |e'| ensures AdjustedAt(e', j) {
      if j < |e| {
        assert AdjustedAt(e, j);
        assert e'[j] == e[j];
        if j >= WINDOW {
          assert e'[j - WINDOW..j] == e[j - WINDOW..j];
          assert e'[j - 1] == e[j - 1];
        }
      }
    }
  }

  /** An adjustment appended after a full window of its polarity keeps the ledger invariant. */
  lemma {:induction false} AdjustKeepsStreaks(e1: seq<Event>, x: Event)
    requires AdjustmentsFollowStreaks(e1) && |e1| >= WINDOW
    requires x.name == Slower ==> AllFailures(Last(e1, WINDOW)) && x.isi == e1[|e1| - 1].isi + STEP
    requires x.name == Faster ==> AllSuccesses(Last(e1, WINDOW)) && x.isi == e1[|e1| - 1].isi - STEP
    ensures AdjustmentsFollowStreaks(e1 + [x])
  {
    assert (e1 + [x])[|e1| - WINDOW..|e1|] == Last(e1, WINDOW);
    assert (e1 + [x])[|e1| - 1] == e1[|e1| - 1];
    AppendKeepsStreaks(e1, x);
  }

  /** A ledger that `count` may leave behind keeps the ledger invariant. */
  lemma {:induction false} ScoredLedgerInv(s: RunState, v: Verdict, now: Time, r: RunState)
    requires LedgerInv(s) && s.events != []
    requires var scored := s.events + [Event(now, s.isi, Scored(v))];
      && (SlowerDue(s.events, v) ==>
            r.isi == s.isi + STEP && r.events == scored + [Event(now, s.isi + STEP, Slower)])
      && (!SlowerDue(s.events, v) && FasterDue(s.events, v) ==>
            r.isi == s.isi - STEP && r.events == scored + [Event(now, s.isi - STEP, Faster)])
      && (!SlowerDue(s.events, v) && !FasterDue(s.events, v) ==>
            r.isi == s.isi && r.events == scored)
    ensures LedgerInv(r) && r.events != []
  {
    var x := Event(now, s.isi, Scored(v));
    var e1 := s.events + [x];
    AppendKeepsStreaks(s.events, x);
    WindowDecides(s.events, x, v);
    if SlowerDue(s.events, v) {
      AdjustKeepsStreaks(e1, Event(now, s.isi + STEP, Slower));
    } else if FasterDue(s.events, v) {
      AdjustKeepsStreaks(e1, Event(now, s.isi - STEP, Faster));
    }
  }

  /** Scoring keeps the ledger invariant: an adjustment is only ever appended after a full window. */
  lemma {:induction false} CountKeepsLedger(s: RunState, v: Verdict, now: Time)
    requires LedgerInv(s) && s.events != []
    ensures LedgerInv(CountStep(s, v, now))
    ensures CountStep(s, v, now).events != []
  {
    CountOutcomes(s, v, now);
    ScoredLedgerInv(s, v, now, CountStep(s, v, now));
  }

  lemma InitialInv()
    ensures Inv(Initial())
  {
  }

  lemma {:induction false} StartKeepsInv(s: RunState, startingIsi: int, initialDelay: Option<int>, now: Time)
    requires Inv(s)
    ensures Inv(StartStep(s, startingIsi, initialDelay, now))
  {
    if !s.pending {
      var x := Event(now, startingIsi, Start);
      AppendKeepsStreaks(s.events, x);
    }
  }

  lemma {:induction false} StopKeepsInv(s: RunState, now: Time)
    requires Inv(s)
    ensures Inv(StopStep(s, now))
  {
    if s.pending {
      AppendKeepsStreaks(s.events, Event(now, s.isi, Stop));
    }
  }

  lemma {:induction false} TickKeepsInv(s: RunState, d: int, now: Time, stopOnEmit: bool)
    requires Inv(s) && s.pending && d in DIGITS
    ensures Inv(TickStep(s, d, now, stopOnEmit))
  {
    if MissDue(s) {
      CountKeepsLedger(s, Miss, now);
    }
    var s1 := if MissDue(s) then CountStep(s, Miss, now) else s;
    var s2 := s1.(userHasAnswered := false, previousDigit := s1.currentDigit, currentDigit := Some(d),
                  pending := true, scheduledDelay := s1.isi);
    assert Inv(s2);
    if stopOnEmit {
      StopKeepsInv(s2, now);
    }
  }

  lemma {:induction false} AnswerKeepsInv(s: RunState, number: int, now: Time)
    requires Inv(s)
    ensures Inv(AnswerStep(s, number, now))
  {
    if !AnswerIgnored(s) {
      var v := Judge(number, s.previousDigit.value, s.currentDigit.GetOr(0));
      CountKeepsLedger(s.(userHasAnswered := true), v, now);
    }
  }

  // ---------------------------------------------------------------------------
  // The adaptive rule

  /** The three entries before a failure are failures too: a `slower` is due. */
  predicate SlowerDue(e: seq<Event>, v: Verdict)
  {
    v != Right && |e| >= WINDOW - 1 && AllFailures(e[|e| - (WINDOW - 1)..])
  }

  /** The three entries before a success are successes too: a `faster` is due. */
  predicate FasterDue(e: seq<Event>, v: Verdict)
  {
    v == Right && |e| >= WINDOW - 1 && AllSuccesses(e[|e| - (WINDOW - 1)..])
  }

  /** The window after a score is all failures, or all successes, exactly when that adjustment is due. */
  lemma {:induction false} WindowDecides(e: seq<Event>, x: Event, v: Verdict)
    requires e != [] && e[0].name == Start && x.name == Scored(v)
    ensures AllFailures(Last(e + [x], WINDOW)) <==> SlowerDue(e, v)
    ensures AllSuccesses(Last(e + [x], WINDOW)) <==> FasterDue(e, v)
  {
    var e1 := e + [x];
    var w := Last(e1, WINDOW);
    if |e1| < WINDOW {
      assert w == e1 && !IsFailure(w[0]) && !IsSuccess(w[0]);
    } else {
      var tail := e[|e| - (WINDOW - 1)..];
      assert w == tail + [x];
      if AllFailures(w) {
        forall i | 0 <= i < |tail| ensures IsFailure(tail[i]) { assert tail[i] == w[i]; }
        assert IsFailure(w[WINDOW - 1]);
      }
      if SlowerDue(e, v) {
        forall i | 0 <= i < |w| ensures IsFailure(w[i]) {
          if i < |tail| { assert w[i] == tail[i]; }
        }
      }
      if AllSuccesses(w) {
        forall i | 0 <= i < |tail| ensures IsSuccess(tail[i]) { assert tail[i] == w[i]; }
        assert IsSuccess(w[WINDOW - 1]);
      }
      if FasterDue(e, v) {
        forall i | 0 <= i < |w| ensures IsSuccess(w[i]) {
          if i < |tail| { assert w[i] == tail[i]; }
        }
      }
    }
  }

  /**
    `count` records the score with the isi in effect, then: after four failures in a row
    the isi rises by STEP and a `slower` entry with the new isi follows; after four
    successes in a row it falls by STEP and a `faster` entry follows; otherwise nothing
    else changes. The two never both happen.
  */
  lemma {:induction false} CountOutcomes(s: RunState, v: Verdict, now: Time)
    requires s.events != [] && s.events[0].name == Start
    ensures !(SlowerDue(s.events, v) && FasterDue(s.events, v))
    ensures var r, scored := CountStep(s, v, now), s.events + [Event(now, s.isi, Scored(v))];
      && (SlowerDue(s.events, v) ==>
            r.isi == s.isi + STEP && r.events == scored + [Event(now, s.isi + STEP, Slower)])
      && (FasterDue(s.events, v) ==>
            r.isi == s.isi - STEP && r.events == scored + [Event(now, s.isi - STEP, Faster)])
      && (!SlowerDue(s.events, v) && !FasterDue(s.events, v) ==>
            r.isi == s.isi && r.events == scored)
      && r.previousDigit == s.previousDigit && r.currentDigit == s.currentDigit
      && r.userHasAnswered == s.userHasAnswered && r.pending == s.pending
  {
    WindowDecides(s.events, Event(now, s.isi, Scored(v)), v);
  }

  /**
    The window counts ledger entries of any kind: a START, STOP, `slower` or `faster`
    among the last three entries blocks any adjustment by the next score.
  */
  lemma {:induction false} UnscoredEntryBlocksAdjustment(s: RunState, v: Verdict, now: Time, i: nat)
    requires |s.events| - (WINDOW - 1) <= i < |s.events| && !IsScored(s.events[i])
    ensures CountStep(s, v, now).isi == s.isi
    ensures CountStep(s, v, now).events == s.events + [Event(now, s.isi, Scored(v))]
  {
    var e1 := s.events + [Event(now, s.isi, Scored(v))];
    assert e1[i] == s.events[i];
    var w := Last(e1, WINDOW);
    var k := i - (|e1| - |w|);
    assert w[k] == e1[i];
    assert !AllFailures(w) && !AllSuccesses(w) by {
      assert !IsFailure(w[k]) && !IsSuccess(w[k]);
    }
  }

  /**
    In any ledger the engine keeps, an adjustment is preceded by WINDOW scored entries of
    its polarity, so two adjustments lie more than WINDOW entries apart: after one, at
    least WINDOW further scores are needed before the next.
  */
  lemma {:induction false} AdjustmentsSpaced(e: seq<Event>, i: nat, j: nat)
    requires AdjustmentsFollowStreaks(e)
    requires i < j < |e| && IsAdjustment(e[i]) && IsAdjustment(e[j])
    ensures j - i > WINDOW
    ensures forall k | j - WINDOW <= k < j :: IsScored(e[k])
  {
    assert AdjustedAt(e, j);
    var w := e[j - WINDOW..j];
    forall k | j - WINDOW <= k < j ensures IsScored(e[k]) {
      var m := k - (j - WINDOW);
      assert w[m] == e[k];
      if e[j].name == Slower {
        assert IsFailure(w[m]);
      } else {
        assert IsSuccess(w[m]);
      }
    }
  }

  /** `count` applied to each result of vs in turn, all at time now. */
  function Counts(s: RunState, vs: seq<Verdict>, now: Time): RunState
    decreases |vs|
  {
    if vs == [] then s else Counts(CountStep(s, vs[0], now), vs[1..], now)
  }

  /** The ledger entries of a run of scores at one isi, with no adjustment among them. */
  function Scores(vs: seq<Verdict>, now: Time, isi: int): (r: seq<Event>)
    ensures |r| == |vs|
  {
    if vs == [] then [] else [Event(now, isi, Scored(vs[0]))] + Scores(vs[1..], now, isi)
  }

  lemma {:induction false} CountsSplit(s: RunState, us: seq<Verdict>, vs: seq<Verdict>, now: Time)
    ensures Counts(s, us + vs, now) == Counts(Counts(s, us, now), vs, now)
    decreases |us|
  {
    if us == [] {
      assert us + vs == vs;
    } else {
      assert (us + vs)[0] == us[0] && (us + vs)[1..] == us[1..] + vs;
      CountsSplit(CountStep(s, us[0], now), us[1..], vs, now);
    }
  }

  lemma {:induction false} ScoresAppend(vs: seq<Verdict>, v: Verdict, now: Time, isi: int)
    ensures Scores(vs + [v], now, isi) == Scores(vs, now, isi) + [Event(now, isi, Scored(v))]
    decreases |vs|
  {
    if vs == [] {
      assert [v][1..] == [];
    } else {
      assert (vs + [v])[1..] == vs[1..] + [v];
      ScoresAppend(vs[1..], v, now, isi);
    }
  }

  lemma {:induction false} FailuresScored(vs: seq<Verdict>, now: Time, isi: int)
    requires Right !in vs
    ensures AllFailures(Scores(vs, now, isi))
    decreases |vs|
  {
    if vs != [] {
      FailuresScored(vs[1..], now, isi);
      var r := Scores(vs, now, isi);
      forall i | 0 <= i < |r| ensures IsFailure(r[i]) {
        if i > 0 {
          assert r[i] == Scores(vs[1..], now, isi)[i - 1];
        } else {
          assert vs[0] in vs && r[0].name == Scored(vs[0]);
          assert vs[0] == Wrong || vs[0] == Miss;
        }
      }
    }
  }

  /** Right after an unscored entry, up to three scores are recorded without adjustment. */
  lemma {:induction false} NoAdjustmentAfterUnscored(s: RunState, vs: seq<Verdict>, now: Time, i: nat)
    requires i < |s.events| && !IsScored(s.events[i])
    requires |s.events| - i + |vs| <= WINDOW
    ensures Counts(s, vs, now) == s.(events := s.events + Scores(vs, now, s.isi))
    decreases |vs|
  {
    if vs == [] {
      assert s.events + Scores(vs, now, s.isi) == s.events;
    } else {
      var s1 := s.(events := s.events + [Event(now, s.isi, Scored(vs[0]))]);
      UnadjustedCount(s, vs, now, i);
      assert s1.events[i] == s.events[i];
      NoAdjustmentAfterUnscored(s1, vs[1..], now, i);
      ScoresCons(s.events, vs, now, s.isi);
    }
  }

  lemma ScoresCons(e: seq<Event>, vs: seq<Verdict>, now: Time, isi: int)
    requires vs != []
    ensures e + Scores(vs, now, isi) == (e + [Event(now, isi, Scored(vs[0]))]) + Scores(vs[1..], now, isi)
  {
    assert Scores(vs, now, isi) == [Event(now, isi, Scored(vs[0]))] + Scores(vs[1..], now, isi);
  }

  lemma UnadjustedCount(s: RunState, vs: seq<Verdict>, now: Time, i: nat)
    requires vs != [] && |s.events| - (WINDOW - 1) <= i < |s.events| && !IsScored(s.events[i])
    ensures Counts(s, vs, now) == Counts(s.(events := s.events + [Event(now, s.isi, Scored(vs[0]))]), vs[1..], now)
  {
    UnscoredEntryBlocksAdjustment(s, vs[0], now, i);
  }

  /** A score that completes a window of failures raises the isi by STEP and records `slower`. */
  lemma SlowDownCount(s: RunState, v: Verdict, now: Time)
    requires AllFailures(Last(s.events + [Event(now, s.isi, Scored(v))], WINDOW))
    ensures CountStep(s, v, now) ==
      s.(isi := s.isi + STEP,
         events := s.events + [Event(now, s.isi, Scored(v)), Event(now, s.isi + STEP, Slower)])
  {
    var x, y := Event(now, s.isi, Scored(v)), Event(now, s.isi + STEP, Slower);
    assert s.events + [x, y] == s.events + [x] + [y];
  }

  /** The same, as a run of one score. */
  lemma SlowDownStep(s: RunState, v: Verdict, now: Time)
    requires AllFailures(Last(s.events + [Event(now, s.isi, Scored(v))], WINDOW))
    ensures Counts(s, [v], now) ==
      s.(isi := s.isi + STEP,
         events := s.events + [Event(now, s.isi, Scored(v)), Event(now, s.isi + STEP, Slower)])
  {
    CountsOne(s, v, now);
    SlowDownCount(s, v, now);
  }

  lemma CountsOne(s: RunState, v: Verdict, now: Time)
    ensures Counts(s, [v], now) == CountStep(s, v, now)
  {
    assert [v][1..] == [];
  }

  /** Three failures and a fourth fill the window with failures. */
  lemma FourFailuresWindow(e: seq<Event>, three: seq<Verdict>, fourth: Verdict, now: Time, isi: int)
    requires |three| == WINDOW - 1 && Right !in three + [fourth]
    ensures var e4 := e + Scores(three, now, isi) + [Event(now, isi, Scored(fourth))];
      && e4 == e + Scores(three + [fourth], now, isi)
      && AllFailures(Last(e4, WINDOW))
  {
    ScoresAppend(three, fourth, now, isi);
    var e4 := e + Scores(three, now, isi) + [Event(now, isi, Scored(fourth))];
    assert e4 == e + Scores(three + [fourth], now, isi);
    FailuresScored(three + [fourth], now, isi);
    assert Last(e4, WINDOW) == Scores(three + [fourth], now, isi);
  }

  /**
    With a four-entry window, the first slow-down after an unscored entry (a START, say)
    comes with the fourth failure in a row: three failures change nothing, the fourth
    raises the isi. The older engine needs a fifth (`LegacyGame.FifthFailureSlowsDown`).
  */
  lemma {:induction false} FourthFailureSlowsDown(s: RunState, three: seq<Verdict>, fourth: Verdict, now: Time)
    requires s.events != [] && !IsScored(s.events[|s.events| - 1])
    requires |three| == WINDOW - 1 && Right !in three + [fourth]
    ensures Counts(s, three, now) == s.(events := s.events + Scores(three, now, s.isi))
    ensures Counts(s, three + [fourth], now) ==
      s.(isi := s.isi + STEP,
         events := s.events + Scores(three + [fourth], now, s.isi) + [Event(now, s.isi + STEP, Slower)])
  {
    var n := |s.events|;
    NoAdjustmentAfterUnscored(s, three, now, n - 1);
    CountsSplit(s, three, [fourth], now);
    var s3 := s.(events := s.events + Scores(three, now, s.isi));
    FourFailuresWindow(s.events, three, fourth, now, s.isi);
    SlowDownStep(s3, fourth, now);
  }

  // ---------------------------------------------------------------------------
  // The run, step by step

  /** `start` is rejected while a tick is pending; otherwise it appends exactly one START with the new isi. */
  lemma StartOutcomes(s: RunState, startingIsi: int, initialDelay: Option<int>, now: Time)
    ensures var r := StartStep(s, startingIsi, initialDelay, now);
      && (s.pending ==> r == s)
      && (!s.pending ==>
            r.events == s.events + [Event(now, startingIsi, Start)] && r.isi == startingIsi &&
            r.pending && r.scheduledDelay == FirstDelay(initialDelay) &&
            r.previousDigit.None? && r.currentDigit.None? && !r.userHasAnswered)
  {
  }

  /**
    `stop` when idle changes nothing; while running it clears the timer and appends one
    STOP with the isi in effect, and nothing else changes. So stopping twice records a
    single STOP.
  */
  lemma {:induction false} StopOnce(s: RunState, t1: Time, t2: Time)
    ensures !s.pending ==> StopStep(s, t1) == s
    ensures s.pending ==> StopStep(s, t1) == s.(pending := false, events := s.events + [Event(t1, s.isi, Stop)])
    ensures StopStep(StopStep(s, t1), t2) == StopStep(s, t1)
    ensures !StopStep(s, t1).pending
    ensures CountOf(StopStep(s, t1).events, Stop) == CountOf(s.events, Stop) + (if s.pending then 1 else 0)
  {
    var r := StopStep(s, t1);
    if s.pending {
      assert r.events[..|r.events| - 1] == s.events;
    }
  }

  /**
    A tick scores MISS exactly when a previous digit exists and the open trial is
    unanswered, recording it with the isi in effect; it then shifts the digits, opens a new
    unanswered trial and reschedules itself with the isi as `count` left it.
  */
  lemma {:induction false} TickOutcomes(s: RunState, d: int, now: Time)
    requires s.pending && s.events != [] && s.events[0].name == Start
    ensures var r := TickStep(s, d, now, false);
      && (|r.events| > |s.events| <==> MissDue(s))
      && (MissDue(s) ==> r.events[|s.events|] == Event(now, s.isi, Scored(Miss)))
      && (MissDue(s) ==> r.events == CountStep(s, Miss, now).events && r.isi == CountStep(s, Miss, now).isi)
      && (!MissDue(s) ==> r.events == s.events && r.isi == s.isi)
      && s.events <= r.events
      && r.pending && r.scheduledDelay == r.isi
      && r.previousDigit == s.currentDigit && r.currentDigit == Some(d) && !r.userHasAnswered
  {
    if MissDue(s) {
      CountOutcomes(s, Miss, now);
    }
  }

  /** A `stop()` issued from `emitDigit` wins: the tick had already rescheduled, so the timer is cleared. */
  lemma StopDuringEmit(s: RunState, d: int, now: Time)
    requires s.pending
    ensures var r := TickStep(s, d, now, true);
      && !r.pending
      && r.events == TickStep(s, d, now, false).events + [Event(now, r.isi, Stop)]
  {
  }

  /**
    An answer is ignored with no previous digit or once the trial is answered; otherwise
    it is scored RIGHT exactly when it is the sum of the two digits, and WRONG otherwise.
    A scored answer keeps the digits and the timer; the ledger and the isi are those
    `count` leaves for that score.
  */
  lemma {:induction false} AnswerOutcomes(s: RunState, number: int, now: Time)
    requires s.events != [] && s.events[0].name == Start
    ensures var r := AnswerStep(s, number, now);
      && (AnswerIgnored(s) <==> r == s)
      && (!AnswerIgnored(s) ==>
            var v := if number == s.previousDigit.value + s.currentDigit.GetOr(0) then Right else Wrong;
            && r.userHasAnswered && s.events <= r.events && |r.events| > |s.events|
            && r.events[|s.events|] == Event(now, s.isi, Scored(v))
            && r.previousDigit == s.previousDigit && r.currentDigit == s.currentDigit
            && r.pending == s.pending && r.scheduledDelay == s.scheduledDelay
            && r.events == CountStep(s, v, now).events && r.isi == CountStep(s, v, now).isi)
  {
    if !AnswerIgnored(s) {
      var v := Judge(number, s.previousDigit.value, s.currentDigit.GetOr(0));
      CountOutcomes(s.(userHasAnswered := true), v, now);
    }
  }

  /**
    A trial is scored at most once: after an answer is scored, further answers are
    ignored and the next tick does not score a miss for it.
  */
  lemma {:induction false} TrialScoredOnce(s: RunState, a: int, b: int, d: int, now: Time)
    requires s.pending && s.events != [] && s.events[0].name == Start && !AnswerIgnored(s)
    ensures var s1 := AnswerStep(s, a, now);
      && |s1.events| > |s.events|
      && AnswerStep(s1, b, now) == s1
      && TickStep(s1, d, now, false).events == s1.events
  {
    AnswerOutcomes(s, a, now);
    var s1 := AnswerStep(s, a, now);
    TickOutcomes(s1, d, now);
  }

  /** After `start`, answers before the second digit are ignored and the first two ticks score nothing. */
  lemma {:induction false} FirstTwoTicksNeverScore(s: RunState, isi: int, delay: Option<int>, t: Time, d1: int, d2: int, a: int)
    requires !s.pending
    ensures var s0 := StartStep(s, isi, delay, t);
      var s1 := TickStep(s0, d1, t, false);
      var s2 := TickStep(s1, d2, t, false);
      && AnswerStep(s1, a, t) == s1
      && s2.events == s0.events
      && s2.previousDigit == Some(d1) && s2.currentDigit == Some(d2) && MissDue(s2)
  {
  }

  /** A tick with no trial to score only shifts the digits and reschedules. */
  lemma QuietTick(s: RunState, d: int, t: Time)
    requires s.pending && !MissDue(s)
    ensures TickStep(s, d, t, false) ==
      s.(previousDigit := s.currentDigit, currentDigit := Some(d), userHasAnswered := false, scheduledDelay := s.isi)
  {
  }

  /** A tick that scores a miss while an unscored entry is in the window: no adjustment follows. */
  lemma MissTick(s: RunState, d: int, t: Time, i: nat)
    requires s.pending && MissDue(s)
    requires |s.events| - (WINDOW - 1) <= i < |s.events| && !IsScored(s.events[i])
    ensures TickStep(s, d, t, false) ==
      s.(events := s.events + [Event(t, s.isi, Scored(Miss))],
         previousDigit := s.currentDigit, currentDigit := Some(d), userHasAnswered := false, scheduledDelay := s.isi)
  {
    UnscoredEntryBlocksAdjustment(s, Miss, t, i);
  }

  /** `start` and two ticks: the first trial is open, nothing is scored yet. */
  lemma TwoQuietTicks(s: RunState, isi: int, delay: Option<int>, t: Time, d1: int, d2: int)
    requires !s.pending
    ensures TickStep(TickStep(StartStep(s, isi, delay, t), d1, t, false), d2, t, false) ==
      RunState(true, isi, Some(d1), Some(d2), false, isi, s.events + [Event(t, isi, Start)])
  {
    var s0 := StartStep(s, isi, delay, t);
    QuietTick(s0, d1, t);
    QuietTick(TickStep(s0, d1, t, false), d2, t);
  }

  /** Three unanswered ticks after a START: three MISSes and no adjustment, then `stop()` from the callback. */
  lemma ThreeMissesThenStop(s2: RunState, d: int, t: Time, n: nat)
    requires s2.pending && MissDue(s2) && n < |s2.events| && s2.events[n] == Event(t, s2.isi, Start)
    requires n == |s2.events| - 1 && s2.currentDigit.Some?
    ensures var s5 := TickStep(TickStep(TickStep(s2, d, t, false), d, t, false), d, t, true);
      && s5.events == s2.events + [Event(t, s2.isi, Scored(Miss)), Event(t, s2.isi, Scored(Miss)),
                                   Event(t, s2.isi, Scored(Miss)), Event(t, s2.isi, Stop)]
      && !s5.pending
  {
    var miss := Event(t, s2.isi, Scored(Miss));
    MissTick(s2, d, t, n);
    var s3 := TickStep(s2, d, t, false);
    assert s3.events == s2.events + [miss] && s3.isi == s2.isi;
    MissTick(s3, d, t, n);
    var s4 := TickStep(s3, d, t, false);
    assert s4.events == s2.events + [miss, miss] && s4.isi == s2.isi;
    MissTick(s4, d, t, n);
    assert TickStep(s4, d, t, false).events == s2.events + [miss, miss, miss];
  }

  lemma AppendSession(e: seq<Event>, start: Event, miss: Event, stop: Event)
    ensures (e + [start]) + [miss, miss, miss, stop] == e + [start, miss, miss, miss, stop]
  {
    assert [start] + [miss, miss, miss, stop] == [start, miss, miss, miss, stop];
  }

  /**
    Scenario: after `start`, five unanswered ticks, the fifth calling `stop()` from
    `emitDigit`, the run records START, three MISSes and STOP, and nothing is pending.
  */
  lemma {:induction false} FiveUnansweredTicksThenStop(s: RunState, isi: int, delay: Option<int>, t: Time, d: int)
    requires !s.pending
    ensures var s2 := TickStep(TickStep(StartStep(s, isi, delay, t), d, t, false), d, t, false);
      var s5 := TickStep(TickStep(TickStep(s2, d, t, false), d, t, false), d, t, true);
      && s5.events == s.events + [Event(t, isi, Start), Event(t, isi, Scored(Miss)), Event(t, isi, Scored(Miss)),
                                  Event(t, isi, Scored(Miss)), Event(t, isi, Stop)]
      && !s5.pending
  {
    var n := |s.events|;
    var start, miss, stop := Event(t, isi, Start), Event(t, isi, Scored(Miss)), Event(t, isi, Stop);
    TwoQuietTicks(s, isi, delay, t, d, d);
    var s2 := RunState(true, isi, Some(d), Some(d), false, isi, s.events + [start]);
    ThreeMissesThenStop(s2, d, t, n);
    var s5 := TickStep(TickStep(TickStep(s2, d, t, false), d, t, false), d, t, true);
    AppendSession(s.events, start, miss, stop);
    assert s5.events == s.events + [start, miss, miss, miss, stop];
  }

  /** The ledger of a session, an answer scored after its STOP, and a second session. */
  function BrokenLedger(t: Time, isi: int, v: Verdict): seq<Event>
  {
    [Event(t, isi, Start), Event(t, isi, Stop), Event(t, isi, Scored(v)),
     Event(t, isi, Start), Event(t, isi, Stop)]
  }

  /** Its second session opens with the score, so the aggregate table's assertion fails. */
  lemma BrokenLedgerAggregate(t: Time, isi: int, v: Verdict, fmt: Time -> string)
    ensures AggregateTable(BrokenLedger(t, isi, v), fmt) == MalformedSession(Scored(v))
  {
    var e := BrokenLedger(t, isi, v);
    var first, second := e[..2], e[2..];
    assert Flatten([first, second]) == e by {
      assert [first, second][..1] == [first];
      var none: seq<seq<Event>> := [];
      assert [first][..0] == none;
      assert Flatten([first]) == first;
      assert first + second == e;
    }
    SessionsUnique(e, [first, second], []);
    TabulateStep([first], second, fmt);
    var none: seq<seq<Event>> := [];
    assert [first][..0] == none;
    TabulateStep(none, first, fmt);
    assert [first] + [second] == [first, second];
  }

  /** An answer after `stop` in an open trial is scored after the STOP, with no adjustment. */
  lemma AnswerAfterStop(isi: int, d1: int, d2: int, a: int, t: Time)
    ensures var s1 := RunState(true, isi, Some(d1), Some(d2), false, isi, [Event(t, isi, Start)]);
      var s2 := AnswerStep(StopStep(s1, t), a, t);
      && s2.events == [Event(t, isi, Start), Event(t, isi, Stop), Event(t, isi, Scored(Judge(a, d1, d2)))]
      && !s2.pending && s2.isi == isi
  {
    var s1 := RunState(true, isi, Some(d1), Some(d2), false, isi, [Event(t, isi, Start)]);
    var st := StopStep(s1, t);
    assert st.events == [Event(t, isi, Start), Event(t, isi, Stop)];
    UnscoredEntryBlocksAdjustment(st.(userHasAnswered := true), Judge(a, d1, d2), t, 1);
  }

  /** Starting and stopping again after that answer gives the broken ledger. */
  lemma RestartAfterAnswer(s2: RunState, isi: int, t: Time, v: Verdict)
    requires s2.events == [Event(t, isi, Start), Event(t, isi, Stop), Event(t, isi, Scored(v))]
    requires !s2.pending && s2.isi == isi
    ensures StopStep(StartStep(s2, isi, None, t), t).events == BrokenLedger(t, isi, v)
  {
  }

  /**
    `stop` keeps the digits and the answered flag, so an answer after `stop` is still
    scored, after the STOP. If the task is then started and stopped again, the second
    session opens with that score instead of START and the aggregate table's assertion fails.
  */
  lemma {:induction false} AnswerAfterStopBreaksAggregate(isi: int, d1: int, d2: int, a: int, t: Time, fmt: Time -> string)
    ensures var s1 := TickStep(TickStep(StartStep(Initial(), isi, None, t), d1, t, false), d2, t, false);
      var s2 := AnswerStep(StopStep(s1, t), a, t);
      var s3 := StopStep(StartStep(s2, isi, None, t), t);
      && s2.events == [Event(t, isi, Start), Event(t, isi, Stop), Event(t, isi, Scored(Judge(a, d1, d2)))]
      && AggregateTable(s3.events, fmt) == MalformedSession(Scored(Judge(a, d1, d2)))
  {
    var v := Judge(a, d1, d2);
    TwoQuietTicks(Initial(), isi, None, t, d1, d2);
    assert Initial().events + [Event(t, isi, Start)] == [Event(t, isi, Start)];
    AnswerAfterStop(isi, d1, d2, a, t);
    var s1 := RunState(true, isi, Some(d1), Some(d2), false, isi, [Event(t, isi, Start)]);
    var s2 := AnswerStep(StopStep(s1, t), a, t);
    RestartAfterAnswer(s2, isi, t, v);
    BrokenLedgerAggregate(t, isi, v, fmt);
  }

  /** Every step only appends to the ledger. */
  lemma {:induction false} LedgerOnlyGrows(s: RunState, isi: int, delay: Option<int>, d: int, number: int,
                                           stopOnEmit: bool, now: Time)
    ensures s.events <= StartStep(s, isi, delay, now).events
    ensures s.events <= StopStep(s, now).events
    ensures s.pending ==> s.events <= TickStep(s, d, now, stopOnEmit).events
    ensures s.events <= AnswerStep(s, number, now).events
  {
    assert forall v :: s.events <= CountStep(s, v, now).events;
    assert forall v :: s.events <= CountStep(s.(userHasAnswered := true), v, now).events;
  }

  // ---------------------------------------------------------------------------
  // The task object

  /** `new NumbersTask(options)`: the closure's state as fields, its functions as methods. */
  class Task {
    var pending: bool
    var scheduledDelay: int
    var previousDigit: Option<int>
    var currentDigit: Option<int>
    var userHasAnswered: bool
    var isi: int
    var events: seq<Event>

    function State(): RunState
      reads this
    {
      RunState(pending, scheduledDelay, previousDigit, currentDigit, userHasAnswered, isi, events)
    }

    ghost predicate Valid()
      reads this
    {
      Inv(State())
    }

    constructor ()
      ensures Valid() && State() == Initial()
    {
      pending, scheduledDelay := false, 0;
      previousDigit, currentDigit := None, None;
      userHasAnswered := false;
      isi := 0;
      events := [];
    }

    method PushEvent(name: Name, now: Time)
      modifies this
      ensures State() == Push(old(State()), name, now)
    {
      events := events + [Event(now, isi, name)];
    }

    method Start(startingIsi: int, initialDelay: Option<int>, now: Time) returns (outcome: StartOutcome)
      requires Valid()
      modifies this
      ensures Valid()
      ensures outcome == if old(pending) then AlreadyRunning else Started
      ensures State() == StartStep(old(State()), startingIsi, initialDelay, now)
    {
      if pending {
        return AlreadyRunning;
      }
      StartKeepsInv(State(), startingIsi, initialDelay, now);
      isi := startingIsi;
      currentDigit, previousDigit := None, None;
      userHasAnswered := false;
      pending, scheduledDelay := true, FirstDelay(initialDelay);
      PushEvent(Name.Start, now);
      outcome := Started;
    }

    method Stop(now: Time)
      requires Valid()
      modifies this
      ensures Valid()
      ensures State() == StopStep(old(State()), now)
    {
      if !pending {
        return;
      }
      StopKeepsInv(State(), now);
      pending := false;
      PushEvent(Name.Stop, now);
    }

    /** `count(result)`; returns what it passes to `onCount`. */
    method Count(v: Verdict, now: Time) returns (report: Report)
      modifies this
      ensures State() == CountStep(old(State()), v, now)
      ensures report == Report(v, isi)
    {
      PushEvent(Scored(v), now);
      if AllFailures(Last(events, WINDOW)) {
        isi := isi + STEP;
        PushEvent(Slower, now);
      } else if AllSuccesses(Last(events, WINDOW)) {
        isi := isi - STEP;
        PushEvent(Faster, now);
      }
      report := Report(v, isi);
    }

    /**
      `nextDigit()`, run by the pending timer with the drawn digit d; returns the digit
      passed to `emitDigit` and what was passed to `onCount`, if anything.
    */
    method NextDigit(d: int, now: Time, stopOnEmit: bool) returns (emitted: int, report: Option<Report>)
      requires Valid() && pending && d in DIGITS
      modifies this
      ensures Valid()
      ensures State() == TickStep(old(State()), d, now, stopOnEmit)
      ensures emitted == d
      ensures report == if MissDue(old(State())) then Some(Report(Miss, isi)) else None
    {
      TickKeepsInv(State(), d, now, stopOnEmit);
      TickKeepsInv(State(), d, now, false);
      report := None;
      if !userHasAnswered && previousDigit.Some? {
        var r := Count(Miss, now);
        report := Some(r);
      }
      userHasAnswered := false;
      previousDigit := currentDigit;
      currentDigit := Some(d);
      pending, scheduledDelay := true, isi;
      emitted := d;
      if stopOnEmit {
        Stop(now);
      }
    }

    /** `setUserAnswer(number)`; returns what was passed to `onCount`, if anything. */
    method SetUserAnswer(number: int, now: Time) returns (report: Option<Report>)
      requires Valid()
      modifies this
      ensures Valid()
      ensures State() == AnswerStep(old(State()), number, now)
      ensures report == if AnswerIgnored(old(State())) then None
        else Some(Report(Judge(number, old(previousDigit).value, old(currentDigit).GetOr(0)), isi))
    {
      AnswerKeepsInv(State(), number, now);
      if previousDigit.None? {
        return None;
      }
      if userHasAnswered {
        return None;
      }
      userHasAnswered := true;
      var r := Count(Judge(number, previousDigit.value, currentDigit.GetOr(0)), now);
      report := Some(r);
    }

    /** `getEvents()`: a copy of the ledger. */
    method GetEvents() returns (es: seq<Event>)
      ensures es == events
    {
      es := events;
    }

    /** `getEventsTable(formatTimestamp)`, without its header row. */
    function GetEventsTable(fmt: Time -> string): (rows: seq<EventRow>)
      reads this
      ensures |rows| == |events|
      ensures forall i | 0 <= i < |events| ::
        rows[i] == EventRow(fmt(events[i].timestamp), events[i].isi, events[i].name)
    {
      EventsTable(events, fmt)
    }

    /**
      `getAggregateEventsTable(formatTimestamp)`, without its header row: walks the ledger,
      cutting a session at every STOP and checking that it opens with START.
    */
    method GetAggregateEventsTable(fmt: Time -> string) returns (table: Aggregate)
      ensures table == AggregateTable(events, fmt)
    {
      var ledger := events;
      var rows: seq<SessionRow> := [];
      var lastStart := 0;
      var i := 0;
      ScanStart(ledger, fmt);
      while i < |ledger|
        invariant Scanned(ledger, lastStart, i, rows, fmt)
      {
        if ledger[i].name == Name.Stop {
          var sessionEvents := ledger[lastStart..i + 1];
          if sessionEvents[0].name != Name.Start {
            MalformedStop(ledger, lastStart, i, rows, fmt);
            return MalformedSession(sessionEvents[0].name);
          }
          ClosingStop(ledger, lastStart, i, rows, fmt);
          rows := rows + [Summary(sessionEvents, fmt)];
          lastStart := i + 1;
        } else {
          OpenEvent(ledger, lastStart, i, rows, fmt);
        }
        i := i + 1;
      }
      ScanEnd(ledger, lastStart, rows, fmt);
      table := Rows(rows);
    }
  }
}
