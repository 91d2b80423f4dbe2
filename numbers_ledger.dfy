/**
  The event ledger of the numbers task: the records it appends, the success/failure
  tests its adaptive rule uses, the per-event table and the per-session aggregate table.
*/
module NumbersLedger {
  import opened Wrappers
  import opened Trials

  /** An abstract timestamp (the `new Date` taken when an event is recorded). */
  type Time = int

  /** The `name` of an event: 'start', 'stop', 'slower', 'faster' or a trial's score. */
  datatype Name = Start | Stop | Slower | Faster | Scored(verdict: Verdict)

  /** One ledger entry `{timestamp, isi, name}`; `isi` is the interval in effect when it was recorded. */
  datatype Event = Event(timestamp: Time, isi: int, name: Name)

  predicate IsSuccess(e: Event) { e.name == Scored(Right) }

  predicate IsFailure(e: Event) { e.name == Scored(Wrong) || e.name == Scored(Miss) }

  predicate IsScored(e: Event) { e.name.Scored? }

  /** `w.every(isSuccess)`: true of the empty window, as in JavaScript. */
  predicate AllSuccesses(w: seq<Event>) { forall i {:trigger IsSuccess(w[i])} | 0 <= i < |w| :: IsSuccess(w[i]) }

  /** `w.every(isFailure)`. */
  predicate AllFailures(w: seq<Event>) { forall i {:trigger IsFailure(w[i])} | 0 <= i < |w| :: IsFailure(w[i]) }

  // ---------------------------------------------------------------------------
  // The events table

  /** One row `[formatTimestamp(e.timestamp), e.isi, e.name]` of the events table. */
  datatype EventRow = EventRow(timestamp: string, isi: int, name: Name)

  /** The header row that precedes the rows of the events table. */
  const EVENTS_HEADER: seq<string> := ["Timestamp", "ISI (ms)", "Event"]

  /** The rows of the events table (after its header), one per event, in ledger order. */
  function EventsTable(events: seq<Event>, fmt: Time -> string): (rows: seq<EventRow>)
    ensures |rows| == |events|
    ensures forall i | 0 <= i < |events| ::
      rows[i] == EventRow(fmt(events[i].timestamp), events[i].isi, events[i].name)
  {
    if events == [] then []
    else
      var e := events[|events| - 1];
      EventsTable(events[..|events| - 1], fmt) + [EventRow(fmt(e.timestamp), e.isi, e.name)]
  }

  /** Appending to the ledger only appends rows to the events table. */
  lemma {:induction false} EventsTableGrows(events: seq<Event>, more: seq<Event>, fmt: Time -> string)
    ensures EventsTable(events + more, fmt) == EventsTable(events, fmt) + EventsTable(more, fmt)
  {
    var l, r := EventsTable(events + more, fmt), EventsTable(events, fmt) + EventsTable(more, fmt);
    assert |l| == |r|;
    forall i | 0 <= i < |l| ensures l[i] == r[i] {
      if i < |events| {
        assert (events + more)[i] == events[i];
      } else {
        assert (events + more)[i] == more[i - |events|];
      }
    }
  }

  // ---------------------------------------------------------------------------
  // Splitting the ledger into sessions

  /** A session as the aggregate table cuts it: non-empty, ending with its only STOP. */
  predicate IsSession(s: seq<Event>)
  {
    |s| > 0 && s[|s| - 1].name == Stop && forall i | 0 <= i < |s| - 1 :: s[i].name != Stop
  }

  predicate NoStop(t: seq<Event>) { forall i | 0 <= i < |t| :: t[i].name != Stop }

  function Flatten(ss: seq<seq<Event>>): seq<Event>
  {
    if ss == [] then [] else Flatten(ss[..|ss| - 1]) + ss[|ss| - 1]
  }

  /** The events after the last STOP: what the aggregate table ignores. */
  function OpenTail(e: seq<Event>): (t: seq<Event>)
    ensures NoStop(t)
  {
    if e == [] then []
    else if e[|e| - 1].name == Stop then []
    else OpenTail(e[..|e| - 1]) + [e[|e| - 1]]
  }

  /**
    The sessions the aggregate table reports: one per STOP event, each running from the
    event after the previous STOP (or the first event) through that STOP. Together with
    the open tail they are exactly the ledger.
  */
  function Sessions(e: seq<Event>): (ss: seq<seq<Event>>)
    ensures forall k | 0 <= k < |ss| :: IsSession(ss[k])
    ensures Flatten(ss) + OpenTail(e) == e
  {
    if e == [] then []
    else
      var front, x := e[..|e| - 1], e[|e| - 1];
      assert e == front + [x];
      var prev := Sessions(front);
      if x.name == Stop then
        var last := OpenTail(front) + [x];
        var ss := prev + [last];
        assert ss[..|ss| - 1] == prev;
        assert IsSession(last) by {
          assert forall i | 0 <= i < |last| - 1 :: last[i] == OpenTail(front)[i];
        }
        assert forall k | 0 <= k < |ss| :: ss[k] == if k < |prev| then prev[k] else last;
        assert Flatten(ss) + OpenTail(e) == e by {
          assert Flatten(ss) == Flatten(prev) + last;
          assert Flatten(prev) + last == (Flatten(prev) + OpenTail(front)) + [x];
        }
        ss
      else
        assert Flatten(prev) + OpenTail(e) == e by {
          assert OpenTail(e) == OpenTail(front) + [x];
          assert Flatten(prev) + OpenTail(e) == (Flatten(prev) + OpenTail(front)) + [x];
        }
        prev
  }

  /** There is one session per STOP event. */
  lemma {:induction false} SessionsCount(e: seq<Event>)
    ensures |Sessions(e)| == CountOf(e, Stop)
  {
    if e != [] {
      SessionsCount(e[..|e| - 1]);
    }
  }

  lemma {:induction false} FlattenLength(ss: seq<seq<Event>>)
    requires forall k | 0 <= k < |ss| :: IsSession(ss[k])
    ensures |Flatten(ss)| >= |ss|
  {
    if ss != [] {
      FlattenLength(ss[..|ss| - 1]);
    }
  }

  /**
    The partition into sessions is unique: any way of writing the ledger as sessions
    (each ending at its only STOP) followed by a STOP-free tail is the one Sessions gives.
  */
  lemma {:induction false} SessionsUnique(e: seq<Event>, ss: seq<seq<Event>>, t: seq<Event>)
    requires forall k | 0 <= k < |ss| :: IsSession(ss[k])
    requires NoStop(t)
    requires Flatten(ss) + t == e
    ensures ss == Sessions(e) && t == OpenTail(e)
    decreases |e|
  {
    FlattenLength(ss);
    if e == [] {
      assert t == [] && ss == [];
    } else if t != [] {
      var front, x := e[..|e| - 1], e[|e| - 1];
      assert x == t[|t| - 1];
      assert Flatten(ss) + t[..|t| - 1] == front;
      SessionsUnique(front, ss, t[..|t| - 1]);
      assert t == t[..|t| - 1] + [x];
    } else {
      var front, x := e[..|e| - 1], e[|e| - 1];
      assert ss != [];
      var init, s := ss[..|ss| - 1], ss[|ss| - 1];
      assert Flatten(ss) == Flatten(init) + s;
      var u := s[..|s| - 1];
      assert s == u + [x];
      assert Flatten(init) + u == front;
      assert forall k | 0 <= k < |init| :: init[k] == ss[k];
      SessionsUnique(front, init, u);
      assert ss == init + [s];
    }
  }

  /** Events after the last STOP do not change the sessions. */
  lemma {:induction false} OpenTailIgnored(e: seq<Event>, t: seq<Event>)
    requires NoStop(t)
    ensures Sessions(e + t) == Sessions(e)
  {
    var ss := Sessions(e);
    assert Flatten(ss) + (OpenTail(e) + t) == e + t;
    assert NoStop(OpenTail(e) + t);
    SessionsUnique(e + t, ss, OpenTail(e) + t);
  }

  // ---------------------------------------------------------------------------
  // Per-session statistics (`addSession`)

  /** How many events carry this name (`_.countBy(evs, 'name')[n] || 0`). */
  function CountOf(evs: seq<Event>, n: Name): (c: nat)
    ensures c <= |evs|
  {
    if evs == [] then 0
    else CountOf(evs[..|evs| - 1], n) + (if evs[|evs| - 1].name == n then 1 else 0)
  }

  /** `_(evs).map('isi').max()`. */
  function MaxIsi(evs: seq<Event>): (m: int)
    requires |evs| > 0
    ensures forall i | 0 <= i < |evs| :: evs[i].isi <= m
    ensures exists i | 0 <= i < |evs| :: evs[i].isi == m
  {
    if |evs| == 1 then evs[0].isi
    else
      var m' := MaxIsi(evs[..|evs| - 1]);
      var x := evs[|evs| - 1].isi;
      assert forall i | 0 <= i < |evs| - 1 :: evs[..|evs| - 1][i] == evs[i];
      if x > m' then x else m'
  }

  /** `_(evs).map('isi').min()`. */
  function MinIsi(evs: seq<Event>): (m: int)
    requires |evs| > 0
    ensures forall i | 0 <= i < |evs| :: m <= evs[i].isi
    ensures exists i | 0 <= i < |evs| :: evs[i].isi == m
  {
    if |evs| == 1 then evs[0].isi
    else
      var m' := MinIsi(evs[..|evs| - 1]);
      var x := evs[|evs| - 1].isi;
      assert forall i | 0 <= i < |evs| - 1 :: evs[..|evs| - 1][i] == evs[i];
      if x < m' then x else m'
  }

  /** Right, wrong and miss events taken together. */
  function ScoredCount(evs: seq<Event>): nat
  {
    CountOf(evs, Scored(Right)) + CountOf(evs, Scored(Wrong)) + CountOf(evs, Scored(Miss))
  }

  /** The right, wrong and miss events whose isi is v. */
  function TrialsAt(evs: seq<Event>, v: int): nat
  {
    if evs == [] then 0
    else
      var e := evs[|evs| - 1];
      TrialsAt(evs[..|evs| - 1], v) + (if e.isi == v && IsScored(e) then 1 else 0)
  }

  lemma {:induction false} ScoredCountBounds(evs: seq<Event>, v: int)
    ensures TrialsAt(evs, v) <= ScoredCount(evs) <= |evs|
  {
    if evs != [] {
      var front, e := evs[..|evs| - 1], evs[|evs| - 1];
      ScoredCountBounds(front, v);
      assert ScoredCount(evs) == ScoredCount(front) + (if IsScored(e) then 1 else 0) by {
        match e.name
        case Scored(v) => assert v == Right || v == Wrong || v == Miss;
        case _ =>
      }
    }
  }

  /** One row of the aggregate table. `accuracy` is None where JavaScript yields NaN. */
  datatype SessionRow = SessionRow(
    sessionStart: string, sessionEnd: string,
    right: nat, wrong: nat, miss: nat,
    accuracy: Option<real>,
    startingIsi: int, maxIsi: int, minIsi: int,
    trialsAtMinIsi: nat)

  /** The header row that precedes the rows of the aggregate table. */
  const AGGREGATE_HEADER: seq<string> := [
    "Session start", "Session end", "Right", "Wrong", "Miss", "Accuracy (normalized)",
    "Starting ISI", "Max ISI", "Min ISI", "Trials at minimum ISI"]

  /** `right / (right + wrong + miss)`, absent (NaN) when no trial was scored. */
  function Accuracy(right: nat, total: nat): (a: Option<real>)
    requires right <= total
    ensures a.None? <==> total == 0
    ensures a.Some? ==> 0.0 <= a.value <= 1.0 && a.value * (total as real) == right as real
  {
    if total == 0 then None else Some(right as real / total as real)
  }

  /**
    The statistics `addSession` computes for one session: its first and last timestamps,
    how many trials were right, wrong and missed, the accuracy, the isi of its first event,
    the extreme isi values over all its events, and how many trials were scored at the
    smallest of them.
  */
  function Summary(evs: seq<Event>, fmt: Time -> string): SessionRow
    requires |evs| > 0
  {
    var right, wrong, miss := CountOf(evs, Scored(Right)), CountOf(evs, Scored(Wrong)), CountOf(evs, Scored(Miss));
    var minIsi := MinIsi(evs);
    ScoredCountBounds(evs, minIsi);
    SessionRow(
      fmt(evs[0].timestamp), fmt(evs[|evs| - 1].timestamp),
      right, wrong, miss,
      Accuracy(right, right + wrong + miss),
      evs[0].isi, MaxIsi(evs), minIsi,
      TrialsAt(evs, minIsi))
  }

  /** What a session's row says about the session. */
  lemma SummarySpec(evs: seq<Event>, fmt: Time -> string)
    requires |evs| > 0
    ensures var row := Summary(evs, fmt);
      && row.sessionStart == fmt(evs[0].timestamp)
      && row.sessionEnd == fmt(evs[|evs| - 1].timestamp)
      && row.right == CountOf(evs, Scored(Right)) && row.wrong == CountOf(evs, Scored(Wrong))
      && row.miss == CountOf(evs, Scored(Miss))
      && row.right + row.wrong + row.miss == ScoredCount(evs) <= |evs|
      && row.startingIsi == evs[0].isi
      && row.minIsi <= row.startingIsi <= row.maxIsi
      && (forall i | 0 <= i < |evs| :: row.minIsi <= evs[i].isi <= row.maxIsi)
      && (exists i | 0 <= i < |evs| :: evs[i].isi == row.maxIsi)
      && (exists i | 0 <= i < |evs| :: evs[i].isi == row.minIsi)
      && row.trialsAtMinIsi == TrialsAt(evs, row.minIsi) <= row.right + row.wrong + row.miss
      && (row.accuracy.None? <==> ScoredCount(evs) == 0)
  {
    ScoredCountBounds(evs, MinIsi(evs));
  }

  // ---------------------------------------------------------------------------
  // The aggregate table

  /** The table's rows, or the failed assertion on the name of a session's first event. */
  datatype Aggregate = Rows(rows: seq<SessionRow>) | MalformedSession(opening: Name)

  predicate OpensWithStart(s: seq<Event>) { |s| > 0 && s[0].name == Start }

  predicate NonEmpty(ss: seq<seq<Event>>) { forall k | 0 <= k < |ss| :: |ss[k]| > 0 }

  /** Rows for the sessions in order, stopping at the first session that does not open with START. */
  function Tabulate(ss: seq<seq<Event>>, fmt: Time -> string): Aggregate
    requires NonEmpty(ss)
  {
    if ss == [] then Rows([])
    else
      var init, s := ss[..|ss| - 1], ss[|ss| - 1];
      assert forall k | 0 <= k < |init| :: init[k] == ss[k];
      match Tabulate(init, fmt)
      case MalformedSession(n) => MalformedSession(n)
      case Rows(rows) =>
        if s[0].name != Start then MalformedSession(s[0].name)
        else Rows(rows + [Summary(s, fmt)])
  }

  predicate FirstMalformedAt(ss: seq<seq<Event>>, k: nat, n: Name)
  {
    k < |ss| && |ss[k]| > 0 && ss[k][0].name == n && n != Start &&
    forall j | 0 <= j < k :: OpensWithStart(ss[j])
  }

  /** A table with rows has one row per session, in order, and every session opens with START. */
  lemma {:induction false} TabulateRowsSpec(ss: seq<seq<Event>>, fmt: Time -> string)
    requires NonEmpty(ss) && Tabulate(ss, fmt).Rows?
    ensures forall k | 0 <= k < |ss| :: OpensWithStart(ss[k])
    ensures |Tabulate(ss, fmt).rows| == |ss|
    ensures forall k | 0 <= k < |ss| :: Tabulate(ss, fmt).rows[k] == Summary(ss[k], fmt)
  {
    if ss != [] {
      var init, s := ss[..|ss| - 1], ss[|ss| - 1];
      assert forall k | 0 <= k < |init| :: init[k] == ss[k];
      assert Tabulate(init, fmt).Rows? && s[0].name == Start;
      TabulateRowsSpec(init, fmt);
      var rows := Tabulate(init, fmt).rows;
      var all := rows + [Summary(s, fmt)];
      assert Tabulate(ss, fmt) == Rows(all);
      forall k | 0 <= k < |ss| ensures OpensWithStart(ss[k]) && all[k] == Summary(ss[k], fmt) {
        if k < |init| {
          assert all[k] == rows[k];
        }
      }
    }
  }

  /** A failed table names the opening of the first session that does not open with START. */
  lemma {:induction false} TabulateFailureSpec(ss: seq<seq<Event>>, fmt: Time -> string)
    requires NonEmpty(ss) && Tabulate(ss, fmt).MalformedSession?
    ensures exists k :: FirstMalformedAt(ss, k, Tabulate(ss, fmt).opening)
  {
    var init, s := ss[..|ss| - 1], ss[|ss| - 1];
    assert forall k | 0 <= k < |init| :: init[k] == ss[k];
    if Tabulate(init, fmt).MalformedSession? {
      TabulateFailureSpec(init, fmt);
      var n := Tabulate(init, fmt).opening;
      assert Tabulate(ss, fmt) == MalformedSession(n);
      var k :| FirstMalformedAt(init, k, n);
      assert FirstMalformedAt(ss, k, n);
    } else {
      TabulateRowsSpec(init, fmt);
      assert s[0].name != Start;
      assert Tabulate(ss, fmt) == MalformedSession(s[0].name);
      assert FirstMalformedAt(ss, |ss| - 1, s[0].name);
    }
  }

  /**
    The table has rows exactly when every session opens with START, and then one row per
    session, in order; otherwise it reports the opening name of the first session that
    does not.
  */
  lemma TabulateSpec(ss: seq<seq<Event>>, fmt: Time -> string)
    requires NonEmpty(ss)
    ensures Tabulate(ss, fmt).Rows? <==> forall k | 0 <= k < |ss| :: OpensWithStart(ss[k])
    ensures Tabulate(ss, fmt).Rows? ==>
      |Tabulate(ss, fmt).rows| == |ss| &&
      forall k | 0 <= k < |ss| :: Tabulate(ss, fmt).rows[k] == Summary(ss[k], fmt)
    ensures Tabulate(ss, fmt).MalformedSession? ==>
      exists k :: FirstMalformedAt(ss, k, Tabulate(ss, fmt).opening)
  {
    if Tabulate(ss, fmt).Rows? {
      TabulateRowsSpec(ss, fmt);
    } else {
      TabulateFailureSpec(ss, fmt);
      var k: nat :| FirstMalformedAt(ss, k, Tabulate(ss, fmt).opening);
      assert !OpensWithStart(ss[k]);
    }
  }

  /**
    `getAggregateEventsTable`: one row per STOP event, for the session that STOP closes,
    provided every such session opens with START.
  */
  function AggregateTable(e: seq<Event>, fmt: Time -> string): Aggregate
  {
    Tabulate(Sessions(e), fmt)
  }

  /** Once a session fails the assertion, later events cannot repair the table. */
  lemma {:induction false} TabulateKeepsFailure(ss: seq<seq<Event>>, more: seq<seq<Event>>, fmt: Time -> string)
    requires NonEmpty(ss) && NonEmpty(ss + more)
    requires Tabulate(ss, fmt).MalformedSession?
    ensures Tabulate(ss + more, fmt) == Tabulate(ss, fmt)
    decreases |more|
  {
    if more == [] {
      assert ss + more == ss;
    } else {
      var all, more' := ss + more, more[..|more| - 1];
      assert forall k | 0 <= k < |more'| :: more'[k] == more[k];
      assert NonEmpty(ss + more') by {
        forall k | 0 <= k < |ss + more'| ensures |(ss + more')[k]| > 0 {
          assert (ss + more')[k] == all[k];
        }
      }
      TabulateKeepsFailure(ss, more', fmt);
      assert all[..|all| - 1] == ss + more';
      assert Tabulate(all[..|all| - 1], fmt).MalformedSession?;
    }
  }

  /** One more event either closes the open session (a STOP) or joins it. */
  lemma SplitStep(e: seq<Event>, i: nat)
    requires i < |e|
    ensures e[..i + 1] == e[..i] + [e[i]]
    ensures e[i].name == Stop ==>
      Sessions(e[..i + 1]) == Sessions(e[..i]) + [OpenTail(e[..i]) + [e[i]]] && OpenTail(e[..i + 1]) == []
    ensures e[i].name != Stop ==>
      Sessions(e[..i + 1]) == Sessions(e[..i]) && OpenTail(e[..i + 1]) == OpenTail(e[..i]) + [e[i]]
  {
    assert e[..i + 1][..i] == e[..i];
  }

  /** Tabulating one more session. */
  lemma TabulateStep(ss: seq<seq<Event>>, s: seq<Event>, fmt: Time -> string)
    requires NonEmpty(ss) && |s| > 0
    ensures NonEmpty(ss + [s])
    ensures Tabulate(ss + [s], fmt) ==
      match Tabulate(ss, fmt)
      case MalformedSession(n) => MalformedSession(n)
      case Rows(rows) => if s[0].name != Start then MalformedSession(s[0].name) else Rows(rows + [Summary(s, fmt)])
  {
    assert (ss + [s])[..|ss|] == ss;
    assert forall k | 0 <= k < |ss + [s]| :: (ss + [s])[k] == if k < |ss| then ss[k] else s;
  }

  /** A failed assertion on a prefix of the ledger is the failure on the whole ledger. */
  lemma FailureIsFinal(e: seq<Event>, n: nat, fmt: Time -> string)
    requires n <= |e|
    requires Tabulate(Sessions(e[..n]), fmt).MalformedSession?
    ensures AggregateTable(e, fmt) == Tabulate(Sessions(e[..n]), fmt)
  {
    var ss := Sessions(e[..n]);
    SessionsOfPrefix(e, n);
    var all := Sessions(e);
    assert all == ss + all[|ss|..];
    TabulateKeepsFailure(ss, all[|ss|..], fmt);
  }

  /** The sessions of a longer ledger extend those of its prefix. */
  lemma {:induction false} SessionsOfPrefix(e: seq<Event>, n: nat)
    requires n <= |e|
    ensures Sessions(e[..n]) <= Sessions(e)
  {
    if n == |e| {
      assert e[..n] == e;
    } else {
      var front := e[..|e| - 1];
      SessionsOfPrefix(front, n);
      assert front[..n] == e[..n];
    }
  }

  /** The ledger of one session holding one right, one wrong and one miss, all at one isi. */
  function OneOfEach(t: Time, isi: int): seq<Event>
  {
    [Event(t, isi, Start), Event(t, isi, Scored(Right)), Event(t, isi, Scored(Wrong)),
     Event(t, isi, Scored(Miss)), Event(t, isi, Stop)]
  }

  lemma OneOfEachSummary(t: Time, isi: int, fmt: Time -> string)
    ensures Summary(OneOfEach(t, isi), fmt)
         == SessionRow(fmt(t), fmt(t), 1, 1, 1, Some(1.0 / 3.0), isi, isi, isi, 3)
  {
    var e := OneOfEach(t, isi);
    var p1, p2, p3, p4 := e[..1], e[..2], e[..3], e[..4];
    assert e[..|e| - 1] == p4 && p4[..3] == p3 && p3[..2] == p2 && p2[..1] == p1 && p1[..0] == [];
    assert CountOf(p2, Scored(Right)) == 1 && CountOf(p2, Scored(Wrong)) == 0 && CountOf(p2, Scored(Miss)) == 0;
    assert CountOf(p4, Scored(Right)) == 1 && CountOf(p4, Scored(Wrong)) == 1 && CountOf(p4, Scored(Miss)) == 1;
    assert MinIsi(e) == isi && MaxIsi(e) == isi;
    assert TrialsAt(p1, isi) == 0;
    assert TrialsAt(p2, isi) == 1;
    assert TrialsAt(p3, isi) == 2;
    assert TrialsAt(p4, isi) == 3;
  }

  lemma OneOfEachSessions(t: Time, isi: int)
    ensures Sessions(OneOfEach(t, isi)) == [OneOfEach(t, isi)]
  {
    var e := OneOfEach(t, isi);
    var none: seq<seq<Event>> := [];
    assert [e][..0] == none;
    assert IsSession(e);
    assert Flatten([e]) == e;
    SessionsUnique(e, [e], []);
  }

  /** Scenario: one full session with one right, one wrong and one miss has accuracy exactly 1/3. */
  lemma OneOfEachAccuracy(t: Time, isi: int, fmt: Time -> string)
    ensures AggregateTable(OneOfEach(t, isi), fmt)
         == Rows([SessionRow(fmt(t), fmt(t), 1, 1, 1, Some(1.0 / 3.0), isi, isi, isi, 3)])
  {
    var e := OneOfEach(t, isi);
    OneOfEachSessions(t, isi);
    SingleTabulate(e, fmt);
    OneOfEachSummary(t, isi, fmt);
  }

  /** One session opening with START tabulates to its own row. */
  lemma SingleTabulate(s: seq<Event>, fmt: Time -> string)
    requires OpensWithStart(s)
    ensures Tabulate([s], fmt) == Rows([Summary(s, fmt)])
  {
    var none: seq<seq<Event>> := [];
    assert [s][..0] == none;
  }

  /**
    The walk has read `ledger[..i]`: the open session starts at `lastStart` and `rows` is
    the table of the sessions closed so far.
  */
  predicate Scanned(ledger: seq<Event>, lastStart: nat, i: nat, rows: seq<SessionRow>, fmt: Time -> string)
  {
    lastStart <= i <= |ledger| && ledger[lastStart..i] == OpenTail(ledger[..i]) &&
    AggregateTable(ledger[..i], fmt) == Rows(rows)
  }

  /** Before the first event nothing is open and there are no rows. */
  lemma ScanStart(ledger: seq<Event>, fmt: Time -> string)
    ensures Scanned(ledger, 0, 0, [], fmt)
  {
    assert ledger[..0] == [];
  }

  /** A STOP closing a session that does not open with START: the assertion fails on it. */
  lemma MalformedStop(ledger: seq<Event>, lastStart: nat, i: nat, rows: seq<SessionRow>, fmt: Time -> string)
    requires Scanned(ledger, lastStart, i, rows, fmt)
    requires i < |ledger| && ledger[i].name == Stop && ledger[lastStart].name != Start
    ensures AggregateTable(ledger, fmt) == MalformedSession(ledger[lastStart].name)
  {
    MalformedClose(ledger, lastStart, i, rows, fmt);
    FailureIsFinal(ledger, i + 1, fmt);
  }

  /** That STOP makes the table of the ledger read so far fail. */
  lemma MalformedClose(ledger: seq<Event>, lastStart: nat, i: nat, rows: seq<SessionRow>, fmt: Time -> string)
    requires Scanned(ledger, lastStart, i, rows, fmt)
    requires i < |ledger| && ledger[i].name == Stop && ledger[lastStart].name != Start
    ensures Tabulate(Sessions(ledger[..i + 1]), fmt) == MalformedSession(ledger[lastStart].name)
  {
    SplitStep(ledger, i);
    var session := ledger[lastStart..i + 1];
    assert session == OpenTail(ledger[..i]) + [ledger[i]];
    TabulateStep(Sessions(ledger[..i]), session, fmt);
  }

  /** A STOP closing a session that opens with START adds that session's row. */
  lemma ClosingStop(ledger: seq<Event>, lastStart: nat, i: nat, rows: seq<SessionRow>, fmt: Time -> string)
    requires Scanned(ledger, lastStart, i, rows, fmt)
    requires i < |ledger| && ledger[i].name == Stop && ledger[lastStart].name == Start
    ensures Scanned(ledger, i + 1, i + 1, rows + [Summary(ledger[lastStart..i + 1], fmt)], fmt)
  {
    SplitStep(ledger, i);
    var session := ledger[lastStart..i + 1];
    assert session == OpenTail(ledger[..i]) + [ledger[i]];
    TabulateStep(Sessions(ledger[..i]), session, fmt);
  }

  /** Any other event extends the open session and leaves the rows as they are. */
  lemma OpenEvent(ledger: seq<Event>, lastStart: nat, i: nat, rows: seq<SessionRow>, fmt: Time -> string)
    requires Scanned(ledger, lastStart, i, rows, fmt)
    requires i < |ledger| && ledger[i].name != Stop
    ensures Scanned(ledger, lastStart, i + 1, rows, fmt)
  {
    SplitStep(ledger, i);
    assert ledger[lastStart..i + 1] == ledger[lastStart..i] + [ledger[i]];
  }

  /** Having read the whole ledger, the rows are its table. */
  lemma ScanEnd(ledger: seq<Event>, lastStart: nat, rows: seq<SessionRow>, fmt: Time -> string)
    requires Scanned(ledger, lastStart, |ledger|, rows, fmt)
    ensures AggregateTable(ledger, fmt) == Rows(rows)
  {
    assert ledger[..|ledger|] == ledger;
  }

}
