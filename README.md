# Serial-addition task engine, modelled in Dafny

This project models the engine of a PASAT-style serial-addition task. A timer presents
one digit per tick. The participant answers with the sum of the last two digits. Each
trial is scored once: RIGHT, WRONG, or MISS when the next digit arrives first. The
inter-stimulus interval (isi) adapts to the participant: it grows by 100 ms after a run of
failures and shrinks by 100 ms after a run of successes. Everything is recorded in an
append-only event ledger, and two tables are read off that ledger.

The model has two versions of the engine and the page helpers:

- `NumbersTask` (numbers_task.dfy, numbers_ledger.dfy) is the current engine. Its ledger
  holds timestamped `{timestamp, isi, name}` events. It rejects `start` while running. Its
  adaptive rule looks at the last four ledger entries. It can produce a per-event table and
  a per-session aggregate table.
- `LegacyGame` (legacy_game.dfy) is the older `Game`. Its ledger mixes bare speeds with
  result strings. Its rule looks at the last five entries. `start` is never rejected and
  `stop` records nothing.
- `NumbersPage` (numbers_page.dfy, text.dfy) holds the page helpers: two-digit padding, the
  sorted answer-button values, and the CSV file name.
- `Trials` (trials.dfy) holds what both engines share: the verdict of an answer and the
  trailing window (`slice(-n)`).
- `Wrappers` (wrappers.dfy) holds the `Option` type.

Each engine works the same way:

- Its closure state is a value: `RunState` in NumbersTask, `GameState` in LegacyGame.
- Each operation is a step function on that value: `StartStep`, `StopStep`, `TickStep`,
  `AnswerStep`, `CountStep`.
- A class (`NumbersTask.Task`, `LegacyGame.Game`) holds the same variables as fields. Its
  methods update the fields in place. Each method's contract says the new state is the
  step function applied to the old state. Each public method also keeps the invariant;
  the internal `PushEvent` and `Count` do not promise it on their own.
- The properties of the engine are lemmas about the step functions.

## How the environment is modelled

- **The timer** is a `pending` flag plus the `scheduledDelay` it was set with. The tick
  method requires a pending timer, because only the timer calls it.
- **A `stop()` from inside the `emitDigit`/`tellNumber` callback** is the `stopOnEmit` or
  `stopOnTell` flag of the tick. NumbersTask reschedules before it emits, so such a stop
  wins. Game tells before it reschedules, so the reschedule overrides the stop.
- **The drawn digit** is a tick parameter `d`, required to be in `DIGITS` / `NUMBERS`.
- **Time** is a `Time` parameter of every operation. One call uses one timestamp for all
  its events. `formatTimestamp` is an arbitrary function `fmt: Time -> string`.
- **The `onCount(result, isi)` callback** is modelled by its arguments, which are returned
  as a `Report`.
- **A thrown assertion** is an explicit outcome:
  - `start` while running returns `AlreadyRunning` and changes nothing.
  - A session that does not open with START makes the aggregate table
    `MalformedSession(name)`, where `name` is the message the assertion would throw.
- **Accuracy** is an `Option<real>`. `None` stands for the NaN of `0/0`.

## Model

| member | source | states |
|---|---|---|
| Trials.Judge | tasks/numbers/numbersTask.js:85 | An answer is RIGHT exactly when it equals previous + current, and WRONG exactly when it does not. |
| Trials.Last | tasks/numbers/numbersTask.js:92 | `slice(-n)`: the window has min(n, length) entries and is the suffix of the ledger; for n = 0 it is the whole ledger, as `slice(-0)` is. |
| NumbersLedger.IsSuccess | tasks/numbers/numbersTask.js:44 | `isSuccess`: the event is a RIGHT score. It has no contract of its own; CountOutcomes and WindowDecides state the rule built on it. |
| NumbersLedger.IsFailure | tasks/numbers/numbersTask.js:45 | `isFailure`: the event is a WRONG or MISS score. It has no contract of its own; CountOutcomes and WindowDecides state the rule built on it. |
| NumbersLedger.EventsTable | tasks/numbers/numbersTask.js:106-108 | One row per event, in ledger order: formatted timestamp, isi, name. |
| NumbersLedger.EventsTableGrows | tasks/numbers/numbersTask.js:106-108 | The table of a longer ledger extends the table of the shorter one, row for row. |
| NumbersLedger.Sessions | tasks/numbers/numbersTask.js:160-168 | Each session is nonempty and ends with its only STOP. The sessions, followed by the open tail, rebuild the ledger. |
| NumbersLedger.SessionsCount | tasks/numbers/numbersTask.js:161-162 | There is exactly one session per STOP event. |
| NumbersLedger.OpenTail | tasks/numbers/numbersTask.js:160-168 | The events after the last STOP contain no STOP. |
| NumbersLedger.SessionsUnique | tasks/numbers/numbersTask.js:160-168 | Any split into STOP-terminated sessions plus a STOP-free tail is the split that `Sessions`/`OpenTail` compute. |
| NumbersLedger.OpenTailIgnored | tasks/numbers/numbersTask.js:160-168 | Events after the last STOP do not change the sessions. |
| NumbersLedger.CountOf | tasks/numbers/numbersTask.js:133-136 | `countBy(...)[name] \|\| 0` is at most the number of events. |
| NumbersLedger.MaxIsi | tasks/numbers/numbersTask.js:141 | The result bounds every event's isi from above and is the isi of some event. |
| NumbersLedger.MinIsi | tasks/numbers/numbersTask.js:142 | The result bounds every event's isi from below and is the isi of some event. |
| NumbersLedger.ScoredCountBounds | tasks/numbers/numbersTask.js:143-144 | Trials at any isi ≤ scored trials ≤ events. |
| NumbersLedger.Accuracy | tasks/numbers/numbersTask.js:138 | Absent (NaN) exactly when no trial was scored. Otherwise it lies in [0, 1] and accuracy × total = right. |
| NumbersLedger.Summary | tasks/numbers/numbersTask.js:129-157 | `addSession`'s row for one session. It has no contract of its own; SummarySpec states every field. |
| NumbersLedger.SummarySpec | tasks/numbers/numbersTask.js:129-157 | A session's row: first and last formatted timestamps; right/wrong/miss counts summing to the scored events; startingIsi = the first (START) event's isi; max/min isi bound every event and are attained; trials at the min isi; accuracy absent exactly when nothing was scored. |
| NumbersLedger.Tabulate | tasks/numbers/numbersTask.js:160-170 | The rows for a list of sessions, stopping at the first one that does not open with START. It has no contract of its own; TabulateSpec characterises it. |
| NumbersLedger.AggregateTable | tasks/numbers/numbersTask.js:111-171 | `getAggregateEventsTable` without its header: Tabulate of the ledger's sessions. It has no contract of its own; TabulateSpec, OpenTailIgnored and FailureIsFinal state its properties, and Task.GetAggregateEventsTable is proved equal to it. |
| NumbersLedger.TabulateSpec | tasks/numbers/numbersTask.js:160-170 | The table has rows exactly when every session opens with START, and then row k summarises session k. Otherwise it is the failure on the first session that does not open with START. |
| NumbersLedger.TabulateRowsSpec | tasks/numbers/numbersTask.js:160-170 | A table with rows has one row per session, row k summarising session k, and every session opens with START. |
| NumbersLedger.TabulateFailureSpec | tasks/numbers/numbersTask.js:164-165 | A failed table carries the opening name of the first session that does not open with START. |
| NumbersLedger.TabulateKeepsFailure | tasks/numbers/numbersTask.js:161-165 | Once the table has failed, appending more sessions does not change the failure. |
| NumbersLedger.FailureIsFinal | tasks/numbers/numbersTask.js:165 | Once a session fails the START assertion, the result is that failure, whatever follows in the ledger. |
| NumbersLedger.ScanStart | tasks/numbers/numbersTask.js:160 | Before the walk reads any event, no session is open and no row has been made. |
| NumbersLedger.ClosingStop | tasks/numbers/numbersTask.js:162-167 | A STOP closing a session that opens with START adds that session's summary row, and the next session opens after it. |
| NumbersLedger.MalformedStop | tasks/numbers/numbersTask.js:164-165 | A STOP closing a session that does not open with START makes the whole ledger's table that failure. |
| NumbersLedger.OpenEvent | tasks/numbers/numbersTask.js:161-162 | Any event other than STOP joins the open session and leaves the rows unchanged. |
| NumbersLedger.ScanEnd | tasks/numbers/numbersTask.js:160-170 | Once the walk has read the whole ledger, its rows are the ledger's aggregate table. |
| NumbersLedger.OneOfEachAccuracy | tasks/numbers/numbersTask.js:129-157 | START, RIGHT, WRONG, MISS, STOP gives one row: counts 1/1/1, accuracy 1/3, and 3 trials at the min isi. |
| NumbersTask.Push | tasks/numbers/numbersTask.js:40-42 | `pushEvent`: appends `{timestamp, isi, name}` with the current isi. It has no contract of its own; Task.PushEvent is proved against it. |
| NumbersTask.StartStep | tasks/numbers/numbersTask.js:49-58 | `start` as a transition. It has no contract of its own; StartOutcomes and StartKeepsInv state its properties. |
| NumbersTask.StopStep | tasks/numbers/numbersTask.js:61-66 | `stop` as a transition. It has no contract of its own; StopOnce and StopKeepsInv state its properties. |
| NumbersTask.TickStep | tasks/numbers/numbersTask.js:69-78 | `nextDigit` as a transition, with the stop from `emitDigit` as a flag. It has no contract of its own; TickOutcomes, StopDuringEmit and TickKeepsInv state its properties. |
| NumbersTask.AnswerStep | tasks/numbers/numbersTask.js:81-86 | `setUserAnswer` as a transition. It has no contract of its own; AnswerOutcomes, TrialScoredOnce and AnswerKeepsInv state its properties. |
| NumbersTask.CountStep | tasks/numbers/numbersTask.js:89-103 | `count` as a transition. It has no contract of its own; CountOutcomes, CountKeepsLedger and AdjustmentsSpaced state its properties. |
| NumbersTask.FirstDelay | tasks/numbers/numbersTask.js:56 | `initialDelay \|\| 500`: 500 when the delay is absent or 0; otherwise the given delay. |
| NumbersTask.InitialInv | tasks/numbers/numbersTask.js:30-38 | A new task satisfies the invariant: no timer, no digits, empty ledger. |
| NumbersTask.StartKeepsInv | tasks/numbers/numbersTask.js:49-58 | `start` keeps the invariant: digits in DIGITS; the ledger opens with START; its last isi is the current isi; each adjustment follows four like scores. |
| NumbersTask.StopKeepsInv | tasks/numbers/numbersTask.js:61-66 | `stop` keeps the invariant. |
| NumbersTask.TickKeepsInv | tasks/numbers/numbersTask.js:69-78 | The tick keeps the invariant, with or without a stop from the callback. |
| NumbersTask.AnswerKeepsInv | tasks/numbers/numbersTask.js:81-86 | `setUserAnswer` keeps the invariant. |
| NumbersTask.CountKeepsLedger | tasks/numbers/numbersTask.js:89-103 | `count` keeps the ledger invariant: it appends `slower`/`faster` only after four failures/successes, with the isi one step away. |
| NumbersTask.AppendKeepsStreaks | tasks/numbers/numbersTask.js:40-42 | Appending an entry that is itself justified keeps every earlier adjustment justified. |
| NumbersTask.CountOutcomes | tasks/numbers/numbersTask.js:89-103 | The score goes first, with the pre-adjustment isi. If the last 3 entries and the score are all failures: isi +100, then `slower` with the new isi. If they are all RIGHT: isi −100, then `faster`. Otherwise nothing else changes. Never both. |
| NumbersTask.WindowDecides | tasks/numbers/numbersTask.js:92-99 | After a score, the last four entries are all failures exactly when the score is a failure and the three entries before it are failures; all RIGHT exactly when the score and those three entries are RIGHT. A ledger shorter than the window never qualifies. |
| NumbersTask.UnscoredEntryBlocksAdjustment | tasks/numbers/numbersTask.js:44-45 | A START, STOP, `slower` or `faster` among the last three entries blocks any adjustment by the next score. |
| NumbersTask.AdjustmentsSpaced | tasks/numbers/numbersTask.js:92-99 | Two adjustments lie more than 4 entries apart, and the 4 entries before the later one are all scores. |
| NumbersTask.NoAdjustmentAfterUnscored | tasks/numbers/numbersTask.js:92-99 | Up to three scores right after an unscored entry are appended with no adjustment. |
| NumbersTask.FourthFailureSlowsDown | tasks/numbers/numbersTask.js:89-103 | After an unscored entry, three failures change nothing. The fourth raises the isi by 100 and appends `slower`. |
| NumbersTask.StartOutcomes | tasks/numbers/numbersTask.js:49-58 | While a timer is pending, nothing changes. Otherwise: isi set; both digits and the answered flag cleared; first tick scheduled after FirstDelay; exactly one START, with the new isi. |
| NumbersTask.StopOnce | tasks/numbers/numbersTask.js:61-66 | With no timer pending, `stop` changes nothing. With one pending, it clears the timer and appends exactly one STOP carrying the current isi and the call's timestamp, and nothing else changes. After `stop` no timer is pending, the STOP count has grown by one exactly when a timer was pending, and `stop(); stop()` equals `stop()`. |
| NumbersTask.TickOutcomes | tasks/numbers/numbersTask.js:69-78 | The ledger grows exactly when a previous digit exists and the trial is unanswered, and the first new entry is MISS. On a MISS the new ledger and isi are exactly those `count(MISS)` leaves; otherwise both are unchanged. The digits shift to (current, d). The trial becomes unanswered. The tick reschedules with that isi. |
| NumbersTask.StopDuringEmit | tasks/numbers/numbersTask.js:76-77 | A stop called from `emitDigit` wins: no timer is pending, and exactly one STOP is added. |
| NumbersTask.AnswerOutcomes | tasks/numbers/numbersTask.js:81-86 | The answer is ignored exactly when the state is unchanged. Otherwise the trial is marked answered, and the next entry is RIGHT iff number = previous + current, else WRONG. The digits and the timer are unchanged, and the ledger and isi are those `count` leaves for that score. |
| NumbersTask.TrialScoredOnce | tasks/numbers/numbersTask.js:69-86 | Once an answer is scored, further answers are no-ops and the next tick records no MISS. |
| NumbersTask.FirstTwoTicksNeverScore | tasks/numbers/numbersTask.js:69-73 | After `start`, an answer before the second digit is ignored, and the first two ticks record nothing. |
| NumbersTask.ThreeMissesThenStop | tasks/numbers/numbersTask.js:69-78 | Three unanswered ticks record three MISSes with no adjustment. A stop in the third callback adds STOP and leaves no timer. |
| NumbersTask.FiveUnansweredTicksThenStop | tasks/numbers/numbersTask.js:49-78 | `start`, then five unanswered ticks with a stop in the fifth callback, records START, MISS, MISS, MISS, STOP, and no timer is pending. |
| NumbersTask.BrokenLedgerAggregate | tasks/numbers/numbersTask.js:160-170 | A ledger START, STOP, score, START, STOP fails the aggregate table's assertion on that score. |
| NumbersTask.AnswerAfterStopBreaksAggregate | tasks/numbers/numbersTask.js:81-86 | `stop` keeps the digits, so an answer after it is still scored after the STOP. A later start/stop then makes the aggregate table fail. |
| NumbersTask.LedgerOnlyGrows | tasks/numbers/numbersTask.js:38-42 | Every operation leaves the old ledger as a prefix of the new one. |
| NumbersTask.Task.constructor | tasks/numbers/numbersTask.js:16-38 | A new task is in the initial state and valid. |
| NumbersTask.Task.PushEvent | tasks/numbers/numbersTask.js:40-42 | Appends one event with the current isi and changes nothing else. |
| NumbersTask.Task.Start | tasks/numbers/numbersTask.js:49-58 | Returns AlreadyRunning exactly when a timer was pending. The new state is StartStep. The invariant is kept. |
| NumbersTask.Task.Stop | tasks/numbers/numbersTask.js:61-66 | The new state is StopStep. The invariant is kept. |
| NumbersTask.Task.Count | tasks/numbers/numbersTask.js:89-103 | The new state is CountStep. Reports (result, post-adjustment isi). |
| NumbersTask.Task.NextDigit | tasks/numbers/numbersTask.js:69-78 | The new state is TickStep. Emits d. Reports MISS exactly when one was due. The invariant is kept. |
| NumbersTask.Task.SetUserAnswer | tasks/numbers/numbersTask.js:81-86 | The new state is AnswerStep. Reports the verdict unless the answer was ignored. The invariant is kept. |
| NumbersTask.Task.GetEvents | tasks/numbers/numbersTask.js:179 | Returns a copy of the ledger. |
| NumbersTask.Task.GetEventsTable | tasks/numbers/numbersTask.js:106-108 | One row per event of the ledger, in order. |
| NumbersTask.Task.GetAggregateEventsTable | tasks/numbers/numbersTask.js:111-171 | The `forEach` walk with its `lastStart` accumulator gives AggregateTable(events), including the early failure. |
| LegacyGame.StartStep | index.js:35-43 | `start` as a transition. It has no contract of its own; StartOutcomes, RestartKeepsOneTimer and StartKeepsInv state its properties. |
| LegacyGame.StopStep | index.js:46-49 | `stop` as a transition. It has no contract of its own; StopOutcomes and StopKeepsInv state its properties. |
| LegacyGame.TickStep | index.js:52-61 | `nextNumber` as a transition, with the stop from `tellNumber` as a flag. It has no contract of its own; TickOutcomes, StopDuringTellOverridden and TickKeepsInv state its properties. |
| LegacyGame.AnswerStep | index.js:64-69 | `setUserAnswer` as a transition. It has no contract of its own; AnswerOutcomes, TrialScoredOnce and AnswerKeepsInv state its properties. |
| LegacyGame.CountStep | index.js:72-86 | `count` as a transition. It has no contract of its own; CountOutcomes, CountKeepsInv and FifthFailureSlowsDown state its properties. |
| LegacyGame.LastSpeed | index.js:42 | The most recent speed: it is a speed entry of the ledger and every entry after it is a result. It is absent only when the ledger has no speed. |
| LegacyGame.InitialInv | index.js:25-32 | A new game satisfies the invariant. |
| LegacyGame.StartKeepsInv | index.js:35-43 | `start` keeps the invariant: numbers in NUMBERS; the ledger opens with a speed; its last speed is the current speed. |
| LegacyGame.StopKeepsInv | index.js:46-49 | `stop` keeps the invariant. |
| LegacyGame.TickKeepsInv | index.js:52-61 | The tick keeps the invariant. |
| LegacyGame.AnswerKeepsInv | index.js:64-69 | `setUserAnswer` keeps the invariant. |
| LegacyGame.CountKeepsInv | index.js:72-86 | `count` keeps the invariant: a pushed speed is the new current speed. |
| LegacyGame.CountOutcomes | index.js:72-86 | The result is appended. After five failures: speed +100, pushed as a number. After five RIGHTs: speed −100, pushed. Otherwise nothing else changes. Never both. |
| LegacyGame.WindowDecides | index.js:75-82 | After a result, the last five entries are all failures exactly when the result is a failure and the four entries before it are failures; all RIGHT exactly when the result and those four entries are RIGHT. A ledger shorter than the window never qualifies. |
| LegacyGame.SpeedBlocksAdjustment | index.js:75-82 | A pushed speed among the last four entries, including the starting one, blocks any adjustment. |
| LegacyGame.NoAdjustmentAfterSpeed | index.js:75-82 | Up to four results right after a speed are appended with no adjustment. |
| LegacyGame.FifthFailureSlowsDown | index.js:72-86 | After a speed, four failures change nothing. The fifth raises the speed by 100 and pushes it (NumbersTask needs only four). |
| LegacyGame.StartOutcomes | index.js:35-43 | Never rejected. Sets the speed, clears both numbers and the answered flag, and pushes the speed. The delay is 1000 only when no timer was pending; otherwise the existing timer is kept. |
| LegacyGame.RestartKeepsOneTimer | index.js:41-42 | Two starts push both speeds and keep the single timer scheduled at 1000 ms. |
| LegacyGame.StopOutcomes | index.js:46-49 | `stop` clears the timer and changes nothing else; the ledger is untouched. |
| LegacyGame.TickOutcomes | index.js:52-61 | MISS is appended exactly when a previous number exists and the trial is unanswered. On a MISS the new ledger and speed are exactly those `count(MISS)` leaves; otherwise both are unchanged. The numbers shift, the trial becomes unanswered, and the tick reschedules with the speed. |
| LegacyGame.StopDuringTellOverridden | index.js:59-60 | A stop called from `tellNumber` has no effect: the reschedule after it makes the timer pending again. |
| LegacyGame.AnswerOutcomes | index.js:64-69 | The answer is a no-op with no previous number or once answered. Otherwise the trial is answered and RIGHT iff number = previous + current, else WRONG. The numbers and the timer are unchanged, and the ledger and speed are those `count` leaves. |
| LegacyGame.TrialScoredOnce | index.js:53-69 | Once answered, a trial is neither answered again nor missed: the next tick adds nothing to the ledger. |
| LegacyGame.LedgerOnlyGrows | index.js:42-82 | Every operation only appends to the ledger; `stop` leaves it unchanged. |
| LegacyGame.Game.constructor | index.js:12-32 | A new game is in the initial state and valid. |
| LegacyGame.Game.Start | index.js:35-43 | The new state is StartStep. The invariant is kept. |
| LegacyGame.Game.Stop | index.js:46-49 | The new state is StopStep. The invariant is kept. |
| LegacyGame.Game.Count | index.js:72-86 | The new state is CountStep. Reports (result, post-adjustment speed). |
| LegacyGame.Game.NextNumber | index.js:52-61 | The new state is TickStep. Tells d. Reports MISS exactly when one was due. The invariant is kept. |
| LegacyGame.Game.SetUserAnswer | index.js:64-69 | The new state is AnswerStep. Reports the verdict unless the answer was ignored. |
| LegacyGame.Game.GetEvents | index.js:94 | The ledger at the time of the call. |
| Text.NatToString | tasks/numbers/index.js:5 | Decimal digits with no leading zero (except "0"), one character exactly for n < 10. |
| Text.IntToString | tasks/numbers/index.js:5 | `toString()` of an integer: the text starts with '-' exactly when the value is negative; the rest is a nonempty string of decimal digits that reads back to the magnitude, with no leading zero unless it is "0". The number range is unbounded (see Left out). |
| Text.ParseNatToString | tasks/numbers/index.js:5 | Reading the digits back gives the number. |
| Text.IntToStringInjective | tasks/numbers/index.js:82 | Distinct integers have distinct texts. |
| NumbersPage.PadNumber | tasks/numbers/index.js:4-8 | `pad(n)` as a value: Padded of `n.toString()`. It has no contract of its own; Pad is proved equal to it, and PadIdempotent, PadDigit and PadTwoDigits state its properties. |
| NumbersPage.Padded | tasks/numbers/index.js:4-8 | Length ≥ 2. The original text is a suffix, and only '0's precede it. A text of length ≥ 2 is returned unchanged. |
| NumbersPage.Pad | tasks/numbers/index.js:4-8 | `pad(n)` returns PadNumber(n): the text of n run through the padding loop. |
| NumbersPage.PadText | tasks/numbers/index.js:6-7 | The `while` loop that prepends '0' while the text is shorter than two characters returns Padded(text). |
| NumbersPage.PadIdempotent | tasks/numbers/index.js:4-8 | Padding a padded text changes nothing, so pad(pad(n)) = pad(n). |
| NumbersPage.PadDigit | tasks/numbers/index.js:5-7 | For n in 0..9, pad(n) is '0' followed by the digit. |
| NumbersPage.PadTwoDigits | tasks/numbers/index.js:4-8 | For n in 0..99, pad(n) is exactly n's two decimal digits. |
| NumbersPage.Sums | tasks/numbers/index.js:36 | The keys the nested `forEach` sets: every n + m of two numbers. It has no contract of its own; ButtonValues and DigitSums state what is built from it. |
| NumbersPage.SortedKeys | tasks/numbers/index.js:37 | The numeric sort of the keys is strictly ascending and holds exactly the keys. |
| NumbersPage.ButtonValues | tasks/numbers/index.js:35-37 | The nested loops and the sort give a strictly ascending list of exactly the distinct sums n + m. |
| NumbersPage.AscendingUnique | tasks/numbers/index.js:37 | Only one strictly ascending list holds a given set of values. |
| NumbersPage.DigitSums | tasks/numbers/index.js:36 | The sums of two digits from 1..9 are exactly 2..18. |
| NumbersPage.NineDigitButtons | tasks/numbers/index.js:35-37 | For 1..9, the button values are exactly 2, 3, …, 18. |
| NumbersPage.Filename | tasks/numbers/index.js:80-87 | The download name: prefix, year, padded month (1-based), day, '_', hours, minutes, '.csv'. It has no contract of its own; FilenameRoundTrip states that it can be read back. |
| NumbersPage.FilenameRoundTrip | tasks/numbers/index.js:80-87 | `'numbersTask_s' + year + pad(month+1) + pad(day) + '_' + pad(hours) + pad(minutes) + '.csv'` can be read back to the same date and time, for in-range fields. |

## Left out

- Real timers (`setTimeout`/`clearTimeout`): the timer is a pending flag and a recorded
  delay, and the tick is an operation called from outside. Wall-clock intervals are not
  modelled.
- `Math.random`: the drawn digit is a parameter, required to come from the digit list.
- `new Date` and `formatTimestamp`: a `Time` parameter and an arbitrary formatting function.
- Callbacks re-entering the engine: the only re-entry modelled is a `stop()` issued in
  `emitDigit`/`tellNumber`. An answer given from inside a callback, and any call made from
  `onCount`, are not modelled.
- The `typeof` checks on `options`, `startingIsi` and `startingInverseSpeed`: Dafny's types
  enforce them. Values are integers, so a fractional isi and JavaScript's loose `==` on
  non-numbers are not modelled.
- Text.IntToString: integers are unbounded. JavaScript numbers are doubles, so above 2^53
  the source's isi and speed arithmetic is no longer exact. From 10^21 up, `toString`
  switches to exponent form ("1e+21"). The model has neither limit.
- The unused `duration` option.
- Floating-point accuracy: accuracy is an exact rational, and `None` stands for NaN.
- The lodash helpers (`countBy`, `first`, `last`, `max`, `min`, `filter`): written directly
  as sequence functions.
- The header rows: kept as the constants `EVENTS_HEADER` and `AGGREGATE_HEADER`. The table
  functions return the rows that follow them.
- LegacyGame.Game.GetEvents: returns the ledger by value. The source returns the live
  array, so later pushes show through the returned reference; that aliasing is not captured.
- LegacyGame: a tick or an answer before the first `start` (when `inverseSpeed` is still
  undefined) is not modelled. The initial speed is 0 and no tick is pending.
- NumbersPage.FilenameRoundTrip: proved only for a non-negative year and in-range month,
  day, hour and minute fields. `Filename` itself is defined for all integers.
- DOM, audio, download plumbing, the button geometry (`Math.cos`/`Math.sin`), and the CSV
  content line of the page.
- The page's wiring to `NumbersTask`: it passes `tellNumber` and reads `game.NUMBERS`,
  neither of which `NumbersTask` provides.
- The Elm port adapters: they have no logic of their own.

## Behaviour of the code worth knowing

- The adjustment window is the last four ledger entries of any kind, not the last four
  scored trials. A START, STOP, `slower` or `faster` in the window blocks adjustment
  (`UnscoredEntryBlocksAdjustment`).
- `startingIsi` in the aggregate table is the isi of the session's START event.
- `stop` does not clear the digits or the answered flag. An answer submitted after `stop`
  is still scored, and lands after the STOP. If the task is then started and stopped again,
  the next session opens with that score, and `getAggregateEventsTable`'s assertion throws
  (`AnswerAfterStopBreaksAggregate`).
- `initialDelay || 500` treats an explicit 0 like an absent delay.
- The isi has no lower bound: repeated successes can drive it to zero or below.
