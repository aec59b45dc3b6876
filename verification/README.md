# EDGAR sessionization, modelled in Dafny

`src/Track_EDGAR.py` reads the EDGAR web-log rows `(ip, date, time, …)` in time
order. It groups each client's requests into sessions. A session closes once
the client has been silent for longer than an inactivity period read from a
configuration file. For every session it writes one line, `ip,first,last,dur,count`,
to `sessionization.txt`.

The program makes one pass over the rows. It keeps a table `dic_ips` with one
open session per ip, a rank counter `obs` and the time `lastTime` of the last
valid row. For each valid row it does three things:

- When the row's time differs from `lastTime`, it closes every session whose gap
  strictly exceeds the period. It writes these as one batch, sorted by
  first-seen rank.
- It folds the row in: a new ip opens a session with the next rank, a known ip
  extends its session.
- It moves `lastTime` to the row's time.

At the end of the input it writes every session still open as one more sorted
batch.

The model has eight modules:

- `Wrappers` holds `Option` and `Result`.
- `Config` holds the range check on the period.
- `Output` holds the line format, `CreateLine`, and a parser for it, so that a
  round trip can be stated.
- `Sessions` holds sessions and the table as values. Its functions say what one
  expiry pass (`Survivors`, `Expired`) and one fold (`Folded`, `NextCounter`)
  do to the table.
- `Sorting` holds the in-place sort of a batch by rank, and `SortedBatch`, the
  one rank-sorted arrangement of a set of sessions with distinct ranks.
- `Bookkeeping` holds the accounts the pass keeps. Its predicate `Tally` says
  that the sessions, open or written, hold the ranks `1..obs` once each, and
  that their request counts add up to the valid rows folded in.
- `Sessionizer` holds the class that carries out the pass in place, the
  reference pass on values it is proved against, and the whole run.
- `Example` traces four rows through the pass with period 5.

The class `Sessionizer.Sessionizer` carries out the pass in place:

- `table` is `dic_ips`;
- `obs` and `lastTime` are the loop's counters;
- `out` is the sequence of sessions written to the output file, in order.

Its methods are proved against the functions of `Sessions` and against a
reference pass on values: `StepState` and `StepOutput` say what one row does to
the state `(dic_ips, obs, lastTime)` and what it writes, and `PassAfter` and
`PassOutput` repeat them over a sequence of rows. The constructor establishes
the invariant `Valid()`: every session is well formed (`count >= 1`,
`dur == last - first + 1`) and the accounts above hold. `Fold`, `Expire`,
`Advance`, `Step` and `Feed` require it and keep it. `Drain` requires it and
ends with every session written. `CloseStale` and `CollectAll` require only the
accounts. `WriteToFile` and `WriteLines` need neither.

`Sessionizer.Sessionize` is the pass and the drain for a checked period.
`Sessionizer.Run` is the whole program on parsed rows. It checks the period,
runs `Sessionize`, and renders the written sessions with `CreateLine`.

Times are whole seconds since 0001-01-01 00:00:00. The source's start value
`lastTime = datetime(1,1,1)` (line 85) is that instant, so it is second 0.
The input format only admits whole seconds, so every time difference the
source computes with `total_seconds()` is an integer. The model uses integer
arithmetic throughout.

Facts about the source that the model keeps:

- Ranks start at 1: a new session gets `obs + 1` and `obs` starts at 0 (lines 83
  and 119).
- The start value of `lastTime` is the earliest instant the date format can
  name. The table is empty until the first valid row is folded in, so nothing
  depends on that value.
- The final drain does not empty the table. The open sessions are copied into
  the batch and `dic_ips` is left as it is (lines 133-138). `Drain` keeps the
  table and proves that every session ever opened is written exactly once.
- Rows that lack the date or time column are not skipped. Line 91 indexes the
  split row outside the `try`, so such a row stops the program.

## Model

| member | source | states |
|---|---|---|
| `Config.CheckPeriod` | src/Track_EDGAR.py:37-43 | the period is accepted exactly when 0 < period <= 86400, and is then used unchanged; otherwise the run fails with the offending value |
| `Output.NatToString` | src/Track_EDGAR.py:52 | `str()` of a count, or of a time as its count of seconds, is a non-empty run of decimal digits in canonical form: it starts with 0 only for 0 itself |
| `Output.IntToString` | src/Track_EDGAR.py:52 | `str()` of the duration contains no comma; it is canonical digits (a leading 0 only for 0), preceded by one '-' and a non-zero digit when negative |
| `Output.ParseIntToString` | src/Track_EDGAR.py:52 | reading back the decimal text of any integer gives that integer |
| `Output.CreateLineRoundTrip` | src/Track_EDGAR.py:48-53 | for an ip without commas, the line `ip,first,last,dur,count\n` parses back into exactly those five values, so a written line loses nothing |
| `Sessions.Survivors` | src/Track_EDGAR.py:107-112 | an expiry pass at `now` keeps exactly the ips whose gap `now - last` is at most the period, with their sessions unchanged |
| `Sessions.ExpiryBoundary` | src/Track_EDGAR.py:108 | a gap equal to the period keeps the session; a gap one second longer closes it and hands it to the output |
| `Sessions.ExpirySplits` | src/Track_EDGAR.py:107-112 | each open session either survives the pass or is written, never both; every written session is an open one, unchanged, whose ip is gone from the table |
| `Sessions.ExpiryIdempotent` | src/Track_EDGAR.py:107-112 | a second pass at the same instant removes nothing and leaves the table as it is |
| `Sessions.Open` | src/Track_EDGAR.py:118-119 | a new session has first = last = t, count 1, duration 1 and rank counter + 1, and is well formed |
| `Sessions.Extend` | src/Track_EDGAR.py:123-126 | extending a session sets last = t, adds one to count, keeps first and rank, and sets the inclusive duration t - first + 1 |
| `Sessions.Folded` | src/Track_EDGAR.py:117-126 | the fold adds the row's ip to the keys, opens a session for a new ip or extends the existing one, and leaves every other ip's session unchanged |
| `Sessions.NextCounter` | src/Track_EDGAR.py:117-120 | the rank counter grows by the number of ips the fold adds to the table: by one for a new ip, by none for a known one |
| `Sessions.FoldKeepsOrder` | src/Track_EDGAR.py:117-126 | with a row no earlier than every open session's last request, every session of the folded table still has first <= last <= t |
| `Bookkeeping.TallyOpen` | src/Track_EDGAR.py:117-120 | a new session with the next rank and one request keeps ranks 1..obs held once each and the counts summing to the valid rows |
| `Bookkeeping.TallyExtend` | src/Track_EDGAR.py:122-126 | replacing a session by its extension, with the same rank and one more request, keeps the tally with one more valid row |
| `Bookkeeping.TallyDistinct` | src/Track_EDGAR.py:119-120 | no two sessions opened in a run share a rank |
| `Bookkeeping.TallySum` | src/Track_EDGAR.py:124 | the request counts of all sessions opened add up to the number of valid rows folded in |
| `Bookkeeping.SeqSumBag` | src/Track_EDGAR.py:61 | the total count of written sessions does not depend on the order they are written in |
| `Bookkeeping.TallyDrained` | src/Track_EDGAR.py:133-138 | once nothing is open, the written sessions number obs, hold pairwise distinct ranks in 1..obs, and their counts add up to the valid rows |
| `Sorting.Insert` | src/Track_EDGAR.py:61 | moving one entry down into a rank-sorted prefix leaves that prefix one longer and sorted, permutes the array and leaves the rest alone |
| `Sorting.SortByRank` | src/Track_EDGAR.py:61 | the batch is sorted in place by ascending rank and is a permutation of what it was |
| `Sorting.SortedBatch` | src/Track_EDGAR.py:61 | a set of sessions laid out in rank order: a sorted sequence holding each session of the set once |
| `Sorting.SortedBatchUnique` | src/Track_EDGAR.py:61 | when no two sessions share a rank, every rank-sorted arrangement of the set is `SortedBatch` of it, so the order of a written batch is fully determined |
| `Sessionizer.Sessionizer.constructor` | src/Track_EDGAR.py:83-85 | the pass starts with an empty table, rank counter 0, clock at second 0 and nothing written, so nothing is stale |
| `Sessionizer.Sessionizer.WriteToFile` | src/Track_EDGAR.py:55-63 | a batch is appended to the output, sorted by rank and as a permutation of the batch; nothing else changes |
| `Sessionizer.Sessionizer.WriteLines` | src/Track_EDGAR.py:62-63 | the sorted records are appended to the output one by one, in their order |
| `Sessionizer.Sessionizer.CloseStale` | src/Track_EDGAR.py:107-112 | the loop over the ips deletes exactly the stale sessions from the table and collects exactly those, and nothing is lost from the accounts |
| `Sessionizer.Sessionizer.Expire` | src/Track_EDGAR.py:104-113 | the table becomes its survivors; the output grows by exactly `SortedBatch` of the expired sessions, in rank order; the counters stay put, the invariant holds and ordered sessions stay ordered |
| `Sessionizer.Sessionizer.Fold` | src/Track_EDGAR.py:117-126 | the table and counter become the fold of the row, and the counter never decreases; a new ip's session outranks every session opened before it, open or written; one more valid row is accounted for; with a row no earlier than the clock, the sessions stay ordered |
| `Sessionizer.Sessionizer.Advance` | src/Track_EDGAR.py:103-129 | a valid row at t writes `SortedBatch` of the expired sessions only when t differs from the last valid time, then folds the row into the live table and moves the clock to t; when nothing was stale before, the row extends its ip's session exactly when it comes within the period of that session's last request, opens a new one otherwise, and leaves nothing stale |
| `Sessionizer.Sessionizer.Step` | src/Track_EDGAR.py:88-129 | the new table, counter and clock are `StepState` of the old ones, and the output grows by exactly `StepOutput`: nothing for a row whose time does not parse |
| `Sessionizer.Sessionizer.Feed` | src/Track_EDGAR.py:87-129 | after all rows the table, counter and clock are `PassAfter` of the old state, and the output grew by exactly `PassOutput`; the invariant holds, exactly the valid rows are accounted for, time-ordered input keeps every session ordered, and a pass that starts with nothing stale ends with nothing stale |
| `Sessionizer.Sessionizer.CollectAll` | src/Track_EDGAR.py:133-137 | the final loop copies every open session into the batch, each once |
| `Sessionizer.Sessionizer.Drain` | src/Track_EDGAR.py:133-138 | the output grows by exactly `SortedBatch` of the open sessions; afterwards every session ever opened has been written exactly once, with distinct ranks 1..obs and counts adding up to the valid rows |
| `Sessionizer.AccountedFold` | src/Track_EDGAR.py:117-126 | folding a row keeps every session well formed and the ranks and counts accounted, with one more row |
| `Sessionizer.AccountedMove` | src/Track_EDGAR.py:109-112 | closing a session moves it from the table to the output without changing the bag of all sessions |
| `Sessionizer.AccountedReorder` | src/Track_EDGAR.py:61 | writing a batch in another order keeps the accounts |
| `Sessionizer.AccountedDrained` | src/Track_EDGAR.py:133-138 | when nothing is open, any order of the collected sessions holds obs sessions with distinct ranks 1..obs, counts adding up to the valid rows, all well formed |
| `Sessionizer.ExpireKeepsOrder` | src/Track_EDGAR.py:107-113 | the sessions an expiry pass writes come from the ordered table, so every written session has first <= last |
| `Sessionizer.DrainKeepsOrder` | src/Track_EDGAR.py:133-138 | the sessions the drain writes have first <= last when the table was ordered |
| `Sessionizer.DrainOutcome` | src/Track_EDGAR.py:133-138 | a rank-sorted arrangement of the drained sessions is `SortedBatch` of the open table, and after it every session is written |
| `Sessionizer.AccountedDistinct` | src/Track_EDGAR.py:119-120 | the open sessions of an accounted table hold pairwise distinct ranks |
| `Sessionizer.RanksBelow` | src/Track_EDGAR.py:119-120 | no session, open or written, has a rank above the counter |
| `Sessionizer.FoldOutranks` | src/Track_EDGAR.py:117-120 | the session a new ip opens outranks every session opened before it, open or written |
| `Sessionizer.ExpiredDistinct` | src/Track_EDGAR.py:107-112 | the sessions one expiry pass closes are open ones, so their ranks are distinct too |
| `Sessionizer.ValidCount` | src/Track_EDGAR.py:94-99 | the number of rows that pass the time check is at most the number of rows |
| `Sessionizer.StepState` | src/Track_EDGAR.py:94-129 | one row leaves the state alone when its time does not parse; a valid row at t moves the clock to t, holds the row's ip with last = t, and raises the counter by at most one |
| `Sessionizer.PassAfter` | src/Track_EDGAR.py:87-129 | after a sequence of rows the counter has grown by at most the number of valid rows |
| `Sessionizer.PassIps` | src/Track_EDGAR.py:109-119 | a pass only opens and writes sessions for the ips of its rows |
| `Sessionizer.FoldWithinPeriod` | src/Track_EDGAR.py:103-126 | from a state where no open session is stale, the row's ip continues its session exactly when the row comes within the period of its last request and starts a new session otherwise; afterwards no open session is stale at the new clock |
| `Sessionizer.StepKeepsNoneStale` | src/Track_EDGAR.py:94-129 | any row, valid or not, keeps every open session within the period of the clock |
| `Sessionizer.PassNoneStale` | src/Track_EDGAR.py:87-129 | after any sequence of rows, in any order, no open session is stale: every open session's last request lies within the period of the clock |
| `Sessionizer.Lines` | src/Track_EDGAR.py:62-63 | one line per written session, in the same order, each its `CreateLine` |
| `Sessionizer.LinesParse` | src/Track_EDGAR.py:48-53 | when no ip holds a comma, every written line parses back into its session's ip, first, last, dur and count |
| `Sessionizer.RunReadsBack` | src/Track_EDGAR.py:71-138 | every session of a whole run belongs to an ip of the rows, and when no row's ip holds a comma every line reads back as its session |
| `Sessionizer.RunOutcome` | src/Track_EDGAR.py:133-138 | a whole run writes no more lines than valid rows, and none exactly when no row is valid; ranks of written sessions are distinct and within 1..number written |
| `Sessionizer.Sessionize` | src/Track_EDGAR.py:71-138 | the sessions written are the batches of the reference pass followed by `SortedBatch` of the final table; every session opened is written once, and for time-ordered input each has first <= last |
| `Sessionizer.Run` | src/Track_EDGAR.py:37-138 | a period outside 1..86400 fails before any row is read; otherwise the sessions written are the batches of the pass followed by the drained table, each in rank order, and the lines are their `CreateLine`s; their counts add up to the valid rows, their ranks are distinct, every ip is one of the rows', every line parses back when no ip holds a comma, and for time-ordered input every session has first <= last |
| `Example.WorkedExample` | src/Track_EDGAR.py:87-138 | with period 5, requests from a at t0, t0 + 3 and t0 + 20 and from b at t0 + 4 write three lines: a from t0 to t0 + 3 with two requests and duration 4, then b, then a again with rank 3 |

## Left out

- Command-line arguments and default paths (lines 17-25) are configuration plumbing.
- All file I/O is left out: reading the period file and the rows, and opening, writing and closing the output (lines 30-32, 46, 63, 74, 87, 141). Writing is appending to the sequence `out`.
- `int()` on the period file (line 31) is not modelled. `CheckPeriod` takes the already-converted integer.
- The header lookup with `split`, `lower` and `index` (lines 75-80) is not modelled; its failure is an uncaught library exception.
- `strptime` (line 95) is a foreign call and is left out. A row reaches the model as `Row(ip, time)`, with the time already parsed into seconds, or `None` when the date or time does not parse.
- The `IndexError` on a row with too few fields (line 91) is left out, since rows reach the model already split.
- Times are written as their count of seconds, not as `str(datetime)`'s `YYYY-MM-DD HH:MM:SS` (line 52). The round trip is proved for that decimal rendering only.
- The `print` and `sys.exit` diagnostics (lines 34-36, 41-43, 97) are left out. A bad period is a `Failure` result instead.
- `total_seconds()` returns a float (lines 108, 125). The model uses integer seconds, which is exact at the input's one-second resolution.
- Dictionary iteration order (lines 107, 134) is not modelled. The expiry and drain loops visit the ips in an arbitrary order. Every rank is held by one session, so the sorted batch does not depend on that order; and since no two ranks tie, whether the sort is stable does not matter either.
- `Sessions.Live` (line 103) is the table a row is folded into. It has no contract of its own; `Step` and `Advance` state what it means.
- `Output.CreateLine` (lines 48-53) carries no contract of its own. What it promises is stated by `CreateLineRoundTrip`.
- `Sessionizer.StepOutput` and `Sessionizer.PassOutput` are the reference definitions of what a row and a sequence of rows write. They carry no contract of their own; `Step`, `Feed` and `Sessionize` tie the methods to them, and `PassIps` states what they write.
