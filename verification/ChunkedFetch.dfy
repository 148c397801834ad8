/** _fetch_chunked of backtest/run_diagnostic_backtest.py: a date range fetched in windows of
    thirty days, with retries for rate limiting.  Dates are integers.
 */
module ChunkedFetch {
  import opened Basics
  import opened Resampler

  const CHUNK_DAYS: int := 30
  const MAX_RETRIES: int := 3

  /** One call of get_historical_candles: rows, or an exception that is or is not a rate limit. */
  datatype Answer = Rows(rows: seq<Bar>) | Raised(rateLimited: bool)

  /** What the broker answers for a window on a given attempt. */
  type Broker = (int, int, int) -> Answer

  datatype Chunk = Chunk(start: int, end: int)

  // ---------------------------------------------------------------- windows

  function Windows(from: int, upto: int): seq<Chunk>
    decreases upto - from
  {
    if from > upto then []
    else
      var end := if from + CHUNK_DAYS - 1 <= upto then from + CHUNK_DAYS - 1 else upto;
      [Chunk(from, end)] + Windows(end + 1, upto)
  }

  /** Consecutive disjoint windows of one to thirty days, from the first day to the last. */
  lemma {:induction false} WindowsPartition(from: int, upto: int)
    ensures var ws := Windows(from, upto);
      && (from <= upto ==> ws != [] && ws[0].start == from && Last(ws).end == upto && |ws| == (upto - from) / 30 + 1)
      && (from > upto ==> ws == [])
      && (forall i :: 0 <= i < |ws| ==> 1 <= ws[i].end - ws[i].start + 1 <= 30)
      && (forall i :: 0 < i < |ws| ==> ws[i].start == ws[i - 1].end + 1)
    decreases upto - from
  {
    if from <= upto {
      var end := if from + CHUNK_DAYS - 1 <= upto then from + CHUNK_DAYS - 1 else upto;
      WindowsPartition(end + 1, upto);
      assert Windows(from, upto)[1..] == Windows(end + 1, upto);
    }
  }

  predicate HasDay(w: Chunk, day: int) { w.start <= day <= w.end }

  lemma {:induction false} WindowsOrdered(from: int, upto: int)
    ensures forall i, j :: 0 <= i < j < |Windows(from, upto)| ==> Windows(from, upto)[i].end < Windows(from, upto)[j].start
    ensures forall i :: 0 <= i < |Windows(from, upto)| ==> from <= Windows(from, upto)[i].start
    decreases upto - from
  {
    if from <= upto {
      var end := if from + CHUNK_DAYS - 1 <= upto then from + CHUNK_DAYS - 1 else upto;
      WindowsOrdered(end + 1, upto);
      assert Windows(from, upto)[1..] == Windows(end + 1, upto);
    }
  }

  /** Every day of the range lies in exactly one window, and no window has any other day. */
  lemma {:induction false} EachDayOnce(from: int, upto: int, day: int)
    ensures (exists i :: 0 <= i < |Windows(from, upto)| && HasDay(Windows(from, upto)[i], day)) <==> from <= day <= upto
    ensures forall i, j ::
      (&& 0 <= i < |Windows(from, upto)| && 0 <= j < |Windows(from, upto)|
       && HasDay(Windows(from, upto)[i], day) && HasDay(Windows(from, upto)[j], day)) ==> i == j
    decreases upto - from
  {
    WindowsOrdered(from, upto);
    var ws := Windows(from, upto);
    forall i, j | 0 <= i < |ws| && 0 <= j < |ws| && HasDay(ws[i], day) && HasDay(ws[j], day) ensures i == j {
      assert !(i < j) && !(j < i);
    }
    if from <= upto {
      var end := if from + CHUNK_DAYS - 1 <= upto then from + CHUNK_DAYS - 1 else upto;
      EachDayOnce(end + 1, upto, day);
      assert ws[1..] == Windows(end + 1, upto);
      if from <= day <= end {
        assert HasDay(ws[0], day);
      } else if end < day <= upto {
        var i :| 0 <= i < |Windows(end + 1, upto)| && HasDay(Windows(end + 1, upto)[i], day);
        assert HasDay(ws[i + 1], day);
      }
      forall i | 0 <= i < |ws| && HasDay(ws[i], day) ensures from <= day <= upto {
        if i > 0 { assert HasDay(Windows(end + 1, upto)[i - 1], day); }
      }
    }
  }

  // ---------------------------------------------------------------- one window

  /** Rows and number of calls for a window, from the given attempt on. */
  function FetchWindow(broker: Broker, w: Chunk, attempt: int): (r: (seq<Bar>, nat))
    requires 1 <= attempt <= MAX_RETRIES + 1
    decreases MAX_RETRIES + 1 - attempt
  {
    match broker(w.start, w.end, attempt)
    case Rows(rows) => (rows, 1)
    case Raised(rateLimited) =>
      if rateLimited && attempt <= MAX_RETRIES then
        var rest := FetchWindow(broker, w, attempt + 1);
        (rest.0, rest.1 + 1)
      else ([], 1)
  }

  /** Attempt `k` answers with rows after nothing but rate limits. */
  predicate SucceedsAt(broker: Broker, w: Chunk, k: int) {
    && 1 <= k <= 4 && broker(w.start, w.end, k).Rows?
    && forall j :: 1 <= j < k ==> broker(w.start, w.end, j) == Raised(true)
  }

  lemma FetchFrom(broker: Broker, w: Chunk, attempt: int)
    requires 1 <= attempt <= MAX_RETRIES + 1
    requires forall j :: 1 <= j < attempt ==> broker(w.start, w.end, j) == Raised(true)
    ensures var r := FetchWindow(broker, w, attempt);
      && 1 <= r.1 <= MAX_RETRIES + 2 - attempt
      && (forall k :: SucceedsAt(broker, w, k) ==> r == (broker(w.start, w.end, k).rows, (k - attempt + 1) as nat) && k >= attempt)
      && ((forall k :: !SucceedsAt(broker, w, k)) ==> r.0 == [])
    decreases MAX_RETRIES + 1 - attempt
  {
    var a := broker(w.start, w.end, attempt);
    if a.Rows? {
      assert SucceedsAt(broker, w, attempt);
    } else if a.rateLimited && attempt <= MAX_RETRIES {
      FetchFrom(broker, w, attempt + 1);
    }
  }

  /** A window yields the rows of the first attempt that is not rate limited, among four, and
      nothing when that attempt fails or all four are rate limited. */
  lemma WindowIsFirstSuccess(broker: Broker, w: Chunk)
    ensures var (rows, calls) := FetchWindow(broker, w, 1);
      && 1 <= calls <= 4
      && (forall k :: SucceedsAt(broker, w, k) ==> rows == broker(w.start, w.end, k).rows && calls == k)
      && ((forall k :: !SucceedsAt(broker, w, k)) ==> rows == [])
  {
    FetchFrom(broker, w, 1);
  }

  // ---------------------------------------------------------------- stable sort by time

  function Insert(s: seq<Bar>, x: Bar): seq<Bar> {
    if s == [] || Last(s).time <= x.time then s + [x] else Insert(Front(s), x) + [Last(s)]
  }

  /** What list.sort(key=time) returns. */
  function SortByTime(bars: seq<Bar>): seq<Bar> {
    if bars == [] then [] else Insert(SortByTime(Front(bars)), Last(bars))
  }

  function AtTime(bars: seq<Bar>, t: int): seq<Bar> {
    if bars == [] then []
    else if Last(bars).time == t then AtTime(Front(bars), t) + [Last(bars)]
    else AtTime(Front(bars), t)
  }

  lemma AppendSorted(s: seq<Bar>, x: Bar)
    requires Chronological(s) && (s != [] ==> Last(s).time <= x.time)
    ensures Chronological(s + [x])
  {
    assert forall i :: 0 <= i < |s| ==> s[i].time <= Last(s).time;
  }

  lemma {:induction false} InsertSorted(s: seq<Bar>, x: Bar)
    requires Chronological(s)
    ensures Chronological(Insert(s, x)) && multiset(Insert(s, x)) == multiset(s) + multiset{x}
    ensures Last(Insert(s, x)).time == if s == [] || Last(s).time <= x.time then x.time else Last(s).time
  {
    if s != [] && Last(s).time > x.time {
      InsertSorted(Front(s), x);
      AppendSorted(Insert(Front(s), x), Last(s));
      assert s == Front(s) + [Last(s)];
    } else {
      AppendSorted(s, x);
    }
  }

  lemma {:induction false} InsertStable(s: seq<Bar>, x: Bar, t: int)
    requires Chronological(s)
    ensures AtTime(Insert(s, x), t) == if x.time == t then AtTime(s, t) + [x] else AtTime(s, t)
  {
    if s != [] && Last(s).time > x.time {
      InsertStable(Front(s), x, t);
      assert Front(Insert(s, x)) == Insert(Front(s), x);
      if x.time == t { NoneAt(s, t); }
    } else {
      assert Front(s + [x]) == s;
    }
  }

  lemma NoneAt(s: seq<Bar>, t: int)
    requires s != [] && Last(s).time > t
    ensures AtTime(s, t) == AtTime(Front(s), t)
  {
  }

  /** The sorted rows are a chronological permutation, and rows of equal time keep their order. */
  lemma {:induction false} SortIsStable(bars: seq<Bar>)
    ensures Chronological(SortByTime(bars)) && multiset(SortByTime(bars)) == multiset(bars)
    ensures forall t :: AtTime(SortByTime(bars), t) == AtTime(bars, t)
  {
    if bars != [] {
      SortIsStable(Front(bars));
      assert bars == Front(bars) + [Last(bars)];
      InsertSorted(SortByTime(Front(bars)), Last(bars));
      forall t ensures AtTime(SortByTime(bars), t) == AtTime(bars, t) {
        InsertStable(SortByTime(Front(bars)), Last(bars), t);
      }
    }
  }

  // ---------------------------------------------------------------- the whole fetch

  /** The rows of all windows, in window order. */
  function AllRows(broker: Broker, ws: seq<Chunk>): seq<Bar> {
    if ws == [] then [] else AllRows(broker, Front(ws)) + FetchWindow(broker, Last(ws), 1).0
  }

  /** The rows of the one attempt that succeeds for a window, if any. */
  ghost function Answered(broker: Broker, w: Chunk): multiset<Bar> {
    if k :| SucceedsAt(broker, w, k) then multiset(broker(w.start, w.end, k).rows) else multiset{}
  }

  /** The rows of all windows, told by the broker's answers alone. */
  ghost function AllAnswered(broker: Broker, ws: seq<Chunk>): multiset<Bar> {
    if ws == [] then multiset{} else AllAnswered(broker, Front(ws)) + Answered(broker, Last(ws))
  }

  lemma {:induction false} RowsAreAnswered(broker: Broker, ws: seq<Chunk>)
    ensures multiset(AllRows(broker, ws)) == AllAnswered(broker, ws)
  {
    if ws != [] {
      RowsAreAnswered(broker, Front(ws));
      WindowIsFirstSuccess(broker, Last(ws));
    }
  }

  /** Some attempt that succeeds for the window answers with this row. */
  ghost predicate Answers(broker: Broker, w: Chunk, row: Bar) {
    exists k :: SucceedsAt(broker, w, k) && row in broker(w.start, w.end, k).rows
  }

  lemma AnsweredIff(broker: Broker, w: Chunk, row: Bar)
    ensures row in Answered(broker, w) <==> Answers(broker, w, row)
  {
    OnlyOneSucceeds(broker, w);
  }

  lemma AnswersSnoc(broker: Broker, front: seq<Chunk>, last: Chunk, row: Bar)
    ensures (exists i :: 0 <= i < |front + [last]| && Answers(broker, (front + [last])[i], row)) <==>
      (exists i :: 0 <= i < |front| && Answers(broker, front[i], row)) || Answers(broker, last, row)
  {
    var ws := front + [last];
    assert ws[|front|] == last;
    if i :| 0 <= i < |front| && Answers(broker, front[i], row) { assert ws[i] == front[i]; }
    if i :| 0 <= i < |ws| && Answers(broker, ws[i], row) { assert i < |front| ==> ws[i] == front[i]; }
  }

  /** Every row of every window that succeeds, and no other. */
  lemma {:induction false} AnsweredMembers(broker: Broker, ws: seq<Chunk>, row: Bar)
    ensures row in AllAnswered(broker, ws) <==> exists i :: 0 <= i < |ws| && Answers(broker, ws[i], row)
  {
    if ws != [] {
      AnsweredMembers(broker, Front(ws), row);
      AnsweredIff(broker, Last(ws), row);
      AnswersSnoc(broker, Front(ws), Last(ws), row);
      assert ws == Front(ws) + [Last(ws)];
    }
  }

  lemma OnlyOneSucceeds(broker: Broker, w: Chunk)
    ensures forall j, k :: SucceedsAt(broker, w, j) && SucceedsAt(broker, w, k) ==> j == k
  {
    forall j, k | SucceedsAt(broker, w, j) && SucceedsAt(broker, w, k) ensures j == k {
      assert !(j < k) && !(k < j);
    }
  }

  /** The retry loop of one window. */
  method FetchWithRetries(broker: Broker, w: Chunk) returns (candles: seq<Bar>, calls: nat)
    ensures (candles, calls) == FetchWindow(broker, w, 1)
    ensures 1 <= calls <= 4
  {
    candles, calls := [], 0;
    var attempt := 1;
    while attempt <= MAX_RETRIES + 1
      invariant 1 <= attempt <= MAX_RETRIES + 1 && calls == attempt - 1 && candles == []
      invariant FetchWindow(broker, w, 1) ==
        (FetchWindow(broker, w, attempt).0, FetchWindow(broker, w, attempt).1 + (attempt - 1) as nat)
      decreases MAX_RETRIES + 1 - attempt
    {
      var answer := broker(w.start, w.end, attempt);
      calls := calls + 1;
      if answer.Rows? {
        candles := answer.rows;
        break;
      }
      if answer.rateLimited && attempt <= MAX_RETRIES {
        attempt := attempt + 1;
        continue;
      }
      break;
    }
  }

  lemma SortedRows(broker: Broker, ws: seq<Chunk>)
    ensures Chronological(SortByTime(AllRows(broker, ws))) && multiset(SortByTime(AllRows(broker, ws))) == AllAnswered(broker, ws)
  {
    SortIsStable(AllRows(broker, ws));
    RowsAreAnswered(broker, ws);
  }

  /** The fetch loop: the stable time sort of what the windows that succeeded returned. */
  method FetchChunked(broker: Broker, from: int, upto: int) returns (all: seq<Bar>, chunkNum: nat, calls: nat)
    ensures all == SortByTime(AllRows(broker, Windows(from, upto)))
    ensures Chronological(all) && multiset(all) == AllAnswered(broker, Windows(from, upto))
    ensures chunkNum == |Windows(from, upto)|
    ensures chunkNum <= calls <= 4 * chunkNum
  {
    all := [];
    var chunkStart := from;
    chunkNum, calls := 0, 0;
    ghost var done: seq<Chunk> := [];
    while chunkStart <= upto
      invariant chunkNum == |done| <= calls <= (MAX_RETRIES + 1) * chunkNum
      invariant done + Windows(chunkStart, upto) == Windows(from, upto)
      invariant all == AllRows(broker, done)
      decreases upto - chunkStart
    {
      var chunkEnd := if chunkStart + CHUNK_DAYS - 1 <= upto then chunkStart + CHUNK_DAYS - 1 else upto;
      chunkNum := chunkNum + 1;
      var w := Chunk(chunkStart, chunkEnd);
      var candles, attempts := FetchWithRetries(broker, w);
      calls := calls + attempts;
      all := all + candles;
      assert Front(done + [w]) == done;
      done := done + [w];
      chunkStart := chunkEnd + 1;
    }
    assert done == Windows(from, upto);
    SortedRows(broker, done);
    all := SortByTime(all);
  }

  /** What the backtest relies on: both timeframes resampled from the fetched rows come out in
      strictly increasing time order, each counting every row once. */
  lemma FetchedRowsResample(broker: Broker, from: int, upto: int, inst: string)
    ensures var rows := SortByTime(AllRows(broker, Windows(from, upto)));
      && Chronological(rows)
      && OpensIncrease(Resample(inst, 3, rows)) && OpensIncrease(Resample(inst, 75, rows))
      && TotalCount(Resample(inst, 3, rows)) == TotalCount(Resample(inst, 75, rows)) == |AllAnswered(broker, Windows(from, upto))|
  {
    var raw := AllRows(broker, Windows(from, upto));
    SortIsStable(raw);
    RowsAreAnswered(broker, Windows(from, upto));
    assert |SortByTime(raw)| == |multiset(SortByTime(raw))| == |multiset(raw)| == |raw|;
    ResampleWellFormed(inst, 3, SortByTime(raw));
    ResampleWellFormed(inst, 75, SortByTime(raw));
  }
}
