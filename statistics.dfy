/** The statistics view's logic (src/components/Statistics.js): the winner
    rule, the per-day summing of score deltas, and the cache-first fetch whose
    late results are discarded once the request has been cleaned up. */
module Statistics {
  import opened Teams
  import opened StatisticsContext

  /** The largest of three counts, as `Math.max(gs, fb, ts)`. */
  function Max3(a: int, b: int, c: int): (m: int)
    ensures m >= a && m >= b && m >= c
    ensures m == a || m == b || m == c
  {
    if a >= b && a >= c then a else if b >= c then b else c
  }

  /** The count of team `t` among three per-team counts. */
  function CountOf(t: Team, gs: int, fb: int, ts: int): int {
    match t
    case GS => gs
    case FB => fb
    case TS => ts
  }

  /** Team `t` holds a strict maximum: its count exceeds both others. */
  predicate StrictlyLeads(t: Team, gs: int, fb: int, ts: int) {
    var c := CountOf(t, gs, fb, ts);
    && (t != GS ==> gs < c)
    && (t != FB ==> fb < c)
    && (t != TS ==> ts < c)
  }

  /** `calculateWinner`: a team wins exactly when it holds a strict maximum;
      otherwise (all zero included) the result is the tie sentinel. The score
      is always the largest of the three counts. */
  function CalculateWinner(gs: int, fb: int, ts: int): (w: Winner)
    ensures w.score == Max3(gs, fb, ts)
    ensures forall t: Team :: w.team == Leading(t) <==> StrictlyLeads(t, gs, fb, ts)
    ensures w.team == Berabere <==> forall t: Team :: !StrictlyLeads(t, gs, fb, ts)
    ensures gs == 0 && fb == 0 && ts == 0 ==> w == Winner(Berabere, 0)
  {
    if gs == 0 && fb == 0 && ts == 0 then Winner(Berabere, 0)
    else if gs > fb && gs > ts then Winner(Leading(GS), gs)
    else if fb > gs && fb > ts then Winner(Leading(FB), fb)
    else if ts > gs && ts > fb then Winner(Leading(TS), ts)
    else Winner(Berabere, Max3(gs, fb, ts))
  }

  /** Worked examples of the tie-break rule: ties at zero and at five, and a clear winner. */
  lemma WinnerExamples()
    ensures CalculateWinner(0, 0, 0) == Winner(Berabere, 0)
    ensures CalculateWinner(5, 5, 5) == Winner(Berabere, 5)
    ensures CalculateWinner(5, 5, 2) == Winner(Berabere, 5)
    ensures CalculateWinner(7, 3, 2) == Winner(Leading(GS), 7)
    ensures CalculateWinner(3, 7, 2) == Winner(Leading(FB), 7)
    ensures CalculateWinner(2, 3, 7) == Winner(Leading(TS), 7)
  {
  }

  /** The delta fields of a score document as the query returns it; a field
      may be missing. */
  datatype ScoreDoc = ScoreDoc(gsDelta: Option<int>, fbDelta: Option<int>, tsDelta: Option<int>)

  /** `data.<team>_delta || 0`. */
  function DeltaOf(d: ScoreDoc, t: Team): (v: int)
    ensures t == GS ==> v == (if d.gsDelta.Some? then d.gsDelta.value else 0)
    ensures t == FB ==> v == (if d.fbDelta.Some? then d.fbDelta.value else 0)
    ensures t == TS ==> v == (if d.tsDelta.Some? then d.tsDelta.value else 0)
  {
    match t
    case GS => d.gsDelta.GetOr(0)
    case FB => d.fbDelta.GetOr(0)
    case TS => d.tsDelta.GetOr(0)
  }

  /** The day total of team `t`: the sum of its deltas over the documents. */
  function DaySum(docs: seq<ScoreDoc>, t: Team): int {
    if docs == [] then 0 else DaySum(docs[..|docs| - 1], t) + DeltaOf(docs[|docs| - 1], t)
  }

  /** The aggregate the fetch computes for a list of documents (`newStats`):
      the three day sums, and a winner that leads strictly exactly when its
      sum is the unique largest, scored with the largest sum. */
  function Aggregate(docs: seq<ScoreDoc>): (r: DailyStats)
    ensures r.gs == DaySum(docs, GS) && r.fb == DaySum(docs, FB) && r.ts == DaySum(docs, TS)
    ensures r.winner.score == Max3(r.gs, r.fb, r.ts)
    ensures forall t: Team :: r.winner.team == Leading(t) <==> StrictlyLeads(t, r.gs, r.fb, r.ts)
  {
    var gs := DaySum(docs, GS);
    var fb := DaySum(docs, FB);
    var ts := DaySum(docs, TS);
    DailyStats(gs, fb, ts, CalculateWinner(gs, fb, ts))
  }

  lemma {:induction false} DaySumConcat(u: seq<ScoreDoc>, v: seq<ScoreDoc>, t: Team)
    ensures DaySum(u + v, t) == DaySum(u, t) + DaySum(v, t)
    decreases |v|
  {
    if v == [] {
      assert u + v == u;
    } else {
      var w := v[..|v| - 1];
      assert (u + v)[..|u + v| - 1] == u + w;
      assert (u + v)[|u + v| - 1] == v[|v| - 1];
      DaySumConcat(u, w, t);
    }
  }

  /** Taking one document out of the list takes its delta out of the sum. */
  lemma DaySumRemove(docs: seq<ScoreDoc>, j: nat, t: Team)
    requires j < |docs|
    ensures DaySum(docs, t) == DaySum(docs[..j] + docs[j + 1..], t) + DeltaOf(docs[j], t)
  {
    assert docs == docs[..j] + ([docs[j]] + docs[j + 1..]);
    DaySumConcat(docs[..j], [docs[j]] + docs[j + 1..], t);
    DaySumConcat([docs[j]], docs[j + 1..], t);
    DaySumConcat(docs[..j], docs[j + 1..], t);
    assert DaySum([docs[j]], t) == DeltaOf(docs[j], t) by {
      assert [docs[j]][..0] == [];
    }
  }

  /** Removing the element at `j` removes one occurrence of it from the multiset. */
  lemma MultisetWithout(b: seq<ScoreDoc>, j: nat)
    requires j < |b|
    ensures multiset(b[..j] + b[j + 1..]) == multiset(b) - multiset([b[j]])
  {
    assert b == b[..j] + [b[j]] + b[j + 1..];
  }

  /** The day totals do not depend on the order the query returns documents in. */
  lemma {:induction false} DaySumPermutation(a: seq<ScoreDoc>, b: seq<ScoreDoc>, t: Team)
    requires multiset(a) == multiset(b)
    ensures DaySum(a, t) == DaySum(b, t)
    decreases |a|
  {
    if a == [] {
      assert |b| == |multiset(b)| == 0;
    } else {
      var n := |a| - 1;
      var x := a[n];
      assert x in b by {
        assert x in multiset(a);
      }
      var j :| 0 <= j < |b| && b[j] == x;
      var a', b' := a[..n], b[..j] + b[j + 1..];
      assert a' == a[..n] + a[n + 1..];
      MultisetWithout(a, n);
      MultisetWithout(b, j);
      DaySumPermutation(a', b', t);
      DaySumRemove(b, j, t);
      assert DaySum(a, t) == DaySum(a', t) + DeltaOf(x, t);
    }
  }

  lemma AggregateOrderIndependent(a: seq<ScoreDoc>, b: seq<ScoreDoc>)
    requires multiset(a) == multiset(b)
    ensures Aggregate(a) == Aggregate(b)
  {
    DaySumPermutation(a, b, GS);
    DaySumPermutation(a, b, FB);
    DaySumPermutation(a, b, TS);
  }

  /** The `snapshot.forEach` loop of `fetchData`: three running sums. */
  method SumDeltas(docs: seq<ScoreDoc>) returns (gs: int, fb: int, ts: int)
    ensures gs == DaySum(docs, GS) && fb == DaySum(docs, FB) && ts == DaySum(docs, TS)
  {
    gs, fb, ts := 0, 0, 0;
    var i := 0;
    while i < |docs|
      invariant 0 <= i <= |docs|
      invariant gs == DaySum(docs[..i], GS)
      invariant fb == DaySum(docs[..i], FB)
      invariant ts == DaySum(docs[..i], TS)
    {
      assert docs[..i + 1][..i] == docs[..i];
      var d := docs[i];
      gs := gs + d.gsDelta.GetOr(0);
      fb := fb + d.fbDelta.GetOr(0);
      ts := ts + d.tsDelta.GetOr(0);
      i := i + 1;
    }
    assert docs[..i] == docs;
  }

  /** The worked end-to-end example: a day with three Galatasaray increments
      and one Fenerbahçe increment aggregates to 3, 1, 0 with Galatasaray ahead. */
  lemma EndToEndExample()
    ensures
      var g := ScoreDoc(Some(1), Some(0), Some(0));
      var f := ScoreDoc(Some(0), Some(1), Some(0));
      Aggregate([g, f, g, g]) == DailyStats(3, 1, 0, Winner(Leading(GS), 3))
  {
    var g := ScoreDoc(Some(1), Some(0), Some(0));
    var f := ScoreDoc(Some(0), Some(1), Some(0));
    var docs := [g, f, g, g];
    assert docs[..3] == [g, f, g] && [g, f, g][..2] == [g, f] && [g, f][..1] == [g] && [g][..0] == [];
    forall t: Team
      ensures DaySum(docs, t) == CountOf(t, 3, 1, 0)
    {
      assert DaySum([g], t) == DeltaOf(g, t);
      assert DaySum([g, f], t) == DeltaOf(g, t) + DeltaOf(f, t);
      assert DaySum([g, f, g], t) == 2 * DeltaOf(g, t) + DeltaOf(f, t);
    }
    assert DaySum(docs, GS) == 3 && DaySum(docs, FB) == 1 && DaySum(docs, TS) == 0;
  }

  /** What the day query delivers: the matching documents, or a failure. */
  datatype QueryOutcome = Fetched(docs: seq<ScoreDoc>) | QueryFailed

  const LoadErrorMessage: string := "Veriler yüklenirken bir hata oluştu. Lütfen tekrar deneyin."

  /** The part of `fetchData` before the query is awaited: clear the error,
      consult the cache for the selected day; on a hit show the cached value
      and issue no query, on a miss raise `loading`. The boolean is whether a
      query is issued. */
  function Begin(s: State, now: int): (res: (bool, State))
    ensures !res.0 <==> Fresh(s, s.selectedDate, now)
    ensures !res.0 ==> res.1 == s.(error := None, dailyStats := s.cache[s.selectedDate].data)
    ensures res.0 ==>
      && res.1.selectedDate == s.selectedDate && res.1.dailyStats == s.dailyStats
      && res.1.loading && res.1.error == None
      && res.1.cache == s.cache - {s.selectedDate}
  {
    var key := s.selectedDate;
    var s1 := Reduce(s, SetError(None), now);
    var (cached, s2) := Lookup(s1, key, now);
    if cached.Some? then (false, Reduce(s2, SetStats(cached.value), now))
    else (true, Reduce(s2, SetLoading(true), now))
  }

  /** The part of `fetchData` after the query settles, for the day `key`.
      Nothing is written unless the request is still active. */
  function Finish(s: State, key: string, outcome: QueryOutcome, active: bool, now: int): (r: State)
    ensures !active ==> r == s
    ensures active && outcome.Fetched? ==>
      && r.cache == s.cache[key := CacheEntry(Aggregate(outcome.docs), now)]
      && r.dailyStats == Aggregate(outcome.docs)
      && r.cache[key].data == r.dailyStats
      && !r.loading && r.selectedDate == s.selectedDate && r.error == s.error
    ensures active && outcome.QueryFailed? ==>
      && r.cache == s.cache && r.error == Some(LoadErrorMessage)
      && !r.loading && r.selectedDate == s.selectedDate && r.dailyStats == s.dailyStats
  {
    if !active then s
    else
      var s1 :=
        match outcome
        case Fetched(docs) =>
          var stats := Aggregate(docs);
          Reduce(Reduce(s, UpdateCache(key, Some(stats)), now), SetStats(stats), now)
        case QueryFailed => Reduce(s, SetError(Some(LoadErrorMessage)), now);
      Reduce(s1, SetLoading(false), now)
  }

  /** Within the freshness window a second fetch of the same day issues no
      query and shows exactly what the first one computed. */
  lemma RefetchWithinWindowHitsCache(s: State, docs: seq<ScoreDoc>, t: int, t': int)
    requires t' - t <= FreshWindow
    ensures
      var s' := Finish(s, s.selectedDate, Fetched(docs), true, t);
      var (issued, s'') := Begin(s', t');
      !issued && s''.dailyStats == Aggregate(docs) && s''.cache == s'.cache
  {
  }

  /** Once the window has passed, a fetch of the day issues a new query,
      whatever the day's data. */
  lemma RefetchAfterWindowQueries(s: State, docs: seq<ScoreDoc>, t: int, t': int)
    requires t' - t > FreshWindow
    ensures
      var s' := Finish(s, s.selectedDate, Fetched(docs), true, t);
      Begin(s', t').0
  {
  }

  /** A stale entry is evicted before the query runs, so when that query
      fails the day is left with no cached value at all. */
  lemma FailedRefetchLeavesNoEntry(s: State, now: int, now': int)
    requires s.selectedDate in s.cache && !Fresh(s, s.selectedDate, now)
    ensures
      var (issued, s') := Begin(s, now);
      issued && s.selectedDate !in Finish(s', s.selectedDate, QueryFailed, true, now').cache
  {
  }

  /** Moving from a day whose query is still pending to a day with a fresh
      cache entry leaves `loading` raised: the cleaned-up request never runs
      its `finally`, and the cache-hit path does not clear the flag. */
  lemma SwitchToCachedDayKeepsLoading(s0: State, d2: string, o: QueryOutcome, t0: int, t1: int, now: int)
    requires d2 != s0.selectedDate && Fresh(s0, d2, now)
    requires Begin(s0, t0).0
    ensures
      var pending := Begin(s0, t0).1;
      var settled := Finish(SelectDate(pending, d2), s0.selectedDate, o, false, t1);
      var (issued, shown) := Begin(settled, now);
      !issued && shown.loading && shown.dailyStats == s0.cache[d2].data
  {
  }

  /** One pending day query: `isActive` is cleared by the effect's cleanup. */
  class FetchRequest {
    const key: string
    var isActive: bool

    constructor (key: string)
      ensures this.key == key && isActive
    {
      this.key := key;
      isActive := true;
    }

    /** The effect cleanup: `isActive = false`. */
    method Cleanup()
      modifies this
      ensures !isActive
    {
      isActive := false;
    }
  }

  /** `fetchData` up to `await getDocs(q)`. */
  method StartFetch(p: StatisticsProvider, now: int) returns (req: FetchRequest, issued: bool)
    modifies p
    ensures fresh(req) && req.isActive && req.key == old(p.state.selectedDate)
    ensures (issued, p.state) == Begin(old(p.state), now)
  {
    req := new FetchRequest(p.state.selectedDate);
    p.Dispatch(SetError(None), now);
    var cached := p.GetCachedData(req.key, now);
    if cached.Some? {
      p.Dispatch(SetStats(cached.value), now);
      return req, false;
    }
    p.Dispatch(SetLoading(true), now);
    issued := true;
  }

  /** `fetchData` from the settled query on: sum, pick the winner, and write
      the cache, the stats and `loading` only while the request is active. */
  method CompleteFetch(p: StatisticsProvider, req: FetchRequest, outcome: QueryOutcome, now: int)
    modifies p
    ensures p.state == Finish(old(p.state), req.key, outcome, req.isActive, now)
    ensures !req.isActive ==> p.state == old(p.state)
  {
    match outcome {
      case Fetched(docs) =>
        var gs, fb, ts := SumDeltas(docs);
        var winner := CalculateWinner(gs, fb, ts);
        var stats := DailyStats(gs, fb, ts, winner);
        if req.isActive {
          p.Dispatch(UpdateCache(req.key, Some(stats)), now);
          p.Dispatch(SetStats(stats), now);
        }
      case QueryFailed =>
        if req.isActive {
          p.Dispatch(SetError(Some(LoadErrorMessage)), now);
        }
    }
    if req.isActive {
      p.Dispatch(SetLoading(false), now);
    }
  }
}
