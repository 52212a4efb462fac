/** The statistics context: the state held by the statistics provider, its
    reducer over five action kinds, and the five-minute cache of per-day
    aggregates (src/context/StatisticsContext.js). */
module StatisticsContext {
  import opened Teams

  /** Who leads a day: a single team, or the tie sentinel "BERABERE". */
  datatype Leader = Leading(team: Team) | Berabere {
    function Label(): string {
      match this
      case Leading(t) => t.Name()
      case Berabere => "BERABERE"
    }
  }

  datatype Winner = Winner(team: Leader, score: int)

  /** The aggregate shown for one day: per-team sums and the winner. */
  datatype DailyStats = DailyStats(gs: int, fb: int, ts: int, winner: Winner)

  /** A cached aggregate and the instant (milliseconds) it was stored. */
  datatype CacheEntry = CacheEntry(data: DailyStats, timestamp: int)

  datatype State = State(
    selectedDate: string,
    dailyStats: DailyStats,
    loading: bool,
    error: Option<string>,
    cache: map<string, CacheEntry>)

  /** The five action kinds, plus any other `type` string, which the reducer ignores.
      `UpdateCache` with `data == None` is the source's `data: null` (a delete). */
  datatype Action =
    | SetDate(date: string)
    | SetStats(stats: DailyStats)
    | SetLoading(flag: bool)
    | SetError(message: Option<string>)
    | UpdateCache(key: string, data: Option<DailyStats>)
    | Unrecognized(kind: string)

  /** The state fields, for saying which one an action leaves free. */
  datatype Field = SelectedDateField | DailyStatsField | LoadingField | ErrorField | CacheField

  /** Every field of `s` and `r` other than `f` agrees. */
  predicate SameExcept(s: State, r: State, f: Field) {
    && (f != SelectedDateField ==> r.selectedDate == s.selectedDate)
    && (f != DailyStatsField ==> r.dailyStats == s.dailyStats)
    && (f != LoadingField ==> r.loading == s.loading)
    && (f != ErrorField ==> r.error == s.error)
    && (f != CacheField ==> r.cache == s.cache)
  }

  /** The freshness window: five minutes in milliseconds. */
  const FreshWindow: int := 5 * 60 * 1000

  const ZeroStats: DailyStats := DailyStats(0, 0, 0, Winner(Berabere, 0))

  /** The provider's initial state; `today` is the formatted current day. */
  function InitialState(today: string): (s: State)
    ensures s.selectedDate == today
    ensures s.dailyStats.gs == 0 && s.dailyStats.fb == 0 && s.dailyStats.ts == 0
    ensures s.dailyStats.winner.team.Label() == "BERABERE" && s.dailyStats.winner.score == 0
    ensures !s.loading && s.error.None? && |s.cache| == 0
  {
    State(today, ZeroStats, false, None, map[])
  }

  /** The reducer. `now` is the clock reading `Date.now()` would give; only a
      cache insertion consults it. */
  function Reduce(s: State, a: Action, now: int): (r: State)
    ensures a.SetDate? ==> SameExcept(s, r, SelectedDateField) && r.selectedDate == a.date
    ensures a.SetStats? ==> SameExcept(s, r, DailyStatsField) && r.dailyStats == a.stats
    ensures a.SetLoading? ==> SameExcept(s, r, LoadingField) && r.loading == a.flag
    ensures a.SetError? ==> SameExcept(s, r, ErrorField) && r.error == a.message
    ensures a.UpdateCache? ==> SameExcept(s, r, CacheField)
    ensures a.UpdateCache? && a.data.Some? ==>
      && r.cache.Keys == s.cache.Keys + {a.key}
      && r.cache[a.key] == CacheEntry(a.data.value, now)
    ensures a.UpdateCache? && a.data.None? ==> r.cache.Keys == s.cache.Keys - {a.key}
    ensures a.UpdateCache? ==>
      forall k :: k in s.cache && k != a.key ==> k in r.cache && r.cache[k] == s.cache[k]
    ensures a.UpdateCache? && a.data.None? && a.key !in s.cache ==> r == s
    ensures a.Unrecognized? ==> r == s
  {
    match a
    case SetDate(d) => s.(selectedDate := d)
    case SetStats(st) => s.(dailyStats := st)
    case SetLoading(b) => s.(loading := b)
    case SetError(e) => s.(error := e)
    case UpdateCache(key, data) =>
      var newCache :=
        if data.None? then s.cache - {key}
        else s.cache[key := CacheEntry(data.value, now)];
      s.(cache := newCache)
    case Unrecognized(_) => s
  }

  /** Only a cache insertion reads the clock: for every other action the
      reducer's result does not depend on `now`. */
  lemma ReduceReadsClockOnlyForInsert(s: State, a: Action, now: int, now': int)
    requires !(a.UpdateCache? && a.data.Some?)
    ensures Reduce(s, a, now) == Reduce(s, a, now')
  {
  }

  /** `setDate`: dispatch `SET_DATE` only when the day actually changes.
      `SET_DATE` does not read the clock, so any reading will do. */
  function SelectDate(s: State, date: string): (r: State)
    ensures r.selectedDate == date && SameExcept(s, r, SelectedDateField)
    ensures s.selectedDate == date ==> r == s
  {
    if s.selectedDate != date then Reduce(s, SetDate(date), 0) else s
  }

  /** Selecting the same day twice is the same as selecting it once. */
  lemma SelectDateIdempotent(s: State, date: string)
    ensures SelectDate(SelectDate(s, date), date) == SelectDate(s, date)
  {
  }

  /** An entry is served only while at most `FreshWindow` old: one exactly
      five minutes old is still fresh. */
  predicate Fresh(s: State, key: string, now: int) {
    key in s.cache && now - s.cache[key].timestamp <= FreshWindow
  }

  /** `getCachedData`: the cached aggregate for `key` and the state after the
      call, in which a stale entry has been evicted. */
  function Lookup(s: State, key: string, now: int): (res: (Option<DailyStats>, State))
    ensures res.0.Some? <==> Fresh(s, key, now)
    ensures Fresh(s, key, now) ==> res == (Some(s.cache[key].data), s)
    ensures key !in s.cache ==> res == (None, s)
    ensures key in s.cache && !Fresh(s, key, now) ==>
      && SameExcept(s, res.1, CacheField)
      && res.1.cache.Keys == s.cache.Keys - {key}
      && forall k :: k in res.1.cache ==> res.1.cache[k] == s.cache[k]
  {
    if key !in s.cache then (None, s)
    else if now - s.cache[key].timestamp > FreshWindow then
      (None, Reduce(s, UpdateCache(key, None), now))
    else (Some(s.cache[key].data), s)
  }

  /** The provider: holds the reducer's state and replaces it on every dispatch. */
  class StatisticsProvider {
    var state: State

    constructor (today: string)
      ensures state == InitialState(today)
    {
      state := InitialState(today);
    }

    method Dispatch(a: Action, now: int)
      modifies this
      ensures state == Reduce(old(state), a, now)
    {
      state := Reduce(state, a, now);
    }

    method SetDate(date: string)
      modifies this
      ensures state == SelectDate(old(state), date)
      ensures old(state).selectedDate == date ==> state == old(state)
    {
      if state.selectedDate != date {
        Dispatch(Action.SetDate(date), 0);
      }
    }

    method GetCachedData(key: string, now: int) returns (r: Option<DailyStats>)
      modifies this
      ensures (r, state) == Lookup(old(state), key, now)
    {
      if key !in state.cache {
        return None;
      }
      var cached := state.cache[key];
      if now - cached.timestamp > FreshWindow {
        Dispatch(UpdateCache(key, None), now);
        return None;
      }
      r := Some(cached.data);
    }
  }
}
