/** How the two halves meet through the store: the events the admin panel
    writes during one day, the collection they leave (keyed by timestamp id),
    and what the statistics view's day query then sums. */
module Pipeline {
  import opened Teams
  import opened Admin
  import opened Statistics
  import opened StatisticsContext

  /** The delta fields of a written event as the day query returns them. */
  function AsScoreDoc(e: ScoreEvent): ScoreDoc {
    ScoreDoc(Some(e.gsDelta), Some(e.fbDelta), Some(e.tsDelta))
  }

  /** The day query's view of a list of written events, position by position. */
  function Docs(es: seq<ScoreEvent>): (ds: seq<ScoreDoc>)
    ensures |ds| == |es|
    ensures forall i :: 0 <= i < |es| ==> ds[i] == AsScoreDoc(es[i])
  {
    if es == [] then [] else [AsScoreDoc(es[0])] + Docs(es[1..])
  }

  /** One admin click: the team and the instant of the click. */
  datatype Click = Click(team: Team, timestamp: nat)

  /** How many of the clicks were for team `t`. */
  function ClicksFor(clicks: seq<Click>, t: Team): nat {
    if clicks == [] then 0 else (if clicks[0].team == t then 1 else 0) + ClicksFor(clicks[1..], t)
  }

  /** The events written for a day's clicks, under the schedule in which the
      listener delivers each event before the next click: every event is
      built from the totals of the previous one. Each event is stamped with
      the day and its click's instant, and carries its click's team as the
      one-hot delta. */
  function Session(scores: Scores, clicks: seq<Click>, dayKey: string): (es: seq<ScoreEvent>)
    ensures |es| == |clicks|
    ensures forall i :: 0 <= i < |es| ==>
      && es[i].dayKey == dayKey && es[i].timestamp == clicks[i].timestamp
      && es[i].Delta(clicks[i].team) == 1
      && forall t: Team :: t != clicks[i].team ==> es[i].Delta(t) == 0
    decreases |clicks|
  {
    if clicks == [] then []
    else
      var e := MakeEvent(scores, clicks[0].team, clicks[0].timestamp, dayKey);
      [e] + Session(FromSnapshot(Stored(e)), clicks[1..], dayKey)
  }

  /** The day sum over an event followed by more events. */
  lemma DaySumOfFirstEvent(e: ScoreEvent, rest: seq<ScoreEvent>, t: Team)
    ensures DaySum(Docs([e] + rest), t) == e.Delta(t) + DaySum(Docs(rest), t)
  {
    var d := AsScoreDoc(e);
    assert ([e] + rest)[1..] == rest;
    assert Docs([e] + rest) == [d] + Docs(rest);
    DaySumConcat([d], Docs(rest), t);
    assert DaySum([d], t) == DeltaOf(d, t) by {
      assert [d][..0] == [];
    }
  }

  /** The day's aggregate counts each team's clicks. */
  lemma {:induction false} SessionDaySum(scores: Scores, clicks: seq<Click>, dayKey: string, t: Team)
    ensures DaySum(Docs(Session(scores, clicks, dayKey)), t) == ClicksFor(clicks, t)
    decreases |clicks|
  {
    if clicks != [] {
      var e := MakeEvent(scores, clicks[0].team, clicks[0].timestamp, dayKey);
      var next := FromSnapshot(Stored(e));
      var rest := Session(next, clicks[1..], dayKey);
      assert Session(scores, clicks, dayKey) == [e] + rest;
      DaySumOfFirstEvent(e, rest, t);
      SessionDaySum(next, clicks[1..], dayKey, t);
      assert e.Delta(t) == if clicks[0].team == t then 1 else 0;
    }
  }

  /** The totals in the last event written are the starting totals plus the
      clicks each team received: totals are running sums of deltas. */
  lemma {:induction false} SessionRunningTotals(scores: Scores, clicks: seq<Click>, dayKey: string, t: Team)
    requires clicks != []
    ensures
      var es := Session(scores, clicks, dayKey);
      es[|es| - 1].Total(t) == scores.Total(t) + ClicksFor(clicks, t)
    decreases |clicks|
  {
    var e := MakeEvent(scores, clicks[0].team, clicks[0].timestamp, dayKey);
    var next := FromSnapshot(Stored(e));
    assert next.Total(t) == e.Total(t);
    if |clicks| > 1 {
      SessionRunningTotals(next, clicks[1..], dayKey, t);
    } else {
      assert clicks[1..] == [];
    }
  }

  /** Aggregating a day's session names the team with the most clicks. */
  lemma SessionWinner(scores: Scores, clicks: seq<Click>, dayKey: string)
    ensures
      var agg := Aggregate(Docs(Session(scores, clicks, dayKey)));
      var gs, fb, ts := ClicksFor(clicks, GS), ClicksFor(clicks, FB), ClicksFor(clicks, TS);
      agg == DailyStats(gs, fb, ts, CalculateWinner(gs, fb, ts))
  {
    SessionDaySum(scores, clicks, dayKey, GS);
    SessionDaySum(scores, clicks, dayKey, FB);
    SessionDaySum(scores, clicks, dayKey, TS);
  }

  /** Without that schedule the totals are not running sums: two clicks for
      different teams, both built from the same displayed totals because the
      listener has not yet delivered the first event, leave the newest event
      without the first click in its total for the first team. */
  lemma StaleTotalsLoseEarlierClick(scores: Scores, first: Team, second: Team, t1: nat, t2: nat, dayKey: string)
    requires first != second
    ensures
      var clicks := [Click(first, t1), Click(second, t2)];
      var newest := MakeEvent(scores, second, t2, dayKey);
      && newest.Total(first) == scores.Total(first)
      && newest.Total(first) != scores.Total(first) + ClicksFor(clicks, first)
  {
    var clicks := [Click(first, t1), Click(second, t2)];
    assert clicks[1..][1..] == [];
  }

  /** A document of the score collection: its id and its fields. */
  datatype StoredDoc = StoredDoc(id: string, event: ScoreEvent)

  /** `setDoc(doc(db, 'scores', id), e)`: a new id adds a document at the
      end, and an id already present has its document replaced
      (`PutReplacesExisting`). */
  function Put(store: seq<StoredDoc>, id: string, e: ScoreEvent): (r: seq<StoredDoc>)
    ensures (forall k :: 0 <= k < |store| ==> store[k].id != id) ==> r == store + [StoredDoc(id, e)]
  {
    if store == [] then [StoredDoc(id, e)]
    else if store[0].id == id then [StoredDoc(id, e)] + store[1..]
    else [store[0]] + Put(store[1..], id, e)
  }

  /** Writing under an id already present replaces that document in place
      and leaves every other document as it was. */
  lemma {:induction false} PutReplacesExisting(store: seq<StoredDoc>, id: string, e: ScoreEvent, k: nat)
    requires k < |store| && store[k].id == id
    requires forall i :: 0 <= i < k ==> store[i].id != id
    ensures var r := Put(store, id, e);
      && |r| == |store| && r[k] == StoredDoc(id, e)
      && forall i :: 0 <= i < |store| && i != k ==> r[i] == store[i]
  {
    if k > 0 {
      PutReplacesExisting(store[1..], id, e, k - 1);
    }
  }

  /** The collection after writing the events in order, each under the id
      its timestamp gives. */
  function WriteAll(store: seq<StoredDoc>, es: seq<ScoreEvent>): seq<StoredDoc>
    decreases |es|
  {
    if es == [] then store else WriteAll(Put(store, DocId(es[0].timestamp), es[0]), es[1..])
  }

  /** The documents the collection holds. */
  function Events(store: seq<StoredDoc>): (es: seq<ScoreEvent>)
    ensures |es| == |store|
    ensures forall k :: 0 <= k < |store| ==> es[k] == store[k].event
  {
    seq(|store|, k requires 0 <= k < |store| => store[k].event)
  }

  /** No two events share a timestamp, hence a document id. */
  predicate DistinctInstants(es: seq<ScoreEvent>) {
    forall i, j :: 0 <= i < j < |es| ==> es[i].timestamp != es[j].timestamp
  }

  /** No id of the events is taken in the store. */
  predicate IdsFree(store: seq<StoredDoc>, es: seq<ScoreEvent>) {
    forall k, j :: 0 <= k < |store| && 0 <= j < |es| ==> store[k].id != DocId(es[j].timestamp)
  }

  /** Writing the first event adds its document at the end and keeps the
      other events' ids free. */
  lemma WriteFirstAppends(store: seq<StoredDoc>, es: seq<ScoreEvent>)
    requires es != [] && DistinctInstants(es) && IdsFree(store, es)
    ensures
      var d := StoredDoc(DocId(es[0].timestamp), es[0]);
      && Put(store, d.id, es[0]) == store + [d]
      && IdsFree(store + [d], es[1..])
      && DistinctInstants(es[1..])
      && Events(store + [d]) == Events(store) + [es[0]]
  {
    var d := StoredDoc(DocId(es[0].timestamp), es[0]);
    assert forall k :: 0 <= k < |store| ==> store[k].id != d.id by {
      assert forall k :: 0 <= k < |store| ==> store[k].id != DocId(es[0].timestamp);
    }
    var store' := store + [d];
    forall k, j | 0 <= k < |store'| && 0 <= j < |es[1..]|
      ensures store'[k].id != DocId(es[1..][j].timestamp)
    {
      if k == |store| {
        DocIdIdentifiesTimestamp(es[0], es[j + 1]);
      }
    }
  }

  /** Events with distinct instants, none of whose ids is already taken, are
      all kept: each write adds a document and none replaces another. */
  lemma {:induction false} DistinctWritesKeepAll(store: seq<StoredDoc>, es: seq<ScoreEvent>)
    requires DistinctInstants(es) && IdsFree(store, es)
    ensures Events(WriteAll(store, es)) == Events(store) + es
    decreases |es|
  {
    if es != [] {
      var d := StoredDoc(DocId(es[0].timestamp), es[0]);
      WriteFirstAppends(store, es);
      assert WriteAll(store, es) == WriteAll(store + [d], es[1..]);
      DistinctWritesKeepAll(store + [d], es[1..]);
      assert es == [es[0]] + es[1..];
      assert Events(store) + es == Events(store) + [es[0]] + es[1..];
    }
  }

  /** Two writes at the same instant leave one document: the later one. */
  lemma SameInstantWritesCollide(e1: ScoreEvent, e2: ScoreEvent)
    requires e1.timestamp == e2.timestamp
    ensures WriteAll([], [e1, e2]) == [StoredDoc(DocId(e2.timestamp), e2)]
  {
    var id := DocId(e1.timestamp);
    assert [e1, e2][1..] == [e2];
    assert [e2][1..] == [];
    assert Put([], id, e1) == [StoredDoc(id, e1)];
    assert Put([StoredDoc(id, e1)], id, e2) == [StoredDoc(id, e2)];
    assert WriteAll([], [e1, e2]) == WriteAll([StoredDoc(id, e1)], [e2]);
    assert WriteAll([StoredDoc(id, e1)], [e2]) == WriteAll([StoredDoc(id, e2)], []);
  }

  /** When a day's clicks fall at distinct instants, the day query of the
      collection they leave counts each team's clicks. */
  lemma StoredSessionDaySum(scores: Scores, clicks: seq<Click>, dayKey: string, t: Team)
    requires forall i, j :: 0 <= i < j < |clicks| ==> clicks[i].timestamp != clicks[j].timestamp
    ensures DaySum(Docs(Events(WriteAll([], Session(scores, clicks, dayKey)))), t) == ClicksFor(clicks, t)
  {
    var es := Session(scores, clicks, dayKey);
    DistinctWritesKeepAll([], es);
    assert Events([]) + es == es;
    SessionDaySum(scores, clicks, dayKey, t);
  }

  /** Two clicks for the same team in the same millisecond share an id, so
      the day query sees one document and counts one click, not two. */
  lemma SameInstantClicksCountOnce(scores: Scores, team: Team, instant: nat, dayKey: string)
    ensures
      var clicks := [Click(team, instant), Click(team, instant)];
      var stored := WriteAll([], Session(scores, clicks, dayKey));
      && ClicksFor(clicks, team) == 2
      && |stored| == 1
      && DaySum(Docs(Events(stored)), team) == 1
  {
    var clicks := [Click(team, instant), Click(team, instant)];
    var es := Session(scores, clicks, dayKey);
    SameInstantWritesCollide(es[0], es[1]);
    assert es == [es[0], es[1]];
    assert clicks[1..] == [Click(team, instant)] && clicks[1..][1..] == [];
    assert ClicksFor(clicks[1..], team) == 1;
    var ds := Docs(Events(WriteAll([], es)));
    assert |ds| == 1 && ds[..0] == [];
  }
}
