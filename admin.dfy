/** The admin panel (src/components/Admin.js): building a score event from
    the latest known totals, the live totals copied from the store's newest
    document, and the per-team loading flags and snackbar around a write. */
module Admin {
  import opened Teams
  import Decimal

  /** The totals the panel displays (its `scores` state). */
  datatype Scores = Scores(gsTotal: int, fbTotal: int, tsTotal: int) {
    function Total(t: Team): int {
      match t
      case GS => gsTotal
      case FB => fbTotal
      case TS => tsTotal
    }
  }

  /** A score-event document (`newData`). */
  datatype ScoreEvent = ScoreEvent(
    gsTotal: int, fbTotal: int, tsTotal: int,
    gsDelta: int, fbDelta: int, tsDelta: int,
    dayKey: string, timestamp: nat)
  {
    function Total(t: Team): int {
      match t
      case GS => gsTotal
      case FB => fbTotal
      case TS => tsTotal
    }

    function Delta(t: Team): int {
      match t
      case GS => gsDelta
      case FB => fbDelta
      case TS => tsDelta
    }
  }

  /** The "goal" condition the scoreboard reacts to: some delta is exactly 1. */
  predicate IsGoal(e: ScoreEvent): (b: bool)
    ensures b <==> exists t: Team :: e.Delta(t) == 1
  {
    assert e.gsDelta == e.Delta(GS) && e.fbDelta == e.Delta(FB) && e.tsDelta == e.Delta(TS);
    e.gsDelta == 1 || e.fbDelta == 1 || e.tsDelta == 1
  }

  /** The event `handleAddBottle(team)` writes: only the chosen team's total
      moves, by one; its delta is the only nonzero one; day and instant are
      stamped as given. */
  function MakeEvent(scores: Scores, team: Team, timestamp: nat, dayKey: string): (e: ScoreEvent)
    ensures e.Total(team) == scores.Total(team) + 1
    ensures forall t: Team :: t != team ==> e.Total(t) == scores.Total(t)
    ensures e.Delta(team) == 1
    ensures forall t: Team :: t != team ==> e.Delta(t) == 0
    ensures forall t: Team :: e.Total(t) == scores.Total(t) + e.Delta(t)
    ensures e.dayKey == dayKey && e.timestamp == timestamp
    ensures IsGoal(e)
  {
    ScoreEvent(
      gsTotal := if team == GS then scores.gsTotal + 1 else scores.gsTotal,
      fbTotal := if team == FB then scores.fbTotal + 1 else scores.fbTotal,
      tsTotal := if team == TS then scores.tsTotal + 1 else scores.tsTotal,
      gsDelta := if team == GS then 1 else 0,
      fbDelta := if team == FB then 1 else 0,
      tsDelta := if team == TS then 1 else 0,
      dayKey := dayKey,
      timestamp := timestamp)
  }

  /** The document id, `timestamp.toString()`. */
  function DocId(timestamp: nat): (id: string)
    ensures |id| >= 1 && Decimal.AllDigits(id)
  {
    Decimal.Show(timestamp)
  }

  /** The id determines the event's timestamp, so events with different
      timestamps never share an id. */
  lemma DocIdIdentifiesTimestamp(e: ScoreEvent, e': ScoreEvent)
    ensures Decimal.Parse(DocId(e.timestamp)) == e.timestamp
    ensures DocId(e.timestamp) == DocId(e'.timestamp) <==> e.timestamp == e'.timestamp
  {
    Decimal.ParseShow(e.timestamp);
    Decimal.ShowInjective(e.timestamp, e'.timestamp);
  }

  /** The total fields of the newest document as the listener sees them; a
      field may be missing. */
  datatype SnapshotDoc = SnapshotDoc(gsTotal: Option<int>, fbTotal: Option<int>, tsTotal: Option<int>)

  /** The listener's copy of a document's totals, 0 for a missing field. */
  function FromSnapshot(d: SnapshotDoc): (s: Scores)
    ensures d.gsTotal.Some? ==> s.gsTotal == d.gsTotal.value
    ensures d.fbTotal.Some? ==> s.fbTotal == d.fbTotal.value
    ensures d.tsTotal.Some? ==> s.tsTotal == d.tsTotal.value
    ensures d.gsTotal.None? ==> s.gsTotal == 0
    ensures d.fbTotal.None? ==> s.fbTotal == 0
    ensures d.tsTotal.None? ==> s.tsTotal == 0
  {
    Scores(d.gsTotal.GetOr(0), d.fbTotal.GetOr(0), d.tsTotal.GetOr(0))
  }

  /** The document the store holds after an event is written. */
  function Stored(e: ScoreEvent): SnapshotDoc {
    SnapshotDoc(Some(e.gsTotal), Some(e.fbTotal), Some(e.tsTotal))
  }

  /** When the listener delivers the event just written, the displayed totals
      become the previous ones with the chosen team one higher. */
  lemma SnapshotOfNewEvent(scores: Scores, team: Team, timestamp: nat, dayKey: string)
    ensures
      var shown := FromSnapshot(Stored(MakeEvent(scores, team, timestamp, dayKey)));
      && shown.Total(team) == scores.Total(team) + 1
      && forall t: Team :: t != team ==> shown.Total(t) == scores.Total(t)
  {
  }

  datatype Severity = Success | Error

  datatype Snackbar = Snackbar(open: bool, message: string, severity: Severity)

  /** How the `setDoc` write settled. */
  datatype WriteOutcome = Written | WriteFailed(message: string)

  const SuccessMessage: string := "Şişe başarıyla eklendi! \U{1F389}"
  const ErrorPrefix: string := "Hata oluştu: "

  /** The snackbar shown after a write: open, `success` exactly when the write
      went through, and carrying the error text otherwise. */
  function Report(o: WriteOutcome): (b: Snackbar)
    ensures b.open
    ensures b.severity == Success <==> o.Written?
    ensures o.Written? ==> b.message == SuccessMessage
    ensures o.WriteFailed? ==> b.message == ErrorPrefix + o.message
  {
    match o
    case Written => Snackbar(true, SuccessMessage, Success)
    case WriteFailed(msg) => Snackbar(true, ErrorPrefix + msg, Error)
  }

  class AdminPanel {
    var scores: Scores
    var loading: map<Team, bool>
    var snackbar: Snackbar

    /** Every team has a loading flag. */
    ghost predicate Valid()
      reads this
    {
      forall t: Team :: t in loading
    }

    constructor ()
      ensures Valid()
      ensures scores == Scores(0, 0, 0)
      ensures forall t: Team :: !loading[t]
      ensures snackbar == Snackbar(false, "", Success)
    {
      scores := Scores(0, 0, 0);
      var flags := map[GS := false, FB := false, TS := false];
      forall t: Team ensures t in flags {
        match t
        case GS =>
        case FB =>
        case TS =>
      }
      loading := flags;
      snackbar := Snackbar(false, "", Success);
    }

    /** The live listener: each delivered document overwrites the displayed
        totals, so the last one wins; an empty delivery changes nothing. */
    method OnSnapshot(docs: seq<SnapshotDoc>)
      modifies this`scores
      ensures scores == if docs == [] then old(scores) else FromSnapshot(docs[|docs| - 1])
    {
      var i := 0;
      while i < |docs|
        invariant 0 <= i <= |docs|
        invariant scores == if i == 0 then old(scores) else FromSnapshot(docs[i - 1])
      {
        scores := FromSnapshot(docs[i]);
        i := i + 1;
      }
    }

    /** `handleAddBottle` up to `await setDoc(...)`: raise the team's flag and
        build the event and its id from the displayed totals. */
    method StartAddBottle(team: Team, dayKey: string, now: nat) returns (id: string, e: ScoreEvent)
      requires Valid()
      modifies this`loading
      ensures Valid()
      ensures loading == old(loading)[team := true]
      ensures e == MakeEvent(scores, team, now, dayKey)
      ensures id == DocId(e.timestamp)
    {
      loading := loading[team := true];
      e := MakeEvent(scores, team, now, dayKey);
      id := DocId(e.timestamp);
    }

    /** `handleAddBottle` after the write settles: report it and lower the flag. */
    method FinishAddBottle(team: Team, outcome: WriteOutcome)
      requires Valid()
      modifies this`loading, this`snackbar
      ensures Valid()
      ensures loading == old(loading)[team := false]
      ensures snackbar == Report(outcome)
    {
      snackbar := Report(outcome);
      loading := loading[team := false];
    }

    /** The whole click: the displayed totals are never touched (only the
        listener changes them), the chosen team's flag ends lowered and the
        others keep theirs. */
    method HandleAddBottle(team: Team, dayKey: string, now: nat, outcome: WriteOutcome)
      returns (id: string, e: ScoreEvent)
      requires Valid()
      modifies this`loading, this`snackbar
      ensures Valid()
      ensures e == MakeEvent(scores, team, now, dayKey) && id == DocId(now)
      ensures scores == old(scores)
      ensures !loading[team] && forall t: Team :: t != team ==> loading[t] == old(loading)[t]
      ensures snackbar == Report(outcome)
    {
      id, e := StartAddBottle(team, dayKey, now);
      FinishAddBottle(team, outcome);
    }

    method CloseSnackbar()
      modifies this`snackbar
      ensures snackbar == old(snackbar).(open := false)
    {
      snackbar := snackbar.(open := false);
    }
  }
}
