/** Where the entries of a history come from, whatever is done to it. */
module HistoryEntries {
  import opened Times
  import opened Histories
  import opened HistoryRuns

  /** e is a deployment that h already held, under the same promotion record. */
  predicate Held(h: History, e: Entry) {
    exists i :: 0 <= i < |h| && h[i].Promoted() && Identity(h[i]) == Identity(e)
  }

  /** It was also healthy since the same time. */
  predicate HeldHealthy(h: History, e: Entry) {
    exists i :: 0 <= i < |h| && h[i].Promoted() && Identity(h[i]) == Identity(e) && h[i].healthy == e.healthy
  }

  /** e is the entry that was pending, started under record. */
  predicate JustStarted(h: History, op: Op, e: Entry) {
    op.OpStart? && Pending(h).Some? && Identity(e) == Identity(h[0].(promotionRecord := op.record))
  }

  lemma {:induction false} PromotedComesFrom(h: History, op: Op, k: nat)
    requires Valid(op) && k < |Apply(h, op)| && Apply(h, op)[k].Promoted()
    ensures Held(h, Apply(h, op)[k]) || JustStarted(h, op, Apply(h, op)[k])
  {
    var e := Apply(h, op)[k];
    match op
    case OpOpen(candidate, at) =>
      var d := Drop(h);
      assert e == d[k - 1];
      var i := if Pending(h).None? then k - 1 else k;
      assert h[i] == e;
    case OpDrop =>
      var i := if Pending(h).None? then k else k + 1;
      assert h[i] == e;
    case OpStart(record) =>
      if Pending(h).Some? && k == 0 {
      } else {
        assert Identity(h[k]) == Identity(e);
      }
    case OpRecord(_, _, _) => assert Identity(h[k]) == Identity(e);
    case OpObserve(o, at) => ObservedComesFrom(h, o, at, k);
  }

  /** The position in h of the entry at position k after a report. */
  function ReportSource(h: History, o: Observation, k: nat): nat {
    var i := NewestPromoted(h);
    if i < |h| && ChangeOf(h[i], o) == Recovered && k > i then k - 1 else k
  }

  lemma {:induction false} ObservedComesFrom(h: History, o: Observation, at: Time, k: nat)
    requires k < |Observed(h, o, at)|
    ensures var i := ReportSource(h, o, k); i < |h| && Identity(Observed(h, o, at)[k]) == Identity(h[i])
    ensures Observed(h, o, at)[k].Promoted() ==> Held(h, Observed(h, o, at)[k])
  {
    var i := ReportSource(h, o, k);
    assert Identity(Observed(h, o, at)[k]) == Identity(h[i]);
  }

  /** As a reconcile promotes, no deployment becomes healthy. */
  lemma {:induction false} HealthyComesFrom(h: History, op: Op, k: nat)
    requires Valid(op) && (op.OpOpen? || op.OpDrop? || op.OpStart?)
    requires WellFormed(h) && k < |Apply(h, op)| && Apply(h, op)[k].Promoted() && IsSet(Apply(h, op)[k].healthy)
    ensures HeldHealthy(h, Apply(h, op)[k])
  {
    var e := Apply(h, op)[k];
    var i := if op.OpStart? then k else if op.OpOpen? then (if Pending(h).None? then k - 1 else k)
             else if Pending(h).None? then k else k + 1;
    assert h[i].Promoted() && Identity(h[i]) == Identity(e) && h[i].healthy == e.healthy;
  }

  // ------------------------------------------------------- what names an entry

  /** The Preparation, artifact and revision of an entry. */
  function Subject(e: Entry): (string, string, string) {
    (e.preparation, e.digest, e.revision)
  }

  /** Every entry has the subject of an entry of h, or that of the candidate. */
  lemma {:induction false} SubjectComesFrom(h: History, op: Op, k: nat)
    requires k < |Apply(h, op)|
    ensures (op.OpOpen? && Subject(Apply(h, op)[k]) == Subject(op.candidate))
         || exists i :: 0 <= i < |h| && Subject(h[i]) == Subject(Apply(h, op)[k])
  {
    var e := Apply(h, op)[k];
    match op
    case OpOpen(candidate, at) =>
      if k > 0 {
        var i := if Pending(h).None? then k - 1 else k;
        assert h[i] == e;
      }
    case OpDrop =>
      var i := if Pending(h).None? then k else k + 1;
      assert h[i] == e;
    case OpStart(record) => assert Subject(h[k]) == Subject(e);
    case OpRecord(_, _, _) => assert Subject(h[k]) == Subject(e);
    case OpObserve(o, at) =>
      ObservedComesFrom(h, o, at, k);
      assert Subject(h[ReportSource(h, o, k)]) == Subject(Identity(e));
  }
}
