/** What holds of every history a stage can reach, and what its operations
    leave unchanged. */
module HistoryRuns {
  import opened Options
  import opened Times
  import opened Histories

  datatype Op =
    | OpOpen(candidate: Entry, at: Time)
    | OpDrop
    | OpStart(record: string)
    | OpObserve(o: Observation, at: Time)
    | OpRecord(digest: string, healthy: Time, record: string)

  /** The callers pass set times and the digest of a record that was pushed. */
  predicate Valid(op: Op) {
    match op
    case OpOpen(_, at) => IsSet(Seconds(at))
    case OpDrop => true
    case OpStart(record) => record != ""
    case OpObserve(_, at) => IsSet(Seconds(at))
    case OpRecord(_, healthy, _) => IsSet(healthy)
  }

  predicate AllValid(ops: seq<Op>) {
    forall i :: 0 <= i < |ops| ==> Valid(ops[i])
  }

  function Apply(h: History, op: Op): History {
    match op
    case OpOpen(candidate, at) => Open(h, candidate, at)
    case OpDrop => Drop(h)
    case OpStart(record) => Started(h, record)
    case OpObserve(o, at) => Observed(h, o, at)
    case OpRecord(digest, healthy, record) => DeploymentRecorded(h, digest, healthy, record)
  }

  function ApplyAll(h: History, ops: seq<Op>): History {
    if ops == [] then h else Apply(ApplyAll(h, ops[..|ops| - 1]), ops[|ops| - 1])
  }

  lemma ApplyOne(h: History, ops: seq<Op>, op: Op)
    ensures ApplyAll(h, ops + [op]) == Apply(ApplyAll(h, ops), op)
  {
    assert (ops + [op])[..|ops|] == ops;
  }

  // ------------------------------------------------------------- invariant

  predicate EntryOk(e: Entry) {
    && IsSet(e.started)
    && Whole(e.started) && Whole(e.healthy) && Whole(e.ended)
    && (e.endReason == NotEnded <==> e.Running())
    && (!e.Promoted() ==> !IsSet(e.healthy) && e.Running() && e.deploymentRecord == "")
  }

  /** At most 16 entries; only the head may be pending; only the newest
      promoted entry may be running, and it is never superseded. */
  predicate WellFormed(h: History) {
    && |h| <= MAX_ENTRIES
    && (forall i :: 0 <= i < |h| ==> EntryOk(h[i]))
    && (forall i :: 1 <= i < |h| ==> h[i].Promoted())
    && (forall i :: NewestPromoted(h) < i < |h| ==> !h[i].Running())
    && (NewestPromoted(h) < |h| ==> h[NewestPromoted(h)].endReason != Superseded)
  }

  lemma NewestPromotedIs(h: History, i: nat)
    requires i <= |h| && (i < |h| ==> h[i].Promoted()) && forall j :: 0 <= j < i ==> !h[j].Promoted()
    ensures NewestPromoted(h) == i
  {
  }

  lemma HeadOrNext(h: History)
    requires WellFormed(h)
    ensures Pending(h).Some? ==> NewestPromoted(h) == 1
    ensures Pending(h).None? ==> NewestPromoted(h) == 0
    ensures Pending(h).Some? ==> NewestPromoted(h[1..]) == 0
  {
    if Pending(h).Some? {
      NewestPromotedIs(h, 1);
      NewestPromotedIs(h[1..], 0);
    } else {
      NewestPromotedIs(h, 0);
    }
  }

  lemma WellFormedFrom(h: History, i: nat)
    requires |h| <= MAX_ENTRIES && i <= |h|
    requires forall j :: 0 <= j < |h| ==> EntryOk(h[j])
    requires i <= 1 && (i == 1 ==> !h[0].Promoted())
    requires forall j :: i <= j < |h| ==> h[j].Promoted()
    requires forall j :: i < j < |h| ==> !h[j].Running()
    requires i < |h| ==> h[i].endReason != Superseded
    ensures WellFormed(h) && NewestPromoted(h) == i
  {
    NewestPromotedIs(h, i);
  }

  lemma OpenKeeps(h: History, candidate: Entry, at: Time)
    requires WellFormed(h) && IsSet(Seconds(at))
    ensures WellFormed(Open(h, candidate, at))
  {
    HeadOrNext(h);
    DropKeeps(h);
    HeadOrNext(Drop(h));
    var d, e := Drop(h), PendingEntry(candidate, at);
    var r := Open(h, candidate, at);
    assert r[0] == e && forall j :: 1 <= j < |r| ==> r[j] == d[j - 1];
    WellFormedFrom(r, 1);
  }

  lemma DropKeeps(h: History)
    requires WellFormed(h)
    ensures WellFormed(Drop(h)) && Pending(Drop(h)).None?
  {
    HeadOrNext(h);
    WellFormedFrom(Drop(h), 0);
  }

  lemma StartKeeps(h: History, record: string)
    requires WellFormed(h) && record != ""
    ensures WellFormed(Started(h, record))
  {
    HeadOrNext(h);
    var r := Started(h, record);
    if Pending(h).Some? {
      WellFormedFrom(r, 0);
    }
  }

  lemma {:induction false} RecoveryKeeps(h: History, at: Time, i: nat)
    requires WellFormed(h) && IsSet(Seconds(at)) && i == NewestPromoted(h) < |h| && !h[i].Running()
    ensures WellFormed(Cut(h[..i] + [RecoveryOf(h[i], at)] + h[i..]))
  {
    HeadOrNext(h);
    var full := h[..i] + [RecoveryOf(h[i], at)] + h[i..];
    var r := Cut(full);
    assert forall j :: 0 <= j < |r| ==> r[j] == if j < i then h[j] else if j == i then RecoveryOf(h[i], at) else h[j - 1];
    WellFormedFrom(r, i);
  }

  lemma {:induction false} ObserveKeeps(h: History, o: Observation, at: Time)
    requires WellFormed(h) && IsSet(Seconds(at))
    ensures WellFormed(Observed(h, o, at))
  {
    var i := NewestPromoted(h);
    if i < |h| {
      HeadOrNext(h);
      match ChangeOf(h[i], o)
      case NoChange =>
      case Recovered => RecoveryKeeps(h, at, i);
      case BecameHealthy => WellFormedFrom(Observed(h, o, at), i);
      case Ended => WellFormedFrom(Observed(h, o, at), i);
    }
  }

  lemma RecordKeeps(h: History, digest: string, healthy: Time, record: string)
    requires WellFormed(h) && IsSet(healthy)
    ensures WellFormed(DeploymentRecorded(h, digest, healthy, record))
  {
    HeadOrNext(h);
    var r := DeploymentRecorded(h, digest, healthy, record);
    if h != [] {
      WellFormedFrom(r, NewestPromoted(h));
    }
  }

  lemma ApplyKeeps(h: History, op: Op)
    requires WellFormed(h) && Valid(op)
    ensures WellFormed(Apply(h, op))
  {
    match op
    case OpOpen(candidate, at) => OpenKeeps(h, candidate, at);
    case OpDrop => DropKeeps(h);
    case OpStart(record) => StartKeeps(h, record);
    case OpObserve(o, at) => ObserveKeeps(h, o, at);
    case OpRecord(digest, healthy, record) => RecordKeeps(h, digest, healthy, record);
  }

  /** The invariant holds of every history reached from a well-formed one, so
      of every history reached from the empty one. */
  lemma {:induction false} ReachableIsWellFormed(h: History, ops: seq<Op>)
    requires WellFormed(h) && AllValid(ops)
    ensures WellFormed(ApplyAll(h, ops))
    ensures WellFormed([])
  {
    if ops != [] {
      ReachableIsWellFormed(h, ops[..|ops| - 1]);
      ApplyKeeps(ApplyAll(h, ops[..|ops| - 1]), ops[|ops| - 1]);
    }
  }

  // -------------------------------------------------- opening and dropping

  /** Dropping what was opened restores the history without its pending entry
      exactly when that left room; on a full history the oldest entry is lost. */
  lemma DropUndoesOpen(h: History, candidate: Entry, at: Time)
    requires |h| <= MAX_ENTRIES
    ensures Drop(Open(h, candidate, at)) == (if |Drop(h)| < MAX_ENTRIES then Drop(h) else Drop(h)[..MAX_ENTRIES - 1])
    ensures Drop(Open(h, candidate, at)) == Drop(h) <==> |Drop(h)| < MAX_ENTRIES
  {
    var d := Drop(h);
    var full := [PendingEntry(candidate, at)] + d;
    assert full[1..] == d;
    assert |full| > MAX_ENTRIES ==> full[..MAX_ENTRIES][1..] == d[..MAX_ENTRIES - 1];
  }

  // -------------------------------------------------- starting and recovering

  /** Starting hands over from the deployed entry to the pending one: the deployed
      one, if it still runs, is superseded at the time the next was opened, and
      nothing else changes. */
  lemma StartHandsOver(h: History, record: string)
    requires WellFormed(h) && Pending(h).Some? && record != ""
    ensures |Started(h, record)| == |h|
    ensures var r := Started(h, record);
            && Deployed(r) == Some(h[0].(promotionRecord := record))
            && (|h| > 1 && h[1].Running() ==> Deployed(h) == Some(h[1])
                                              && r[1] == h[1].(ended := r[0].started, endReason := Superseded))
            && (|h| > 1 && !h[1].Running() ==> r[1] == h[1])
            && (forall i :: 2 <= i < |h| ==> r[i] == h[i])
            && Drop(r) == r
  {
    HeadOrNext(h);
    StartKeeps(h, record);
    HeadOrNext(Started(h, record));
  }

  /** After a deployment degraded, its health clock starts anew in an entry of its
      own, not recorded yet; the one that degraded stays as it is. */
  lemma RecoveryRestartsTheClock(h: History, o: Observation, at: Time)
    requires WellFormed(h) && IsSet(Seconds(at)) && Deployed(h).Some? && Deployed(h).value.endReason == Degraded
    requires o == Observation(Deployed(h).value.digest, Healthy)
    ensures var r, e := Observed(h, o, at), Deployed(h).value;
            && Deployed(r).Some? && Deployed(r).value.Running() && Identity(Deployed(r).value) == Identity(e)
            && Deployed(r).value.started == Deployed(r).value.healthy == Seconds(at)
            && Deployed(r).value.deploymentRecord == ""
            && Pending(r) == Pending(h)
            && (|h| < MAX_ENTRIES ==> e in r && |r| == |h| + 1)
  {
    HeadOrNext(h);
    ObserveKeeps(h, o, at);
    var r, i := Observed(h, o, at), NewestPromoted(h);
    HeadOrNext(r);
    assert |h| < MAX_ENTRIES ==> r[i + 1] == h[i];
  }

  // -------------------------------------------------------------- what runs

  /** What is fixed of an entry when it is promoted. */
  function Identity(e: Entry): Entry {
    e.(started := 0, healthy := 0, ended := 0, endReason := NotEnded, deploymentRecord := "")
  }

  /** The Preparation, artifact and promotion record a stage runs. */
  function WhatRuns(h: History): Option<Entry> {
    if Deployed(h).Some? then Some(Identity(Deployed(h).value)) else None
  }

  lemma OnlyStartChangesWhatRuns(h: History, op: Op)
    requires WellFormed(h) && Valid(op)
    ensures op.OpStart? && Pending(h).Some? ==>
              WhatRuns(Apply(h, op)) == Some(Identity(h[0].(promotionRecord := op.record)))
    ensures !op.OpStart? || Pending(h).None? ==> WhatRuns(Apply(h, op)) == WhatRuns(h)
  {
    HeadOrNext(h);
    ApplyKeeps(h, op);
    HeadOrNext(Apply(h, op));
    DropKeeps(h);
    HeadOrNext(Drop(h));
  }

  predicate IsReport(op: Op) { op.OpObserve? || op.OpRecord? }

  predicate AllReports(ops: seq<Op>) {
    forall i :: 0 <= i < |ops| ==> Valid(ops[i]) && IsReport(ops[i])
  }

  /** The Preparation and digest a promotion record names as deployed before
      the pending entry. */
  function Previous(h: History): Option<(string, string)> {
    if h == [] then None
    else match Deployed(h[1..])
      case None => None
      case Some(e) => Some((e.preparation, e.digest))
  }

  /** Nothing that is reported between opening and starting a promotion changes
      what its record contains. */
  lemma {:induction false} ReportsKeepPromotion(h: History, ops: seq<Op>)
    requires WellFormed(h) && AllReports(ops)
    ensures Pending(ApplyAll(h, ops)) == Pending(h)
    ensures WhatRuns(ApplyAll(h, ops)) == WhatRuns(h)
    ensures Pending(h).Some? ==> Previous(ApplyAll(h, ops)) == Previous(h)
    ensures WellFormed(ApplyAll(h, ops))
  {
    if ops != [] {
      var before, op := ApplyAll(h, ops[..|ops| - 1]), ops[|ops| - 1];
      ReportsKeepPromotion(h, ops[..|ops| - 1]);
      ApplyKeeps(before, op);
      OnlyStartChangesWhatRuns(before, op);
      ReportKeepsPending(before, op);
      PreviousIsDeployed(before);
      PreviousIsDeployed(Apply(before, op));
    }
  }

  lemma ReportKeepsPending(h: History, op: Op)
    requires WellFormed(h) && Valid(op) && IsReport(op)
    ensures Pending(Apply(h, op)) == Pending(h)
  {
    HeadOrNext(h);
  }

  lemma PreviousIsDeployed(h: History)
    requires WellFormed(h)
    ensures Pending(h).Some? && Deployed(h).Some? ==>
              Previous(h) == Some((Deployed(h).value.preparation, Deployed(h).value.digest))
    ensures Pending(h).Some? && Deployed(h).None? ==> Previous(h) == None
  {
    HeadOrNext(h);
  }

  // -------------------------------------------------------------- two passes

  /** One pass over a candidate that passes every gate. */
  function PassOver(h: History, candidate: Entry, at: Time, record: string): History {
    match Next(h, candidate.preparation)
    case StepDeployed => Drop(h)
    case StepOpen => Open(h, candidate, at)
    case StepRecord => Started(h, record)
  }

  /** While the gates hold, two passes deploy the candidate whatever is
      reported between them, and from then on a pass changes nothing that runs. */
  lemma TwoPassesDeploy(h: History, candidate: Entry, at: Time, between: seq<Op>, at': Time, record: string)
    requires WellFormed(h) && IsSet(Seconds(at)) && IsSet(Seconds(at')) && record != "" && AllReports(between)
    ensures var second := PassOver(ApplyAll(PassOver(h, candidate, at, record), between), candidate, at', record);
            && WellFormed(second)
            && Next(second, candidate.preparation) == StepDeployed
            && PassOver(Drop(second), candidate, at', record) == Drop(second)
            && WhatRuns(Drop(second)) == WhatRuns(second)
  {
    var first := PassOver(h, candidate, at, record);
    PassKeeps(h, candidate, at, record);
    ReportsKeepPromotion(first, between);
    var mid := ApplyAll(first, between);
    PassKeeps(mid, candidate, at', record);
    var second := PassOver(mid, candidate, at', record);
    OnlyStartChangesWhatRuns(second, OpDrop);
    DropKeeps(second);
    DeployedName(first);
    DeployedName(mid);
    DeployedName(second);
    DeployedName(Drop(second));
  }

  lemma DeployedName(h: History)
    ensures Deployed(h).Some? <==> WhatRuns(h).Some?
    ensures Deployed(h).Some? ==> Deployed(h).value.preparation == WhatRuns(h).value.preparation
  {
  }

  /** A pass advances by one step: from open to record, and from record or
      deployed to deployed. */
  lemma PassKeeps(h: History, candidate: Entry, at: Time, record: string)
    requires WellFormed(h) && IsSet(Seconds(at)) && record != ""
    ensures var r := PassOver(h, candidate, at, record);
            && WellFormed(r)
            && (Next(h, candidate.preparation) == StepOpen ==> Next(r, candidate.preparation) == StepRecord)
            && (Next(h, candidate.preparation) != StepOpen ==> Next(r, candidate.preparation) == StepDeployed)
  {
    OpenKeeps(h, candidate, at);
    StartKeeps(h, record);
    DropKeeps(h);
    OnlyStartChangesWhatRuns(h, OpDrop);
    OnlyStartChangesWhatRuns(h, OpStart(record));
    OnlyStartChangesWhatRuns(h, OpOpen(candidate, at));
    DeployedName(h);
    DeployedName(PassOver(h, candidate, at, record));
  }

  /** A report that stays the same changes the history at most once. */
  lemma ConstantReportSettles(h: History, o: Observation, at: Time, at': Time)
    requires WellFormed(h) && IsSet(Seconds(at)) && IsSet(Seconds(at'))
    ensures Observed(Observed(h, o, at), o, at') == Observed(h, o, at)
  {
    HeadOrNext(h);
    ObserveKeeps(h, o, at);
    var r := Observed(h, o, at);
    HeadOrNext(r);
    assert NewestPromoted(r) == NewestPromoted(h);
  }
}
