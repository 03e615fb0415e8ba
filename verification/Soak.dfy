/** Soak counts without interruption: every entry of a history gets an
    identity, and a log keeps each report applied to the entry deployed then. */
module Soak {
  import opened Times
  import opened Histories
  import opened HistoryRuns

  datatype Report =
    | SawHealthy(id: nat, at: Time)
    | SawDegraded(id: nat, at: Time)

  /** A history with the identity of each entry, the next free identity, and
      the reports on deployed entries so far. */
  datatype Tracked = Tracked(h: History, ids: seq<nat>, next: nat, log: seq<Report>)

  function CutIds(ids: seq<nat>): seq<nat> {
    if |ids| > MAX_ENTRIES then ids[..MAX_ENTRIES] else ids
  }

  function DropId(t: Tracked): seq<nat>
    requires |t.ids| == |t.h|
  {
    if Pending(t.h).None? then t.ids else t.ids[1..]
  }

  function ReportOn(id: nat, health: Health, at: Time): seq<Report> {
    match health
    case Healthy => [SawHealthy(id, Seconds(at))]
    case Degrading => [SawDegraded(id, Seconds(at))]
    case Progressing => []
  }

  function TrackObserve(t: Tracked, o: Observation, at: Time): (r: Tracked)
    requires |t.ids| == |t.h|
    ensures |r.ids| == |r.h|
  {
    var i, h := NewestPromoted(t.h), Observed(t.h, o, at);
    if i == |t.h| || t.h[i].digest != o.revision then
      t.(h := h)
    else if ChangeOf(t.h[i], o) == Recovered then
      Tracked(h, CutIds(t.ids[..i] + [t.next] + t.ids[i..]), t.next + 1, t.log + ReportOn(t.next, Healthy, at))
    else
      t.(h := h, log := t.log + ReportOn(t.ids[i], o.health, at))
  }

  function Track(t: Tracked, op: Op): (r: Tracked)
    requires |t.ids| == |t.h|
    ensures r.h == Apply(t.h, op) && |r.ids| == |r.h|
  {
    match op
    case OpOpen(_, _) => Tracked(Apply(t.h, op), CutIds([t.next] + DropId(t)), t.next + 1, t.log)
    case OpDrop => t.(h := Apply(t.h, op), ids := DropId(t))
    case OpObserve(o, at) => TrackObserve(t, o, at)
    case OpStart(_) => t.(h := Apply(t.h, op))
    case OpRecord(_, _, _) => t.(h := Apply(t.h, op))
  }

  const Empty := Tracked([], [], 0, [])

  function TrackAll(t: Tracked, ops: seq<Op>): (r: Tracked)
    requires |t.ids| == |t.h|
    ensures r.h == ApplyAll(t.h, ops) && |r.ids| == |r.h|
  {
    if ops == [] then t else Track(TrackAll(t, ops[..|ops| - 1]), ops[|ops| - 1])
  }

  // ------------------------------------------------------------- invariant

  /** The report at position b of the log is about the entry at position i. */
  predicate About(t: Tracked, b: nat, i: nat)
    requires |t.ids| == |t.h| && b < |t.log| && i < |t.h|
  {
    t.log[b].id == t.ids[i]
  }

  predicate Identified(t: Tracked) {
    && |t.ids| == |t.h|
    && (forall i, j :: 0 <= i < j < |t.ids| ==> t.ids[i] != t.ids[j])
    && (forall i :: 0 <= i < |t.ids| ==> t.ids[i] < t.next)
    && (forall b :: 0 <= b < |t.log| ==> t.log[b].id < t.next)
  }

  /** A report was made of the entry only once it was promoted. */
  predicate ReportsOnPromoted(t: Tracked)
    requires |t.ids| == |t.h|
  {
    forall b, i :: 0 <= b < |t.log| && 0 <= i < |t.h| && About(t, b, i) ==> t.h[i].Promoted()
  }

  /** An entry reported degraded ended degraded. */
  predicate DegradedEnds(t: Tracked)
    requires |t.ids| == |t.h|
  {
    forall b, i :: 0 <= b < |t.log| && 0 <= i < |t.h| && About(t, b, i) && t.log[b].SawDegraded? ==> t.h[i].endReason == Degraded
  }

  /** An entry that ended degraded ended at a degraded report on it. */
  predicate DegradedSeen(t: Tracked)
    requires |t.ids| == |t.h|
  {
    forall i :: 0 <= i < |t.h| && t.h[i].endReason == Degraded ==> SawDegraded(t.ids[i], t.h[i].ended) in t.log
  }

  /** The health clock of an entry started at a healthy report on it. */
  predicate HealthySeen(t: Tracked)
    requires |t.ids| == |t.h|
  {
    forall i :: 0 <= i < |t.h| && IsSet(t.h[i].healthy) ==> SawHealthy(t.ids[i], t.h[i].healthy) in t.log
  }

  /** Every report on a newer entry came after every report on an older one. */
  predicate NewerLater(t: Tracked)
    requires |t.ids| == |t.h|
  {
    forall a, b, i, j :: 0 <= a < |t.log| && 0 <= b < |t.log| && 0 <= i < j < |t.h| && About(t, b, i) && About(t, a, j) ==> a < b
  }

  predicate TrackedOk(t: Tracked) {
    && WellFormed(t.h)
    && Identified(t)
    && ReportsOnPromoted(t)
    && DegradedEnds(t)
    && DegradedSeen(t)
    && HealthySeen(t)
    && NewerLater(t)
  }

  /** The old position of the entry at position i, when a new entry was
      inserted at k after d entries were dropped from the front. */
  function Source(k: nat, d: nat, i: nat): int {
    if i < k then i + d else if i == k then -1 else i - 1 + d
  }

  predicate Kept(was: Entry, e: Entry) {
    && e.healthy == was.healthy
    && (was.Promoted() ==> e.Promoted())
    && (was.endReason == Degraded <==> e.endReason == Degraded)
    && (was.endReason == Degraded ==> e.ended == was.ended)
  }

  predicate Moved(t: Tracked, r: Tracked, k: nat, d: nat) {
    && |t.ids| == |t.h| && |r.ids| == |r.h|
    && r.log == t.log && r.next >= t.next
    && (k < |r.h| ==> t.next <= r.ids[k] < r.next && !IsSet(r.h[k].healthy) && r.h[k].endReason != Degraded)
    && (forall i :: 0 <= i < |r.h| && i != k ==> 0 <= Source(k, d, i) < |t.h|)
    && (forall i :: 0 <= i < |r.h| && i != k ==> r.ids[i] == t.ids[Source(k, d, i)])
    && (forall i :: 0 <= i < |r.h| && i != k ==> Kept(t.h[Source(k, d, i)], r.h[i]))
  }

  /** The invariant carries over to a history whose entries are entries of the
      old one, in order, with at most one new entry that has no reports. */
  lemma {:induction false} Carries(t: Tracked, r: Tracked, k: nat, d: nat)
    requires TrackedOk(t) && WellFormed(r.h) && Moved(t, r, k, d)
    ensures TrackedOk(r)
  {
    ReportsCarry(t, r, k, d);
    HealthyCarries(t, r, k, d);
  }

  /** A report on an entry of r was on an entry of t that it came from. */
  lemma {:induction false} AboutCarries(t: Tracked, r: Tracked, k: nat, d: nat)
    requires Identified(t) && Moved(t, r, k, d)
    ensures forall b, i :: 0 <= b < |r.log| && 0 <= i < |r.h| && About(r, b, i) ==>
              i != k && 0 <= Source(k, d, i) < |t.h| && About(t, b, Source(k, d, i)) && Kept(t.h[Source(k, d, i)], r.h[i])
  {
  }

  lemma {:induction false} IdentifiedCarries(t: Tracked, r: Tracked, k: nat, d: nat)
    requires Identified(t) && Moved(t, r, k, d)
    ensures Identified(r)
  {
  }

  lemma {:induction false} NewerCarries(t: Tracked, r: Tracked, k: nat, d: nat)
    requires Identified(t) && Moved(t, r, k, d) && NewerLater(t)
    ensures NewerLater(r)
  {
    AboutCarries(t, r, k, d);
    forall a, b, i, j | 0 <= a < |r.log| && 0 <= b < |r.log| && 0 <= i < j < |r.h| && About(r, b, i) && About(r, a, j)
      ensures a < b
    {
      assert About(t, b, Source(k, d, i)) && About(t, a, Source(k, d, j));
    }
  }

  lemma {:induction false} ReportsCarry(t: Tracked, r: Tracked, k: nat, d: nat)
    requires TrackedOk(t) && WellFormed(r.h) && Moved(t, r, k, d)
    ensures Identified(r) && ReportsOnPromoted(r) && DegradedEnds(r) && NewerLater(r)
  {
    IdentifiedCarries(t, r, k, d);
    NewerCarries(t, r, k, d);
    AboutCarries(t, r, k, d);
  }

  lemma {:induction false} HealthyCarries(t: Tracked, r: Tracked, k: nat, d: nat)
    requires Moved(t, r, k, d) && HealthySeen(t) && DegradedSeen(t)
    ensures HealthySeen(r) && DegradedSeen(r)
  {
    forall i | 0 <= i < |r.h| && (IsSet(r.h[i].healthy) || r.h[i].endReason == Degraded)
      ensures i != k && Kept(t.h[Source(k, d, i)], r.h[i])
    {
    }
  }

  lemma TrackKeeps(t: Tracked, op: Op)
    requires TrackedOk(t) && Valid(op)
    ensures TrackedOk(Track(t, op))
  {
    match op
    case OpOpen(candidate, at) => OpenTracks(t, candidate, at);
    case OpDrop => DropTracks(t);
    case OpStart(_) => InPlaceTracks(t, op);
    case OpRecord(_, _, _) => InPlaceTracks(t, op);
    case OpObserve(o, at) => ObserveTracks(t, o, at);
  }

  lemma OpenTracks(t: Tracked, candidate: Entry, at: Time)
    requires TrackedOk(t) && IsSet(Seconds(at))
    ensures TrackedOk(Track(t, OpOpen(candidate, at)))
  {
    OpenKeeps(t.h, candidate, at);
    OpenMoves(t, candidate, at);
    Carries(t, Track(t, OpOpen(candidate, at)), 0, if Pending(t.h).None? then 0 else 1);
  }

  lemma OpenMoves(t: Tracked, candidate: Entry, at: Time)
    requires |t.ids| == |t.h|
    ensures Moved(t, Track(t, OpOpen(candidate, at)), 0, if Pending(t.h).None? then 0 else 1)
  {
  }

  lemma DropTracks(t: Tracked)
    requires TrackedOk(t)
    ensures TrackedOk(Track(t, OpDrop))
  {
    var r, d := Track(t, OpDrop), if Pending(t.h).None? then 0 else 1;
    DropKeeps(t.h);
    Carries(t, r, |r.h|, d);
  }

  lemma {:induction false} InPlaceTracks(t: Tracked, op: Op)
    requires TrackedOk(t) && Valid(op) && (op.OpStart? || op.OpRecord?)
    ensures TrackedOk(Track(t, op))
  {
    ApplyKeeps(t.h, op);
    InPlaceMoves(t, op);
    Carries(t, Track(t, op), |t.h|, 0);
  }

  lemma {:induction false} InPlaceMoves(t: Tracked, op: Op)
    requires |t.ids| == |t.h| && WellFormed(t.h) && Valid(op) && (op.OpStart? || op.OpRecord?)
    ensures Moved(t, Track(t, op), |t.h|, 0)
  {
    HeadOrNext(t.h);
    var r := Track(t, op);
    forall i | 0 <= i < |t.h| ensures r.ids[i] == t.ids[i] && Kept(t.h[i], r.h[i]) {
    }
  }

  lemma ObserveTracks(t: Tracked, o: Observation, at: Time)
    requires TrackedOk(t) && IsSet(Seconds(at))
    ensures TrackedOk(TrackObserve(t, o, at))
  {
    var r, k := TrackObserve(t, o, at), NewestPromoted(t.h);
    HeadOrNext(t.h);
    ObserveKeeps(t.h, o, at);
    if k == |t.h| || t.h[k].digest != o.revision {
      assert r == t;
    } else if ChangeOf(t.h[k], o) == Recovered {
      RecoveryTracks(t, o, at);
    } else {
      ReportTracks(t, o, at);
    }
  }

  /** A report on the deployed entry that opens no recovery. */
  lemma ReportTracks(t: Tracked, o: Observation, at: Time)
    requires TrackedOk(t) && IsSet(Seconds(at))
    requires var k := NewestPromoted(t.h); k < |t.h| && t.h[k].digest == o.revision && ChangeOf(t.h[k], o) != Recovered
    ensures TrackedOk(TrackObserve(t, o, at))
  {
    ObserveKeeps(t.h, o, at);
    ReportMoves(t, o, at);
    Reports(t, TrackObserve(t, o, at), NewestPromoted(t.h));
  }

  /** r is t with at most one more report, on the entry at position k, which
      changed as that report says. */
  predicate Reported(t: Tracked, r: Tracked, k: nat) {
    && |t.ids| == |t.h| == |r.h| && k < |t.h|
    && r.ids == t.ids && r.next == t.next
    && (forall i :: 0 <= i < |r.h| && i != k ==> r.h[i] == t.h[i])
    && t.log <= r.log && |r.log| <= |t.log| + 1
    && (|r.log| > |t.log| ==> r.log[|t.log|].id == t.ids[k])
    && (|r.log| > |t.log| && r.log[|t.log|].SawDegraded? ==> r.h[k].endReason == Degraded)
    && (t.h[k].endReason == Degraded ==> r.h[k].endReason == Degraded && r.h[k].ended == t.h[k].ended)
    && (r.h[k].endReason == Degraded && t.h[k].endReason != Degraded ==> SawDegraded(r.ids[k], r.h[k].ended) in r.log)
    && (r.h[k].healthy == t.h[k].healthy || SawHealthy(r.ids[k], r.h[k].healthy) in r.log)
    && r.h[k].Promoted()
  }

  lemma ReportMoves(t: Tracked, o: Observation, at: Time)
    requires |t.ids| == |t.h| && WellFormed(t.h)
    requires var k := NewestPromoted(t.h); k < |t.h| && t.h[k].digest == o.revision && ChangeOf(t.h[k], o) != Recovered
    ensures Reported(t, TrackObserve(t, o, at), NewestPromoted(t.h))
  {
    HeadOrNext(t.h);
  }

  lemma {:induction false} Reports(t: Tracked, r: Tracked, k: nat)
    requires TrackedOk(t) && WellFormed(r.h) && Reported(t, r, k) && k == NewestPromoted(t.h)
    ensures TrackedOk(r)
  {
    ReportedAbout(t, r, k);
    ReportedLater(t, r, k);
    HealthyStaysSeen(t, r, k);
    DegradedStaysSeen(t, r, k);
  }

  lemma {:induction false} ReportedAbout(t: Tracked, r: Tracked, k: nat)
    requires TrackedOk(t) && Reported(t, r, k)
    ensures Identified(r) && ReportsOnPromoted(r) && DegradedEnds(r)
  {
    forall b, i | 0 <= b < |r.log| && 0 <= i < |r.h| && About(r, b, i)
      ensures if b < |t.log| then About(t, b, i) else i == k
    {
    }
  }

  lemma {:induction false} ReportedLater(t: Tracked, r: Tracked, k: nat)
    requires TrackedOk(t) && Reported(t, r, k) && k == NewestPromoted(t.h)
    ensures NewerLater(r)
  {
    HeadOrNext(t.h);
    forall a, b, i, j | 0 <= a < |r.log| && 0 <= b < |r.log| && 0 <= i < j < |r.h| && About(r, b, i) && About(r, a, j)
      ensures a < b
    {
      assert b < |t.log| ==> About(t, b, i);
      assert a < |t.log| ==> About(t, a, j);
    }
  }

  /** A healthy report on an entry that ended degraded opens an entry with an
      identity of its own, and is the first report on it. */
  lemma RecoveryTracks(t: Tracked, o: Observation, at: Time)
    requires TrackedOk(t) && IsSet(Seconds(at))
    requires var k := NewestPromoted(t.h); k < |t.h| && ChangeOf(t.h[k], o) == Recovered
    ensures TrackedOk(TrackObserve(t, o, at))
  {
    var k := NewestPromoted(t.h);
    var mid := Reopened(t, at);
    ReopenedTracks(t, at);
    assert mid.h[k] == RecoveryOf(t.h[k], at).(healthy := 0) && mid.ids[k] == t.next;
    ReportTracks(mid, o, at);
    RecoveryIsReport(t, o, at);
  }

  /** The recovery is the entry opened and then reported on. */
  lemma RecoveryIsReport(t: Tracked, o: Observation, at: Time)
    requires TrackedOk(t) && IsSet(Seconds(at))
    requires var k := NewestPromoted(t.h); k < |t.h| && ChangeOf(t.h[k], o) == Recovered
    requires NewestPromoted(Reopened(t, at).h) == NewestPromoted(t.h)
    ensures TrackObserve(t, o, at) == TrackObserve(Reopened(t, at), o, at)
  {
    var k, e := NewestPromoted(t.h), RecoveryOf(t.h[NewestPromoted(t.h)], at);
    HeadOrNext(t.h);
    CutUpdates(t.h[..k], e.(healthy := 0), e, t.h[k..]);
    CutIdAt(t.ids[..k], t.next, t.ids[k..]);
  }

  lemma CutUpdates(a: History, x: Entry, y: Entry, b: History)
    requires |a| < MAX_ENTRIES
    ensures |a| < |Cut(a + [x] + b)| && Cut(a + [x] + b)[|a|] == x && Cut(a + [x] + b)[|a| := y] == Cut(a + [y] + b)
  {
  }

  lemma CutIdAt(a: seq<nat>, x: nat, b: seq<nat>)
    requires |a| < MAX_ENTRIES
    ensures |a| < |CutIds(a + [x] + b)| && CutIds(a + [x] + b)[|a|] == x
  {
  }

  /** t with a recovery of its deployed entry that was not reported on yet. */
  function Reopened(t: Tracked, at: Time): Tracked
    requires |t.ids| == |t.h| && NewestPromoted(t.h) < |t.h|
  {
    var k := NewestPromoted(t.h);
    Tracked(Cut(t.h[..k] + [RecoveryOf(t.h[k], at).(healthy := 0)] + t.h[k..]),
            CutIds(t.ids[..k] + [t.next] + t.ids[k..]), t.next + 1, t.log)
  }

  lemma ReopenedTracks(t: Tracked, at: Time)
    requires TrackedOk(t) && IsSet(Seconds(at))
    requires var k := NewestPromoted(t.h); k < |t.h| && !t.h[k].Running()
    ensures TrackedOk(Reopened(t, at)) && NewestPromoted(Reopened(t, at).h) == NewestPromoted(t.h)
  {
    var k := NewestPromoted(t.h);
    HeadOrNext(t.h);
    ReopenMoves(t, at, k);
    WellFormedFrom(Reopened(t, at).h, k);
    Carries(t, Reopened(t, at), k, 0);
  }

  /** r is s with x inserted at k, as far as it goes. */
  predicate IsInserted<T(==)>(s: seq<T>, k: nat, x: T, r: seq<T>) {
    && k <= |s| && k < |r| <= |s| + 1
    && forall i :: 0 <= i < |r| ==> r[i] == if i == k then x else s[Source(k, 0, i)]
  }

  lemma {:induction false} Inserted<T>(s: seq<T>, k: nat, x: T, n: nat)
    requires k <= |s| && k < n <= |s| + 1
    ensures IsInserted(s, k, x, (s[..k] + [x] + s[k..])[..n])
  {
  }

  lemma {:induction false} ReopenInserts(t: Tracked, at: Time, k: nat)
    requires |t.ids| == |t.h| && k == NewestPromoted(t.h) < |t.h|
    ensures var r := Reopened(t, at);
            |r.ids| == |r.h| && (k < |r.h| ==>
              IsInserted(t.h, k, RecoveryOf(t.h[k], at).(healthy := 0), r.h) && IsInserted(t.ids, k, t.next, r.ids))
    ensures k >= |Reopened(t, at).h| ==> Reopened(t, at).h == t.h[..MAX_ENTRIES] && Reopened(t, at).ids == t.ids[..MAX_ENTRIES] && |t.h| >= MAX_ENTRIES
  {
    var n := if |t.h| + 1 > MAX_ENTRIES then MAX_ENTRIES else |t.h| + 1;
    var e := RecoveryOf(t.h[k], at).(healthy := 0);
    var full, ids := t.h[..k] + [e] + t.h[k..], t.ids[..k] + [t.next] + t.ids[k..];
    assert Reopened(t, at).h == full[..n] && Reopened(t, at).ids == ids[..n];
    if k < n {
      Inserted(t.h, k, e, n);
      Inserted(t.ids, k, t.next, n);
    } else {
      assert full[..n] == t.h[..n] && ids[..n] == t.ids[..n];
    }
  }

  lemma {:induction false} ReopenMoves(t: Tracked, at: Time, k: nat)
    requires |t.ids| == |t.h| && k == NewestPromoted(t.h) < |t.h|
    ensures Moved(t, Reopened(t, at), k, 0)
    ensures var r := Reopened(t, at).h; forall i :: 0 <= i < |r| ==>
              r[i] == if i == k then RecoveryOf(t.h[k], at).(healthy := 0) else t.h[Source(k, 0, i)]
  {
    ReopenInserts(t, at, k);
  }

  lemma {:induction false} DegradedStaysSeen(t: Tracked, r: Tracked, k: nat)
    requires TrackedOk(t) && Reported(t, r, k)
    ensures DegradedSeen(r)
  {
    forall i | 0 <= i < |r.h| && r.h[i].endReason == Degraded ensures SawDegraded(r.ids[i], r.h[i].ended) in r.log {
      if i != k || t.h[k].endReason == Degraded {
        assert SawDegraded(t.ids[i], t.h[i].ended) in t.log;
      }
    }
  }

  lemma HealthyStaysSeen(t: Tracked, r: Tracked, k: nat)
    requires TrackedOk(t) && |r.ids| == |r.h| && r.ids == t.ids && k < |t.h|
    requires forall i :: 0 <= i < |r.h| && i != k ==> r.h[i] == t.h[i]
    requires t.log <= r.log
    requires r.h[k].healthy == t.h[k].healthy || SawHealthy(r.ids[k], r.h[k].healthy) in r.log
    ensures HealthySeen(r)
  {
    forall i | 0 <= i < |r.h| && IsSet(r.h[i].healthy)
      ensures SawHealthy(r.ids[i], r.h[i].healthy) in r.log
    {
      if r.h[i].healthy == t.h[i].healthy {
        assert SawHealthy(t.ids[i], t.h[i].healthy) in t.log;
      }
    }
  }

  lemma {:induction false} TrackAllKeeps(ops: seq<Op>)
    requires AllValid(ops)
    ensures TrackedOk(TrackAll(Empty, ops))
  {
    if ops != [] {
      TrackAllKeeps(ops[..|ops| - 1]);
      TrackKeeps(TrackAll(Empty, ops[..|ops| - 1]), ops[|ops| - 1]);
    }
  }

  // ------------------------------------------------------------ the theorem

  /** What an entry needs to qualify a revision, but for its soak and record. */
  predicate Undegraded(e: Entry) {
    e.Promoted() && IsSet(e.healthy) && e.endReason != Degraded
  }

  /** The entry at position i was never reported degraded while it was
      deployed, its clock started at a healthy report on itself, and that
      report came after every report on any older entry. */
  ghost predicate Uninterrupted(t: Tracked, i: nat)
    requires |t.ids| == |t.h| && i < |t.h|
  {
    && (forall at :: SawDegraded(t.ids[i], at) !in t.log)
    && exists b :: 0 <= b < |t.log| && t.log[b] == SawHealthy(t.ids[i], t.h[i].healthy)
         && forall a, j :: b <= a < |t.log| && i < j < |t.h| ==> !About(t, a, j)
  }

  lemma QualifyingIsUninterrupted(t: Tracked, i: nat)
    requires TrackedOk(t) && i < |t.h| && Undegraded(t.h[i])
    ensures Uninterrupted(t, i)
  {
    assert SawHealthy(t.ids[i], t.h[i].healthy) in t.log;
    var b :| 0 <= b < |t.log| && t.log[b] == SawHealthy(t.ids[i], t.h[i].healthy);
    assert About(t, b, i);
    forall at ensures SawDegraded(t.ids[i], at) !in t.log {
      if SawDegraded(t.ids[i], at) in t.log {
        var c :| 0 <= c < |t.log| && t.log[c] == SawDegraded(t.ids[i], at);
        assert About(t, c, i);
        assert false;
      }
    }
  }

  /** In every history a stage can reach, whatever is opened, dropped, started
      and reported. */
  lemma UninterruptedSoak(ops: seq<Op>, i: nat)
    requires AllValid(ops) && i < |ApplyAll([], ops)| && Undegraded(ApplyAll([], ops)[i])
    ensures Uninterrupted(TrackAll(Empty, ops), i)
  {
    TrackAllKeeps(ops);
    QualifyingIsUninterrupted(TrackAll(Empty, ops), i);
  }

  /** A deployment that ended degraded ended when it was reported so. */
  lemma DegradedWhenReported(ops: seq<Op>, i: nat)
    requires AllValid(ops) && i < |ApplyAll([], ops)| && ApplyAll([], ops)[i].endReason == Degraded
    ensures var t := TrackAll(Empty, ops); SawDegraded(t.ids[i], t.h[i].ended) in t.log
  {
    TrackAllKeeps(ops);
  }
}
