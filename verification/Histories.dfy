/** The deployment history of a stage: internal/promotion/history.go. */
module Histories {
  import opened Options
  import opened Times

  const MAX_ENTRIES := 16

  datatype EndReason = NotEnded | Superseded | Degraded

  /** One continuous deployment of a Preparation by a stage. An unset time is
      0 and an absent record is "". */
  datatype Entry = Entry(
    preparation: string,
    digest: string,
    ociRef: string,
    registry: string,
    revision: string,
    started: Time,
    healthy: Time,
    ended: Time,
    endReason: EndReason,
    promotionRecord: string,
    deploymentRecord: string)
  {
    predicate Running() { !IsSet(ended) }

    predicate Promoted() { promotionRecord != "" }
  }

  /** The deployments of a stage, newest first. */
  type History = seq<Entry>

  datatype Step = StepDeployed | StepOpen | StepRecord

  datatype Health = Progressing | Healthy | Degrading

  datatype Observation = Observation(revision: string, health: Health)

  // ---------------------------------------------------------------- reading

  /** The position of the newest promoted entry, |h| when there is none. */
  function NewestPromoted(h: History): (i: nat)
    ensures i <= |h|
    ensures i < |h| ==> h[i].Promoted()
    ensures forall j :: 0 <= j < i ==> !h[j].Promoted()
  {
    if h == [] then 0 else if h[0].Promoted() then 0 else 1 + NewestPromoted(h[1..])
  }

  function Deployed(h: History): Option<Entry> {
    var i := NewestPromoted(h);
    if i < |h| then Some(h[i]) else None
  }

  function Pending(h: History): Option<Entry> {
    if h == [] || h[0].Promoted() then None else Some(h[0])
  }

  /** The newest promoted entry of preparation. */
  function PromotedBefore(h: History, preparation: string): (r: Option<Entry>)
    ensures r.Some? ==> r.value in h && r.value.preparation == preparation && r.value.Promoted()
    ensures r.None? ==> forall e :: e in h && e.preparation == preparation ==> !e.Promoted()
  {
    if h == [] then None
    else if h[0].preparation == preparation && h[0].Promoted() then Some(h[0])
    else PromotedBefore(h[1..], preparation)
  }

  /** What promoting candidate, which passed its gates, takes next. */
  function Next(h: History, candidate: string): Step {
    var deployed, pending := Deployed(h), Pending(h);
    if deployed.Some? && deployed.value.preparation == candidate then StepDeployed
    else if pending.Some? && pending.value.preparation == candidate then StepRecord
    else StepOpen
  }

  // --------------------------------------------------------------- changing

  function Cut(h: History): (r: History)
    ensures |r| <= MAX_ENTRIES && r <= h
  {
    if |h| > MAX_ENTRIES then h[..MAX_ENTRIES] else h
  }

  function Prepend(h: History, e: Entry): History {
    Cut([e] + h)
  }

  /** candidate as a pending entry: its times, end and records are ignored. */
  function PendingEntry(candidate: Entry, now: Time): Entry {
    candidate.(started := Seconds(now), healthy := 0, ended := 0, endReason := NotEnded,
    promotionRecord := "", deploymentRecord := "")
  }

  function Open(h: History, candidate: Entry, now: Time): History {
    Prepend(Drop(h), PendingEntry(candidate, now))
  }

  function Drop(h: History): History {
    if Pending(h).None? then h else h[1..]
  }

  /** What the entry at position i becomes when the pending entry starts. */
  function StartedEntry(h: History, record: string, i: nat): Entry
    requires Pending(h).Some? && i < |h|
  {
    if i == 0 then h[0].(promotionRecord := record)
    else if i == 1 + NewestPromoted(h[1..]) && h[i].Running() then h[i].(ended := h[0].started, endReason := Superseded)
    else h[i]
  }

  function Started(h: History, record: string): (r: History)
    ensures |r| == |h|
  {
    if Pending(h).None? then h else seq(|h|, i requires 0 <= i < |h| => StartedEntry(h, record, i))
  }

  /** How a report on the deployed entry e changes the history. */
  datatype Change = NoChange | BecameHealthy | Recovered | Ended

  function ChangeOf(e: Entry, o: Observation): Change {
    if e.digest != o.revision then NoChange
    else if o.health == Healthy && e.Running() && !IsSet(e.healthy) then BecameHealthy
    else if o.health == Healthy && e.endReason == Degraded then Recovered
    else if o.health == Degrading && e.Running() then Ended
    else NoChange
  }

  function RecoveryOf(e: Entry, now: Time): Entry {
    e.(started := Seconds(now), healthy := Seconds(now), ended := 0, endReason := NotEnded, deploymentRecord := "")
  }

  function Observed(h: History, o: Observation, now: Time): History {
    var i := NewestPromoted(h);
    if i == |h| then h else
    match ChangeOf(h[i], o)
    case NoChange => h
    case BecameHealthy => h[i := h[i].(healthy := Seconds(now))]
    case Recovered => Cut(h[..i] + [RecoveryOf(h[i], now)] + h[i..])
    case Ended => h[i := h[i].(ended := Seconds(now), endReason := Degraded)]
  }

  function DeploymentRecorded(h: History, digest: string, healthy: Time, record: string): (r: History)
    ensures |r| == |h|
  {
    seq(|h|, i requires 0 <= i < |h| =>
      if h[i].digest == digest && h[i].healthy == healthy then h[i].(deploymentRecord := record) else h[i])
  }

  predicate IsUnrecorded(e: Entry) {
    e.Promoted() && IsSet(e.healthy) && e.deploymentRecord == ""
  }

  function UnrecordedOf(h: History): (r: seq<Entry>)
    ensures forall e :: e in r <==> e in h && IsUnrecorded(e)
  {
    if h == [] then []
    else if IsUnrecorded(h[|h| - 1]) then UnrecordedOf(h[..|h| - 1]) + [h[|h| - 1]]
    else UnrecordedOf(h[..|h| - 1])
  }

  // ------------------------------------------- the operations that assign in place

  /** Promotes the pending entry under record and supersedes the deployed one. */
  method Start(h: History, record: string) returns (r: History)
    ensures r == Started(h, record)
  {
    if Pending(h).None? {
      return h;
    }
    r := h;
    var previous := 1 + NewestPromoted(h[1..]);
    if previous < |r| && r[previous].Running() {
      r := r[previous := r[previous].(ended := r[0].started, endReason := Superseded)];
    }
    r := r[0 := r[0].(promotionRecord := record)];
  }

  /** Applies a report, and says whether it changed the history. */
  method Observe(h: History, o: Observation, now: Time) returns (r: History, changed: bool)
    ensures r == Observed(h, o, now)
    ensures IsSet(Seconds(now)) ==> changed == (r != h)
    ensures !changed ==> r == h
  {
    var i := 0;
    while i < |h| && !h[i].Promoted()
      invariant i <= |h|
      invariant forall j :: 0 <= j < i ==> !h[j].Promoted()
    {
      i := i + 1;
    }
    if i == |h| || h[i].digest != o.revision {
      return h, false;
    }
    var deployed := h[i];
    var at := Seconds(now);
    if o.health == Healthy && deployed.Running() && !IsSet(deployed.healthy) {
      r := h[i := deployed.(healthy := at)];
      assert IsSet(at) ==> r[i] != h[i];
    } else if o.health == Healthy && deployed.endReason == Degraded {
      var recovery := Entry(deployed.preparation, deployed.digest, deployed.ociRef, deployed.registry,
                            deployed.revision, at, at, 0, NotEnded, deployed.promotionRecord, "");
      r := h[..i] + [recovery] + h[i..];
      assert r[i] != h[i];
      if |r| > MAX_ENTRIES {
        r := r[..MAX_ENTRIES];
      }
    } else if o.health == Degrading && deployed.Running() {
      r := h[i := deployed.(ended := at, endReason := Degraded)];
      assert IsSet(at) ==> r[i] != h[i];
    } else {
      return h, false;
    }
    changed := true;
  }

  /** Sets record on every entry of digest that became healthy at healthy. */
  method RecordDeployment(h: History, digest: string, healthy: Time, record: string) returns (r: History)
    ensures r == DeploymentRecorded(h, digest, healthy, record)
  {
    r := h;
    for i := 0 to |h|
      invariant |r| == |h|
      invariant r[..i] == DeploymentRecorded(h, digest, healthy, record)[..i]
      invariant r[i..] == h[i..]
    {
      assert r[i] == h[i];
      if r[i].digest == digest && r[i].healthy == healthy {
        r := r[i := r[i].(deploymentRecord := record)];
      }
    }
  }

  /** Collects the entries that were healthy and have no deployment record. */
  method Unrecorded(h: History) returns (unrecorded: seq<Entry>)
    ensures unrecorded == UnrecordedOf(h)
  {
    unrecorded := [];
    for i := 0 to |h|
      invariant unrecorded == UnrecordedOf(h[..i])
    {
      assert h[..i + 1][..i] == h[..i];
      if h[i].Promoted() && IsSet(h[i].healthy) && h[i].deploymentRecord == "" {
        unrecorded := unrecorded + [h[i]];
      }
    }
    assert h[..|h|] == h;
  }
}
