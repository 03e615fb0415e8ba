/** Pinning and vendoring the images of a render: internal/images/stage.go,
    internal/images/reference.go. */
module Vendoring {
  import opened Options
  import opened Sequences
  import opened Sorting

  const MAX_IMAGES := 512
  const MAX_REF_LENGTH := 1024

  datatype Policy = PolicyRecord | PolicyPin | PolicyVendor

  // ---------------------------------------------------------------- references

  predicate StringLeq(a: string, b: string) { CompareStrings(a, b) <= 0 }

  lemma {:induction false} StringLeqIsTotal()
    ensures TotalPreorder(StringLeq)
  {
    forall a, b ensures StringLeq(a, b) || StringLeq(b, a) {
      CompareReverses(a, b);
    }
    forall a, b, c | StringLeq(a, b) && StringLeq(b, c) ensures StringLeq(a, c) {
      CompareIsTransitive(a, b, c);
    }
  }

  datatype UniqueResult = TooLong | TooMany | Unique(refs: seq<string>)

  /** The references sorted and without duplicates, unless they exceed what a
      Preparation can record. */
  method UniqueRefs(refs: seq<string>) returns (r: UniqueResult)
    ensures r == TooLong <==> exists i :: 0 <= i < |refs| && |refs[i]| > MAX_REF_LENGTH
    ensures r == TooMany ==> |set ref | ref in refs| > MAX_IMAGES
    ensures r.Unique? ==> |r.refs| <= MAX_IMAGES && NoDuplicates(r.refs) && SortedBy(r.refs, StringLeq)
    ensures r.Unique? ==> forall ref :: ref in r.refs <==> ref in refs
  {
    var seen: set<string>, unique: seq<string> := {}, [];
    for i := 0 to |refs|
      invariant seen == set ref | ref in refs[..i]
      invariant |unique| == |seen| && NoDuplicates(unique) && forall ref :: ref in unique <==> ref in seen
      invariant forall j :: 0 <= j < i ==> |refs[j]| <= MAX_REF_LENGTH
    {
      assert refs[..i + 1] == refs[..i] + [refs[i]];
      if refs[i] in seen {
        assert |refs[i]| <= MAX_REF_LENGTH by { LengthOfSeen(refs, i); }
        continue;
      }
      if |refs[i]| > MAX_REF_LENGTH {
        return TooLong;
      }
      seen := seen + {refs[i]};
      unique := unique + [refs[i]];
    }
    assert refs[..|refs|] == refs;
    if |unique| > MAX_IMAGES {
      return TooMany;
    }
    StringLeqIsTotal();
    SortSorts(unique, StringLeq);
    SortedHasNoDuplicates(unique);
    return Unique(SortBy(unique, StringLeq));
  }

  lemma {:induction false} LengthOfSeen(refs: seq<string>, i: nat)
    requires i < |refs| && refs[i] in refs[..i] && forall j :: 0 <= j < i ==> |refs[j]| <= MAX_REF_LENGTH
    ensures |refs[i]| <= MAX_REF_LENGTH
  {
    var j :| 0 <= j < i && refs[..i][j] == refs[i];
    assert refs[j] == refs[i];
  }

  lemma {:induction false} SortedHasNoDuplicates(s: seq<string>)
    requires NoDuplicates(s)
    ensures NoDuplicates(SortBy(s, StringLeq))
  {
    var t := SortBy(s, StringLeq);
    StringLeqIsTotal();
    SortSorts(s, StringLeq);
    forall i, j | 0 <= i < j < |t| ensures t[i] != t[j] {
      Once(s, t[i]);
      if t[i] == t[j] {
        Twice(t, i, j);
      }
    }
  }

  lemma {:induction false} Twice(t: seq<string>, i: nat, j: nat)
    requires i < j < |t| && t[i] == t[j]
    ensures multiset(t)[t[i]] >= 2
  {
    assert t == t[..j] + [t[j]] + t[j + 1..];
    assert t[..j][i] in multiset(t[..j]);
  }

  // ------------------------------------------------------------------- mirrors

  datatype Mirror = Mirror(prefix: string, location: string)

  function TrimSlash(s: string): string {
    if s != "" && s[|s| - 1] == '/' then s[..|s| - 1] else s
  }

  /** The mirror redirects name: its prefix is name, or ends at a slash in it. */
  predicate Redirects(m: Mirror, name: string) {
    var prefix := TrimSlash(m.prefix);
    name == prefix || prefix + "/" <= name
  }

  /** Of the first n mirrors that redirect name, the one at position k has the
      longest prefix, and is the first of them when several have. */
  predicate IsBest(mirrors: seq<Mirror>, n: nat, name: string, k: nat)
    requires n <= |mirrors|
  {
    && k < n && Redirects(mirrors[k], name)
    && forall j :: 0 <= j < n && Redirects(mirrors[j], name) ==>
         if j < k then PrefixLength(mirrors[j]) < PrefixLength(mirrors[k]) else PrefixLength(mirrors[j]) <= PrefixLength(mirrors[k])
  }

  function PrefixLength(m: Mirror): nat { |TrimSlash(m.prefix)| }

  function Trimmed(m: Mirror): Mirror { Mirror(TrimSlash(m.prefix), TrimSlash(m.location)) }

  method MatchMirror(mirrors: seq<Mirror>, name: string) returns (best: Option<Mirror>)
    ensures best.None? <==> forall m :: m in mirrors ==> !Redirects(m, name)
    ensures best.Some? ==> exists k: nat :: IsBest(mirrors, |mirrors|, name, k) && best.value == Trimmed(mirrors[k])
  {
    best := None;
    ghost var k: nat := 0;
    for i := 0 to |mirrors|
      invariant best.None? ==> forall j :: 0 <= j < i ==> !Redirects(mirrors[j], name)
      invariant best.Some? ==> IsBest(mirrors, i, name, k) && best.value == Trimmed(mirrors[k])
    {
      var prefix := TrimSlash(mirrors[i].prefix);
      if name != prefix && !(prefix + "/" <= name) {
        assert !Redirects(mirrors[i], name);
        continue;
      }
      assert Redirects(mirrors[i], name);
      if best.None? || |prefix| > |best.value.prefix| {
        best := Some(Mirror(prefix, TrimSlash(mirrors[i].location)));
        k := i;
      }
    }
  }

  // --------------------------------------------------------------- repositories

  /** In lower case, and with a port written as _<port>. */
  function RepositoryChar(c: char): char {
    if c == ':' then '_' else if 'A' <= c <= 'Z' then 'a' + (c - 'A') else c
  }

  function RepositoryName(name: string): string {
    seq(|name|, i requires 0 <= i < |name| => RepositoryChar(name[i]))
  }

  /** The repository an image is vendored into: its own, below root. */
  function VendoredRepository(root: string, name: string): string {
    root + "/images/" + RepositoryName(name)
  }

  // --------------------------------------------------------------------- jobs

  /** Where a vendored image is pulled from. */
  datatype Pull = Pull(repository: string, tag: string, digest: string)

  datatype Resolved = Resolved(
    ref: string,
    name: string,
    tag: string,
    digest: string,
    error: bool,
    source: string,
    lockedVendored: Option<Pull>)

  /** The repository and the digest an image is copied to. */
  datatype Target = Target(repository: string, digest: string)

  datatype Job = Job(source: string, target: Target, tags: seq<string>, locked: bool)

  /** What a reference is rewritten to: pinned to a digest, or vendored. */
  datatype Rewrite = Pinned(ref: string, digest: string) | Vendored(pull: Pull)

  /** Where images are vendored, and which repository names are valid. */
  datatype Vendor = Vendor(root: string, valid: string -> bool)

  function RepositoryOf(v: Vendor, r: Resolved): string { VendoredRepository(v.root, r.name) }

  /** The reference is rewritten to a vendored image. */
  predicate IsVendored(v: Vendor, r: Resolved) {
    r.digest != "" && v.valid(RepositoryOf(v, r))
  }

  function TargetOf(v: Vendor, r: Resolved): Target {
    Target(RepositoryOf(v, r), r.digest)
  }

  function PullOf(v: Vendor, r: Resolved): Pull {
    Pull(RepositoryOf(v, r), r.tag, r.digest)
  }

  /** The job copies the image of the reference. */
  predicate Copies(v: Vendor, job: Job, r: Resolved) {
    IsVendored(v, r) && job.target == TargetOf(v, r)
  }

  predicate IsLocked(v: Vendor, r: Resolved) {
    r.lockedVendored == Some(PullOf(v, r))
  }

  function TargetsIn(jobs: seq<Job>): (r: seq<Target>)
    ensures |r| == |jobs|
  {
    seq(|jobs|, i requires 0 <= i < |jobs| => jobs[i].target)
  }

  /** One of the first n references that the job copies names the tag. */
  predicate IsTagOf(v: Vendor, results: seq<Resolved>, n: nat, job: Job, tag: string)
    requires n <= |results|
  {
    exists i :: 0 <= i < n && Copies(v, job, results[i]) && results[i].tag == tag
  }

  predicate AllLocked(v: Vendor, results: seq<Resolved>, n: nat, job: Job)
    requires n <= |results|
  {
    forall i :: 0 <= i < n && Copies(v, job, results[i]) ==> IsLocked(v, results[i])
  }

  /** The job is the copy of an image that the first n references name: it carries
      exactly the tags they name, sorted and once each, and is locked exactly when
      all of them are. */
  ghost predicate JobOk(v: Vendor, results: seq<Resolved>, n: nat, job: Job)
    requires n <= |results|
  {
    && (exists i :: 0 <= i < n && Copies(v, job, results[i]) && job.source == results[i].source)
    && (forall tag :: tag in job.tags <==> tag != "" && IsTagOf(v, results, n, job, tag))
    && NoDuplicates(job.tags) && SortedBy(job.tags, StringLeq)
    && (job.locked <==> AllLocked(v, results, n, job))
  }

  predicate Covered(v: Vendor, results: seq<Resolved>, n: nat, jobs: seq<Job>)
    requires n <= |results|
  {
    forall i :: 0 <= i < n && IsVendored(v, results[i]) ==> exists j :: 0 <= j < |jobs| && Copies(v, jobs[j], results[i])
  }

  ghost predicate AllJobsOk(v: Vendor, results: seq<Resolved>, n: nat, jobs: seq<Job>)
    requires n <= |results|
  {
    forall j {:trigger JobOk(v, results, n, jobs[j])} :: 0 <= j < |jobs| ==> JobOk(v, results, n, jobs[j])
  }

  ghost predicate JobsOk(v: Vendor, results: seq<Resolved>, n: nat, jobs: seq<Job>)
    requires n <= |results|
  {
    NoDuplicates(TargetsIn(jobs)) && AllJobsOk(v, results, n, jobs) && Covered(v, results, n, jobs)
  }

  function Tagged(tags: seq<string>, tag: string): seq<string> {
    if tag == "" || tag in tags then tags else SortBy(tags + [tag], StringLeq)
  }

  /** The job with one more reference that it copies. */
  function WithRef(v: Vendor, job: Job, r: Resolved): Job {
    job.(locked := job.locked && IsLocked(v, r), tags := Tagged(job.tags, r.tag))
  }

  lemma {:induction false} TaggedKeeps(tags: seq<string>, tag: string)
    requires NoDuplicates(tags) && SortedBy(tags, StringLeq)
    ensures NoDuplicates(Tagged(tags, tag)) && SortedBy(Tagged(tags, tag), StringLeq)
    ensures forall t :: t in Tagged(tags, tag) <==> t in tags || (t == tag && tag != "")
  {
    StringLeqIsTotal();
    if tag != "" && tag !in tags {
      SortSorts(tags + [tag], StringLeq);
      SortedHasNoDuplicates(tags + [tag]);
    }
  }

  /** A job that does not copy the next reference stays as it is. */
  lemma {:induction false} OtherJobKeeps(v: Vendor, results: seq<Resolved>, n: nat, job: Job)
    requires n < |results| && JobOk(v, results, n, job) && !Copies(v, job, results[n])
    ensures JobOk(v, results, n + 1, job)
  {
    forall tag ensures IsTagOf(v, results, n + 1, job, tag) <==> IsTagOf(v, results, n, job, tag) {
    }
  }

  lemma {:induction false} JobGrows(v: Vendor, results: seq<Resolved>, n: nat, job: Job)
    requires n < |results| && JobOk(v, results, n, job) && Copies(v, job, results[n])
    ensures JobOk(v, results, n + 1, WithRef(v, job, results[n]))
  {
    var more := WithRef(v, job, results[n]);
    TaggedKeeps(job.tags, results[n].tag);
    forall tag ensures IsTagOf(v, results, n + 1, more, tag) <==> IsTagOf(v, results, n, job, tag) || tag == results[n].tag {
      if IsTagOf(v, results, n, job, tag) {
        var i :| 0 <= i < n && Copies(v, job, results[i]) && results[i].tag == tag;
        assert Copies(v, more, results[i]);
      }
      if tag == results[n].tag {
        assert Copies(v, more, results[n]);
      }
      if IsTagOf(v, results, n + 1, more, tag) && tag != results[n].tag {
        var i :| 0 <= i < n + 1 && Copies(v, more, results[i]) && results[i].tag == tag;
        assert Copies(v, job, results[i]);
      }
    }
    assert AllLocked(v, results, n + 1, more) <==> AllLocked(v, results, n, job) && IsLocked(v, results[n]) by {
      assert forall i :: 0 <= i < |results| ==> Copies(v, more, results[i]) == Copies(v, job, results[i]);
    }
    var i :| 0 <= i < n && Copies(v, job, results[i]) && job.source == results[i].source;
    assert Copies(v, more, results[i]);
  }

  lemma {:induction false} JobStarts(v: Vendor, results: seq<Resolved>, n: nat)
    requires n < |results| && IsVendored(v, results[n])
    requires var job := Job(results[n].source, TargetOf(v, results[n]), [], true);
             forall i :: 0 <= i < n ==> !Copies(v, job, results[i])
    ensures var r := results[n];
            var job := Job(r.source, TargetOf(v, r), [], true);
            JobOk(v, results, n + 1, WithRef(v, job, r)) && Copies(v, job, r)
  {
    var r := results[n];
    var job := Job(r.source, TargetOf(v, r), [], true);
    var more := WithRef(v, job, r);
    TaggedKeeps([], r.tag);
    assert Copies(v, more, results[n]);
    OnlyTag(v, results, n + 1, more);
  }

  lemma {:induction false} OnlyTag(v: Vendor, results: seq<Resolved>, n: nat, job: Job)
    requires 0 < n <= |results| && Copies(v, job, results[n - 1]) && forall i :: 0 <= i < n - 1 ==> !Copies(v, job, results[i])
    ensures forall tag :: IsTagOf(v, results, n, job, tag) ==> tag == results[n - 1].tag
    ensures IsTagOf(v, results, n, job, results[n - 1].tag)
  {
  }

  // --------------------------------------------------------------- implementation

  /** What a reference is rewritten to, if it is. */
  function RewriteOf(vendor: Option<Vendor>, r: Resolved): Option<Rewrite> {
    if vendor.Some? then if IsVendored(vendor.value, r) then Some(Vendored(PullOf(vendor.value, r))) else None
    else if r.digest != "" && '@' !in r.ref then Some(Pinned(r.ref, r.digest))
    else None
  }

  function RefsIn(results: seq<Resolved>): (r: seq<string>)
    ensures |r| == |results|
  {
    seq(|results|, i requires 0 <= i < |results| => results[i].ref)
  }

  function Lookup<K, V>(m: map<K, V>, k: K): Option<V> {
    if k in m then Some(m[k]) else None
  }

  /** The rewrites are those of the first n references, and no others. */
  ghost predicate RewritesOk(vendor: Option<Vendor>, results: seq<Resolved>, n: nat, rewrites: map<string, Rewrite>)
    requires n <= |results|
  {
    && (forall i :: 0 <= i < n ==> Lookup(rewrites, RefsIn(results)[i]) == RewriteOf(vendor, results[i]))
    && (forall ref :: ref in rewrites ==> ref in RefsIn(results)[..n])
  }

  lemma {:induction false} RewritesStep(vendor: Option<Vendor>, results: seq<Resolved>, n: nat, rewrites: map<string, Rewrite>)
    requires n < |results| && NoDuplicates(RefsIn(results)) && RewritesOk(vendor, results, n, rewrites)
    ensures var w := RewriteOf(vendor, results[n]);
            RewritesOk(vendor, results, n + 1, if w.Some? then rewrites[results[n].ref := w.value] else rewrites)
  {
    var refs := RefsIn(results);
    assert refs[..n + 1] == refs[..n] + [refs[n]];
    NotBefore(refs, n);
  }

  lemma {:induction false} NotBefore<T>(s: seq<T>, n: nat)
    requires NoDuplicates(s) && n < |s|
    ensures s[n] !in s[..n]
  {
  }

  /** Some image cannot be vendored, for the name of its repository. */
  predicate HasInvalid(v: Vendor, results: seq<Resolved>, n: nat)
    requires n <= |results|
  {
    exists i :: 0 <= i < n && results[i].digest != "" && !v.valid(RepositoryOf(v, results[i]))
  }

  /** Pins or vendors the resolved images: the rewrites of their references, and
      the copies to make. */
  method RewriteRefs(vendor: Option<Vendor>, results: seq<Resolved>, dryRun: bool)
    returns (ok: bool, rewrites: map<string, Rewrite>, jobs: seq<Job>)
    requires NoDuplicates(RefsIn(results))
    ensures !ok <==> !dryRun && ((exists r :: r in results && r.error) || (vendor.Some? && HasInvalid(vendor.value, results, |results|)))
    ensures ok ==> RewritesOk(vendor, results, |results|, rewrites)
    ensures ok ==> if vendor.Some? then JobsOk(vendor.value, results, |results|, jobs) else jobs == []
  {
    rewrites, jobs := map[], [];
    if !dryRun && exists r :: r in results && r.error {
      return false, map[], [];
    }
    var valid;
    if vendor.None? {
      rewrites := PinRefs(results);
      return true, rewrites, [];
    }
    valid, rewrites, jobs := VendorRefs(vendor.value, results);
    ok := dryRun || valid;
  }

  method PinRefs(results: seq<Resolved>) returns (rewrites: map<string, Rewrite>)
    requires NoDuplicates(RefsIn(results))
    ensures RewritesOk(None, results, |results|, rewrites)
  {
    rewrites := map[];
    for i := 0 to |results|
      invariant RewritesOk(None, results, i, rewrites)
    {
      RewritesStep(None, results, i, rewrites);
      var result := results[i];
      if result.digest == "" {
        continue;
      }
      if '@' !in result.ref {
        rewrites := rewrites[result.ref := Pinned(result.ref, result.digest)];
      }
    }
  }

  /** What the first n references come to. */
  ghost predicate Progress(v: Vendor, results: seq<Resolved>, n: nat, valid: bool, rewrites: map<string, Rewrite>, jobs: seq<Job>, queued: map<Target, nat>)
    requires n <= |results|
  {
    && (valid <==> !HasInvalid(v, results, n))
    && RewritesOk(Some(v), results, n, rewrites)
    && JobsOk(v, results, n, jobs) && IsIndex(TargetsIn(jobs), queued)
  }

  method VendorRefs(v: Vendor, results: seq<Resolved>) returns (valid: bool, rewrites: map<string, Rewrite>, jobs: seq<Job>)
    requires NoDuplicates(RefsIn(results))
    ensures valid <==> !HasInvalid(v, results, |results|)
    ensures RewritesOk(Some(v), results, |results|, rewrites)
    ensures JobsOk(v, results, |results|, jobs)
  {
    valid, rewrites, jobs := true, map[], [];
    var queued: map<Target, nat> := map[];
    for i := 0 to |results|
      invariant Progress(v, results, i, valid, rewrites, jobs, queued)
    {
      valid, rewrites, jobs, queued := VendorRef(v, results, i, valid, rewrites, jobs, queued);
    }
  }

  /** The next reference. One that cannot be vendored is left as it is written. */
  method VendorRef(v: Vendor, results: seq<Resolved>, i: nat, valid: bool, rewrites: map<string, Rewrite>, jobs: seq<Job>, queued: map<Target, nat>)
    returns (valid': bool, rewrites': map<string, Rewrite>, jobs': seq<Job>, queued': map<Target, nat>)
    requires i < |results| && NoDuplicates(RefsIn(results)) && Progress(v, results, i, valid, rewrites, jobs, queued)
    ensures Progress(v, results, i + 1, valid', rewrites', jobs', queued')
  {
    var result := results[i];
    RewritesStep(Some(v), results, i, rewrites);
    InvalidStep(v, results, i);
    if result.digest == "" {
      SkipKeeps(v, results, i, jobs);
      return valid, rewrites, jobs, queued;
    }
    if !v.valid(RepositoryOf(v, result)) {
      SkipKeeps(v, results, i, jobs);
      return false, rewrites, jobs, queued;
    }
    valid', rewrites' := valid, rewrites[result.ref := Vendored(PullOf(v, result))];
    jobs', queued' := Queue(v, results, i, jobs, queued);
  }

  lemma {:induction false} InvalidStep(v: Vendor, results: seq<Resolved>, n: nat)
    requires n < |results|
    ensures HasInvalid(v, results, n + 1) <==>
            HasInvalid(v, results, n) || (results[n].digest != "" && !v.valid(RepositoryOf(v, results[n])))
  {
    if HasInvalid(v, results, n) {
      var i :| 0 <= i < n && results[i].digest != "" && !v.valid(RepositoryOf(v, results[i]));
    }
  }

  lemma {:induction false} SkipKeeps(v: Vendor, results: seq<Resolved>, n: nat, jobs: seq<Job>)
    requires n < |results| && !IsVendored(v, results[n]) && JobsOk(v, results, n, jobs)
    ensures JobsOk(v, results, n + 1, jobs)
  {
    forall j | 0 <= j < |jobs| ensures JobOk(v, results, n + 1, jobs[j]) {
      OtherJobKeeps(v, results, n, jobs[j]);
    }
  }

  /** References written differently can name the same image: it is copied once
      and tagged with each tag. */
  method Queue(v: Vendor, results: seq<Resolved>, i: nat, jobs: seq<Job>, queued: map<Target, nat>)
    returns (more: seq<Job>, moreQueued: map<Target, nat>)
    requires i < |results| && IsVendored(v, results[i]) && JobsOk(v, results, i, jobs) && IsIndex(TargetsIn(jobs), queued)
    ensures JobsOk(v, results, i + 1, more) && IsIndex(TargetsIn(more), moreQueued)
  {
    var result := results[i];
    var target := TargetOf(v, result);
    if target in queued {
      var j := queued[target];
      assert TargetsIn(jobs)[j] == jobs[j].target;
      var job := AddRef(v, jobs[j], result);
      JobReplaced(v, results, i, jobs, j);
      return jobs[j := job], queued;
    }
    var job := AddRef(v, Job(result.source, target, [], true), result);
    JobAdded(v, results, i, jobs, queued);
    return jobs + [job], queued[target := |jobs|];
  }

  method AddRef(v: Vendor, job: Job, result: Resolved) returns (more: Job)
    ensures more == WithRef(v, job, result)
  {
    more := job.(locked := job.locked && result.lockedVendored == Some(PullOf(v, result)));
    if result.tag != "" && result.tag !in job.tags {
      more := more.(tags := SortBy(job.tags + [result.tag], StringLeq));
    }
  }

  lemma {:induction false} StillCovered(v: Vendor, results: seq<Resolved>, n: nat, jobs: seq<Job>, more: seq<Job>, j: nat)
    requires n < |results| && Covered(v, results, n, jobs) && TargetsIn(jobs) <= TargetsIn(more)
    requires j < |more| && Copies(v, more[j], results[n])
    ensures Covered(v, results, n + 1, more)
  {
    forall i | 0 <= i < n + 1 && IsVendored(v, results[i]) ensures exists k :: 0 <= k < |more| && Copies(v, more[k], results[i]) {
      if i < n {
        var k :| 0 <= k < |jobs| && Copies(v, jobs[k], results[i]);
        assert TargetsIn(more)[k] == TargetsIn(jobs)[k];
        assert Copies(v, more[k], results[i]);
      }
    }
  }

  lemma {:induction false} JobReplaced(v: Vendor, results: seq<Resolved>, n: nat, jobs: seq<Job>, j: nat)
    requires n < |results| && j < |jobs| && JobsOk(v, results, n, jobs) && Copies(v, jobs[j], results[n])
    ensures var more := jobs[j := WithRef(v, jobs[j], results[n])];
            JobsOk(v, results, n + 1, more) && TargetsIn(more) == TargetsIn(jobs)
  {
    var job := WithRef(v, jobs[j], results[n]);
    TargetsStay(jobs, j, job);
    AllJobsKeep(v, results, n, jobs, j);
    assert Copies(v, jobs[j := job][j], results[n]);
    StillCovered(v, results, n, jobs, jobs[j := job], j);
  }

  lemma {:induction false} TargetsStay(jobs: seq<Job>, j: nat, job: Job)
    requires j < |jobs| && job.target == jobs[j].target
    ensures TargetsIn(jobs[j := job]) == TargetsIn(jobs)
  {
  }

  lemma {:induction false} AllJobsKeep(v: Vendor, results: seq<Resolved>, n: nat, jobs: seq<Job>, j: nat)
    requires n < |results| && j < |jobs| && NoDuplicates(TargetsIn(jobs)) && AllJobsOk(v, results, n, jobs) && Copies(v, jobs[j], results[n])
    ensures AllJobsOk(v, results, n + 1, jobs[j := WithRef(v, jobs[j], results[n])])
  {
    var more := jobs[j := WithRef(v, jobs[j], results[n])];
    assert JobOk(v, results, n, jobs[j]);
    JobGrows(v, results, n, jobs[j]);
    forall k | 0 <= k < |more| ensures JobOk(v, results, n + 1, more[k]) {
      if k != j {
        OtherKeeps(v, results, n, jobs, j, k);
      }
    }
  }

  lemma {:induction false} OtherKeeps(v: Vendor, results: seq<Resolved>, n: nat, jobs: seq<Job>, j: nat, k: nat)
    requires n < |results| && j < |jobs| && k < |jobs| && k != j && NoDuplicates(TargetsIn(jobs)) && AllJobsOk(v, results, n, jobs)
    requires Copies(v, jobs[j], results[n])
    ensures JobOk(v, results, n + 1, jobs[k])
  {
    if Copies(v, jobs[k], results[n]) {
      OnlyOneCopies(v, jobs, j, k, results[n]);
    } else {
      OtherJobKeeps(v, results, n, jobs[k]);
    }
  }

  lemma {:induction false} OnlyOneCopies(v: Vendor, jobs: seq<Job>, j: nat, k: nat, r: Resolved)
    requires NoDuplicates(TargetsIn(jobs)) && j < |jobs| && k < |jobs| && Copies(v, jobs[j], r) && Copies(v, jobs[k], r)
    ensures j == k
  {
    assert TargetsIn(jobs)[j] == TargetsIn(jobs)[k];
  }

  lemma {:induction false} JobAdded(v: Vendor, results: seq<Resolved>, n: nat, jobs: seq<Job>, queued: map<Target, nat>)
    requires n < |results| && IsVendored(v, results[n]) && JobsOk(v, results, n, jobs) && IsIndex(TargetsIn(jobs), queued)
    requires TargetOf(v, results[n]) !in queued
    ensures var t := TargetOf(v, results[n]);
            var more := jobs + [WithRef(v, Job(results[n].source, t, [], true), results[n])];
            JobsOk(v, results, n + 1, more) && IsIndex(TargetsIn(more), queued[t := |jobs|])
  {
    var r := results[n];
    var job := Job(r.source, TargetOf(v, r), [], true);
    var more := jobs + [WithRef(v, job, r)];
    assert TargetsIn(more) == TargetsIn(jobs) + [TargetOf(v, r)];
    IndexAdds(TargetsIn(jobs), queued, TargetOf(v, r));
    NoneCopies(v, jobs, queued, r);
    NoneBefore(v, results, n, jobs, job);
    JobStarts(v, results, n);
    forall k | 0 <= k < |jobs| ensures JobOk(v, results, n + 1, more[k]) {
      OtherJobKeeps(v, results, n, jobs[k]);
    }
    assert Copies(v, more[|jobs|], r);
    StillCovered(v, results, n, jobs, more, |jobs|);
  }

  lemma {:induction false} NoneCopies(v: Vendor, jobs: seq<Job>, queued: map<Target, nat>, r: Resolved)
    requires IsIndex(TargetsIn(jobs), queued) && TargetOf(v, r) !in queued
    ensures forall k :: 0 <= k < |jobs| ==> !Copies(v, jobs[k], r)
  {
    forall k | 0 <= k < |jobs| ensures !Copies(v, jobs[k], r) {
      assert TargetsIn(jobs)[k] in queued;
    }
  }

  lemma {:induction false} NoneBefore(v: Vendor, results: seq<Resolved>, n: nat, jobs: seq<Job>, job: Job)
    requires n < |results| && Covered(v, results, n, jobs) && forall k :: 0 <= k < |jobs| ==> !Copies(v, jobs[k], results[n])
    requires Copies(v, job, results[n])
    ensures forall i :: 0 <= i < n ==> !Copies(v, job, results[i])
  {
    forall i, k | 0 <= i < n && 0 <= k < |jobs| && Copies(v, jobs[k], results[i]) ensures !Copies(v, job, results[i]) {
      assert !Copies(v, jobs[k], results[n]);
    }
  }

  // -------------------------------------------------------------- what the jobs do

  /** Every reference that is rewritten to a vendored image is covered by exactly
      one job, which copies its digest into its repository and tags it as it asks. */
  lemma {:induction false} CoveredOnce(v: Vendor, results: seq<Resolved>, jobs: seq<Job>, i: nat) returns (j: nat)
    requires JobsOk(v, results, |results|, jobs) && i < |results| && IsVendored(v, results[i])
    ensures j < |jobs| && jobs[j].target == Target(RepositoryOf(v, results[i]), results[i].digest)
    ensures results[i].tag != "" ==> results[i].tag in jobs[j].tags
    ensures jobs[j].locked ==> IsLocked(v, results[i])
    ensures forall k :: 0 <= k < |jobs| && k != j ==> !Copies(v, jobs[k], results[i])
  {
    j :| 0 <= j < |jobs| && Copies(v, jobs[j], results[i]);
    assert JobOk(v, results, |results|, jobs[j]);
    assert IsTagOf(v, results, |results|, jobs[j], results[i].tag);
    NoOtherCopies(v, jobs, j, results[i]);
  }

  lemma {:induction false} NoOtherCopies(v: Vendor, jobs: seq<Job>, j: nat, r: Resolved)
    requires NoDuplicates(TargetsIn(jobs)) && j < |jobs| && Copies(v, jobs[j], r)
    ensures forall k :: 0 <= k < |jobs| && k != j ==> !Copies(v, jobs[k], r)
  {
    forall k | 0 <= k < |jobs| && k != j ensures !Copies(v, jobs[k], r) {
      if Copies(v, jobs[k], r) {
        OnlyOneCopies(v, jobs, j, k, r);
      }
    }
  }

  /** The reference is vendored into repository under tag. */
  predicate Names(v: Vendor, r: Resolved, repository: string, tag: string) {
    IsVendored(v, r) && RepositoryOf(v, r) == repository && r.tag == tag
  }

  predicate Pushes(job: Job, repository: string, tag: string) {
    job.target.repository == repository && tag in job.tags
  }

  ghost predicate PushedTwice(jobs: seq<Job>, repository: string, tag: string) {
    exists i, j :: 0 <= i < |jobs| && 0 <= j < |jobs| && i != j && Pushes(jobs[i], repository, tag) && Pushes(jobs[j], repository, tag)
  }

  ghost predicate NamedTwice(v: Vendor, results: seq<Resolved>, repository: string, tag: string) {
    exists a, b :: 0 <= a < |results| && 0 <= b < |results| && Names(v, results[a], repository, tag) && Names(v, results[b], repository, tag)
                   && TargetOf(v, results[a]) != TargetOf(v, results[b])
  }

  lemma {:induction false} PushedIsNamed(v: Vendor, results: seq<Resolved>, jobs: seq<Job>, i: nat, repository: string, tag: string) returns (a: nat)
    requires JobsOk(v, results, |results|, jobs) && i < |jobs| && Pushes(jobs[i], repository, tag)
    ensures a < |results| && Names(v, results[a], repository, tag) && TargetOf(v, results[a]) == TargetsIn(jobs)[i]
  {
    assert JobOk(v, results, |results|, jobs[i]);
    assert IsTagOf(v, results, |results|, jobs[i], tag);
    a :| 0 <= a < |results| && Copies(v, jobs[i], results[a]) && results[a].tag == tag;
  }

  /** A tag of a repository is pushed by two jobs exactly when two references name
      it with different digests: it is the digest, not the tag, that a vendored
      reference can be relied on to reach. */
  lemma {:induction false} TagPushedTwiceIff(v: Vendor, results: seq<Resolved>, jobs: seq<Job>, repository: string, tag: string)
    requires JobsOk(v, results, |results|, jobs) && tag != ""
    ensures PushedTwice(jobs, repository, tag) <==> NamedTwice(v, results, repository, tag)
  {
    if PushedTwice(jobs, repository, tag) {
      var i, j :| 0 <= i < |jobs| && 0 <= j < |jobs| && i != j && Pushes(jobs[i], repository, tag) && Pushes(jobs[j], repository, tag);
      var a := PushedIsNamed(v, results, jobs, i, repository, tag);
      var b := PushedIsNamed(v, results, jobs, j, repository, tag);
      TargetsDiffer(TargetsIn(jobs), i, j);
    }
    if NamedTwice(v, results, repository, tag) {
      var a, b :| 0 <= a < |results| && 0 <= b < |results| && Names(v, results[a], repository, tag) && Names(v, results[b], repository, tag)
                  && TargetOf(v, results[a]) != TargetOf(v, results[b]);
      var i := CoveredOnce(v, results, jobs, a);
      var j := CoveredOnce(v, results, jobs, b);
      assert Pushes(jobs[i], repository, tag) && Pushes(jobs[j], repository, tag);
    }
  }

  lemma {:induction false} TargetsDiffer<T>(s: seq<T>, i: nat, j: nat)
    requires NoDuplicates(s) && i < |s| && j < |s| && i != j
    ensures s[i] != s[j]
  {
    assert i < j || j < i;
  }
}
