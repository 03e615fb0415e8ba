/** What Kokumi reads of an Argo CD Application, and caches of it:
    internal/argocd/application.go. */
module Applications {
  import opened Options

  datatype JSON =
    | Null
    | Bool(b: bool)
    | Number(n: int)
    | Str(s: string)
    | List(items: seq<JSON>)
    | Obj(fields: map<string, JSON>)

  // ------------------------------------------------------------------- reading

  /** The value at path, through objects only. */
  function Field(v: JSON, path: seq<string>): Option<JSON>
    decreases |path|
  {
    if path == [] then Some(v)
    else if v.Obj? && path[0] in v.fields then Field(v.fields[path[0]], path[1..])
    else None
  }

  /** The string at path, "" when there is none. */
  function StringAt(v: JSON, path: seq<string>): string {
    var f := Field(v, path);
    if f.Some? && f.value.Str? then f.value.s else ""
  }

  predicate HasString(v: JSON, path: seq<string>) {
    var f := Field(v, path);
    f.Some? && f.value.Str?
  }

  function ObjectAt(v: JSON, path: seq<string>): Option<map<string, JSON>> {
    var f := Field(v, path);
    if f.Some? && f.value.Obj? then Some(f.value.fields) else None
  }

  function Get(m: map<string, JSON>, key: string): JSON {
    if key in m then m[key] else Null
  }

  datatype Phase = Missing | Rejected | Degraded | Healthy | Progressing

  datatype State = State(phase: Phase, revision: string, message: string)

  /** The message of the first InvalidSpecError condition. */
  function InvalidSpecOf(conditions: seq<JSON>): Option<string> {
    if conditions == [] then None
    else
      var c := conditions[0];
      if c.Obj? && Get(c.fields, "type") == Str("InvalidSpecError") then
        Some(if Get(c.fields, "message").Str? then Get(c.fields, "message").s else "")
      else InvalidSpecOf(conditions[1..])
  }

  function InvalidSpec(app: JSON): Option<string> {
    var f := Field(app, ["status", "conditions"]);
    if f.Some? && f.value.List? then InvalidSpecOf(f.value.items) else None
  }

  /** Argo CD's last comparison was against the current source. */
  predicate ComparedCurrentSource(app: JSON) {
    var compared, source := ObjectAt(app, ["status", "sync", "comparedTo", "source"]), ObjectAt(app, ["spec", "source"]);
    compared.Some? && forall field :: field in ["repoURL", "targetRevision", "path"] ==>
      Get(compared.value, field) == Get(if source.Some? then source.value else map[], field)
  }

  /** There was no sync operation, or the last one succeeded at revision. */
  predicate SyncFinished(app: JSON, revision: string) {
    HasString(app, ["status", "operationState", "phase"]) ==>
      && StringAt(app, ["status", "operationState", "phase"]) == "Succeeded"
      && StringAt(app, ["status", "operationState", "syncResult", "revision"]) == revision
  }

  /** What Argo CD reports on an Application. */
  function StateOf(app: Option<JSON>): State {
    if app.None? then State(Missing, "", "")
    else if InvalidSpec(app.value).Some? then State(Rejected, "", InvalidSpec(app.value).value)
    else
      var a := app.value;
      var revision, health := StringAt(a, ["status", "sync", "revision"]), StringAt(a, ["status", "health", "status"]);
      var phase :=
        if health == "Degraded" then Degraded
        else if StringAt(a, ["status", "sync", "status"]) == "Synced" && health == "Healthy" && ComparedCurrentSource(a) && SyncFinished(a, revision)
        then Healthy else Progressing;
      State(phase, revision, StringAt(a, ["status", "health", "message"]))
  }

  /** What the watch of Applications compares. */
  function WatchedState(app: JSON): seq<string> {
    [StringAt(app, ["status", "health", "status"]),
     StringAt(app, ["status", "sync", "status"]),
     StringAt(app, ["status", "sync", "revision"]),
     StringAt(app, ["status", "sync", "comparedTo", "source", "targetRevision"]),
     StringAt(app, ["status", "operationState", "phase"]),
     StringAt(app, ["status", "operationState", "syncResult", "revision"]),
     if InvalidSpec(app).Some? then InvalidSpec(app).value else "",
     StringAt(app, ["metadata", "annotations", "delivery.kokumi.dev/allowed-order"])]
  }

  // ------------------------------------------------------------------ trimming

  /** The fields of the status that Kokumi reads. */
  const TRIMMED: seq<seq<string>> := [
    ["sync", "status"], ["sync", "revision"], ["sync", "comparedTo", "source"],
    ["health", "status"], ["health", "message"],
    ["operationState", "phase"], ["operationState", "syncResult", "revision"],
    ["conditions"]
  ]

  /** v with value at path; the objects on the way are made when there are none. */
  function SetField(v: map<string, JSON>, path: seq<string>, value: JSON): map<string, JSON>
    requires path != []
    decreases |path|
  {
    if |path| == 1 then v[path[0] := value]
    else
      var inner := Get(v, path[0]);
      v[path[0] := Obj(SetField(if inner.Obj? then inner.fields else map[], path[1..], value))]
  }

  /** The first n of paths, as far as status has them. */
  function Kept(status: JSON, paths: seq<seq<string>>, n: nat): map<string, JSON>
    requires n <= |paths| && forall i :: 0 <= i < n ==> paths[i] != []
  {
    if n == 0 then map[]
    else
      var f, kept := Field(status, paths[n - 1]), Kept(status, paths, n - 1);
      if f.Some? then SetField(kept, paths[n - 1], f.value) else kept
  }

  /** The Application with only the part of its status that Kokumi reads. */
  function Trimmed(app: JSON): JSON {
    var status := ObjectAt(app, ["status"]);
    if status.None? then app else Obj(app.fields["status" := Obj(Kept(Obj(status.value), TRIMMED, |TRIMMED|))])
  }

  method TrimStatus(app: JSON) returns (trimmed: JSON)
    ensures trimmed == Trimmed(app)
  {
    var status := ObjectAt(app, ["status"]);
    if status.None? {
      return app;
    }
    var kept: map<string, JSON> := map[];
    for i := 0 to |TRIMMED|
      invariant kept == Kept(Obj(status.value), TRIMMED, i)
    {
      var value := Field(Obj(status.value), TRIMMED[i]);
      if value.Some? {
        kept := SetField(kept, TRIMMED[i], value.value);
      }
    }
    trimmed := Obj(app.fields["status" := Obj(kept)]);
  }

  // ----------------------------------------------------------- what is preserved

  /** Neither path is a prefix of the other. */
  predicate Apart(p: seq<string>, q: seq<string>) {
    !(p <= q) && !(q <= p)
  }

  /** Every object on the way along path is one, or there is nothing there. */
  predicate Open(v: map<string, JSON>, path: seq<string>)
    decreases |path|
  {
    |path| <= 1 || path[0] !in v || (v[path[0]].Obj? && Open(v[path[0]].fields, path[1..]))
  }

  /** Setting a field sets it, and leaves every field apart from it. */
  lemma {:induction false} SetFieldSets(v: map<string, JSON>, path: seq<string>, value: JSON)
    requires path != []
    ensures Field(Obj(SetField(v, path, value)), path) == Some(value)
    decreases |path|
  {
    if |path| > 1 {
      var inner := Get(v, path[0]);
      SetFieldSets(if inner.Obj? then inner.fields else map[], path[1..], value);
    } else {
      assert Field(value, path[1..]) == Some(value);
    }
  }

  lemma {:induction false} SetFieldLeaves(v: map<string, JSON>, path: seq<string>, value: JSON, other: seq<string>)
    requires path != [] && Apart(path, other) && Open(v, path)
    ensures Field(Obj(SetField(v, path, value)), other) == Field(Obj(v), other)
    decreases |path|
  {
    if other != [] && path[0] == other[0] {
      ApartInside(path, other);
      var inner := Get(v, path[0]);
      var fields := if inner.Obj? then inner.fields else map[];
      SetFieldLeaves(fields, path[1..], value, other[1..]);
      if path[0] !in v {
        assert Field(Obj(map[]), other[1..]) == None;
      }
    }
  }

  lemma {:induction false} ApartInside(p: seq<string>, q: seq<string>)
    requires Apart(p, q) && p != [] && q != [] && p[0] == q[0]
    ensures |p| > 1 && |q| > 1 && Apart(p[1..], q[1..])
  {
    assert p == [p[0]] + p[1..] && q == [q[0]] + q[1..];
  }

  /** Setting one field keeps the way along another open. */
  lemma {:induction false} SetFieldKeepsOpen(v: map<string, JSON>, path: seq<string>, value: JSON, other: seq<string>)
    requires path != [] && Apart(path, other) && Open(v, path) && Open(v, other)
    ensures Open(SetField(v, path, value), other)
    decreases |path|
  {
    if other != [] && path[0] == other[0] && |other| > 1 {
      ApartInside(path, other);
      var inner := Get(v, path[0]);
      SetFieldKeepsOpen(if inner.Obj? then inner.fields else map[], path[1..], value, other[1..]);
    }
  }

  predicate AllApart(paths: seq<seq<string>>) {
    forall i, j :: 0 <= i < j < |paths| ==> Apart(paths[i], paths[j])
  }

  predicate NoneEmpty(paths: seq<seq<string>>) {
    forall i :: 0 <= i < |paths| ==> paths[i] != []
  }

  /** What is kept is what there was, at each of the paths taken so far. */
  lemma {:induction false} KeptIs(status: JSON, paths: seq<seq<string>>, n: nat, i: nat)
    requires n <= |paths| && i < |paths| && AllApart(paths) && NoneEmpty(paths)
    ensures Open(Kept(status, paths, n), paths[i])
    ensures Field(Obj(Kept(status, paths, n)), paths[i]) == if i < n then Field(status, paths[i]) else None
  {
    if n == 0 {
      assert paths[i] != [];
    } else {
      var kept, path := Kept(status, paths, n - 1), paths[n - 1];
      KeptIs(status, paths, n - 1, i);
      KeptIs(status, paths, n - 1, n - 1);
      var f := Field(status, path);
      if f.Some? {
        if i == n - 1 {
          SetFieldSets(kept, path, f.value);
          SetOpens(kept, path, f.value);
        } else {
          assert Apart(path, paths[i]);
          SetFieldLeaves(kept, path, f.value, paths[i]);
          SetFieldKeepsOpen(kept, path, f.value, paths[i]);
        }
      }
    }
  }

  lemma {:induction false} SetOpens(v: map<string, JSON>, path: seq<string>, value: JSON)
    requires path != []
    ensures Open(SetField(v, path, value), path)
    decreases |path|
  {
    if |path| > 1 {
      var inner := Get(v, path[0]);
      SetOpens(if inner.Obj? then inner.fields else map[], path[1..], value);
    }
  }

  /** Nothing else is kept. */
  lemma {:induction false} KeptOnly(status: JSON, paths: seq<seq<string>>, n: nat, other: seq<string>)
    requires n <= |paths| && AllApart(paths) && NoneEmpty(paths)
    requires other != [] && forall i :: 0 <= i < |paths| ==> Apart(paths[i], other)
    ensures Field(Obj(Kept(status, paths, n)), other) == None
  {
    if n > 0 {
      KeptOnly(status, paths, n - 1, other);
      KeptIs(status, paths, n - 1, n - 1);
      var f := Field(status, paths[n - 1]);
      if f.Some? {
        SetFieldLeaves(Kept(status, paths, n - 1), paths[n - 1], f.value, other);
      }
    }
  }

  lemma {:induction false} KeptAlike(a: JSON, b: JSON, paths: seq<seq<string>>, n: nat)
    requires n <= |paths| && NoneEmpty(paths) && forall i :: 0 <= i < n ==> Field(a, paths[i]) == Field(b, paths[i])
    ensures Kept(a, paths, n) == Kept(b, paths, n)
  {
    if n > 0 {
      KeptAlike(a, b, paths, n - 1);
    }
  }

  lemma {:induction false} FieldOf(v: JSON, p: seq<string>, rest: seq<string>)
    ensures Field(v, p + rest) == if Field(v, p).Some? then Field(Field(v, p).value, rest) else None
    decreases |p|
  {
    if p == [] {
      assert p + rest == rest;
    } else if v.Obj? && p[0] in v.fields {
      FieldOf(v.fields[p[0]], p[1..], rest);
      assert (p + rest)[1..] == p[1..] + rest;
    }
  }

  lemma TrimmedPathsAreApart()
    ensures AllApart(TRIMMED) && NoneEmpty(TRIMMED)
  {
    forall i, j | 0 <= i < j < |TRIMMED| ensures Apart(TRIMMED[i], TRIMMED[j]) {
      DifferEarly(TRIMMED[i], TRIMMED[j]);
    }
  }

  lemma DifferEarly(p: seq<string>, q: seq<string>)
    requires p != [] && q != [] && (p[0] != q[0] || (|p| > 1 && |q| > 1 && p[1] != q[1]))
    ensures Apart(p, q)
  {
  }

  /** Whatever is at or below a field that is kept stays what it is. */
  lemma {:induction false} TrimKeeps(app: JSON, i: nat, rest: seq<string>)
    requires i < |TRIMMED|
    ensures Field(Trimmed(app), ["status"] + TRIMMED[i] + rest) == Field(app, ["status"] + TRIMMED[i] + rest)
  {
    var status := ObjectAt(app, ["status"]);
    if status.Some? {
      TrimmedPathsAreApart();
      KeptIs(Obj(status.value), TRIMMED, |TRIMMED|, i);
      var path := TRIMMED[i] + rest;
      assert ["status"] + TRIMMED[i] + rest == ["status"] + path;
      FieldOf(app, ["status"], path);
      FieldOf(Trimmed(app), ["status"], path);
      assert ["status"][1..] == [];
      FieldOf(Obj(status.value), TRIMMED[i], rest);
      FieldOf(Obj(Kept(Obj(status.value), TRIMMED, |TRIMMED|)), TRIMMED[i], rest);
    }
  }

  /** Trimming touches nothing but the status. */
  lemma {:induction false} TrimLeaves(app: JSON, path: seq<string>)
    requires path != [] && path[0] != "status"
    ensures Field(Trimmed(app), path) == Field(app, path)
  {
  }

  predicate SameAt(a: JSON, b: JSON, path: seq<string>) {
    Field(a, path) == Field(b, path)
  }

  /** a and b agree on every field that is read. */
  predicate SameReads(a: JSON, b: JSON) {
    && SameAt(a, b, ["status", "sync", "status"])
    && SameAt(a, b, ["status", "sync", "revision"])
    && SameAt(a, b, ["status", "sync", "comparedTo", "source"])
    && SameAt(a, b, ["status", "sync", "comparedTo", "source", "targetRevision"])
    && SameAt(a, b, ["status", "health", "status"])
    && SameAt(a, b, ["status", "health", "message"])
    && SameAt(a, b, ["status", "operationState", "phase"])
    && SameAt(a, b, ["status", "operationState", "syncResult", "revision"])
    && SameAt(a, b, ["status", "conditions"])
    && SameAt(a, b, ["spec", "source"])
    && SameAt(a, b, ["metadata", "annotations", "delivery.kokumi.dev/allowed-order"])
  }

  lemma {:induction false} SameString(a: JSON, b: JSON, path: seq<string>)
    requires SameAt(a, b, path)
    ensures StringAt(a, path) == StringAt(b, path) && HasString(a, path) == HasString(b, path)
  {
  }

  lemma {:induction false} SameWatched(a: JSON, b: JSON)
    requires SameReads(a, b)
    ensures InvalidSpec(a) == InvalidSpec(b) && WatchedState(a) == WatchedState(b)
  {
    SameString(a, b, ["status", "sync", "status"]);
    SameString(a, b, ["status", "sync", "revision"]);
    SameString(a, b, ["status", "sync", "comparedTo", "source", "targetRevision"]);
    SameString(a, b, ["status", "health", "status"]);
    SameString(a, b, ["status", "operationState", "phase"]);
    SameString(a, b, ["status", "operationState", "syncResult", "revision"]);
    SameString(a, b, ["metadata", "annotations", "delivery.kokumi.dev/allowed-order"]);
  }

  lemma {:induction false} SameCompared(a: JSON, b: JSON)
    requires SameAt(a, b, ["status", "sync", "comparedTo", "source"]) && SameAt(a, b, ["spec", "source"])
    ensures ComparedCurrentSource(a) == ComparedCurrentSource(b)
  {
  }

  lemma {:induction false} SameFinished(a: JSON, b: JSON, revision: string)
    requires SameAt(a, b, ["status", "operationState", "phase"]) && SameAt(a, b, ["status", "operationState", "syncResult", "revision"])
    ensures SyncFinished(a, revision) == SyncFinished(b, revision)
  {
  }

  lemma {:induction false} SameState(a: JSON, b: JSON)
    requires SameReads(a, b)
    ensures StateOf(Some(a)) == StateOf(Some(b))
  {
    SameWatched(a, b);
    SameString(a, b, ["status", "sync", "status"]);
    SameString(a, b, ["status", "sync", "revision"]);
    SameString(a, b, ["status", "health", "status"]);
    SameString(a, b, ["status", "health", "message"]);
    SameCompared(a, b);
    SameFinished(a, b, StringAt(a, ["status", "sync", "revision"]));
  }

  lemma {:induction false} TrimKeepsAt(app: JSON, i: nat, path: seq<string>)
    requires i < |TRIMMED| && path == ["status"] + TRIMMED[i]
    ensures SameAt(Trimmed(app), app, path)
  {
    TrimKeeps(app, i, []);
    assert ["status"] + TRIMMED[i] + [] == path;
  }

  lemma {:induction false} TrimKeepsReads(app: JSON)
    ensures SameReads(Trimmed(app), app)
  {
    TrimKeepsAt(app, 0, ["status", "sync", "status"]);
    TrimKeepsAt(app, 1, ["status", "sync", "revision"]);
    TrimKeepsAt(app, 2, ["status", "sync", "comparedTo", "source"]);
    TrimKeepsAt(app, 3, ["status", "health", "status"]);
    TrimKeepsAt(app, 4, ["status", "health", "message"]);
    TrimKeepsAt(app, 5, ["status", "operationState", "phase"]);
    TrimKeepsAt(app, 6, ["status", "operationState", "syncResult", "revision"]);
    TrimKeepsAt(app, 7, ["status", "conditions"]);
    TrimKeeps(app, 2, ["targetRevision"]);
    assert ["status"] + TRIMMED[2] + ["targetRevision"] == ["status", "sync", "comparedTo", "source", "targetRevision"];
    assert "spec" != "status" && "metadata" != "status";
    TrimLeaves(app, ["spec", "source"]);
    TrimLeaves(app, ["metadata", "annotations", "delivery.kokumi.dev/allowed-order"]);
  }

  /** The Applications Kokumi caches say what they said before they were trimmed,
      for every Application, however malformed: their state, and what their watch
      compares. */
  lemma {:induction false} TrimIsFaithful(app: JSON)
    ensures StateOf(Some(Trimmed(app))) == StateOf(Some(app))
    ensures WatchedState(Trimmed(app)) == WatchedState(app)
  {
    TrimKeepsReads(app);
    SameState(Trimmed(app), app);
    SameWatched(Trimmed(app), app);
  }

  /** Trimming twice is trimming once, and of the status only the fields Kokumi
      reads are left. */
  lemma {:induction false} TrimIsMinimal(app: JSON, other: seq<string>)
    ensures Trimmed(Trimmed(app)) == Trimmed(app)
    ensures ObjectAt(app, ["status"]).Some? && other != [] && (forall i :: 0 <= i < |TRIMMED| ==> Apart(TRIMMED[i], other)) ==>
              Field(Trimmed(app), ["status"] + other) == None
  {
    var status := ObjectAt(app, ["status"]);
    TrimmedPathsAreApart();
    if status.Some? {
      var kept := Kept(Obj(status.value), TRIMMED, |TRIMMED|);
      forall i | 0 <= i < |TRIMMED| ensures Field(Obj(kept), TRIMMED[i]) == Field(Obj(status.value), TRIMMED[i]) {
        KeptIs(Obj(status.value), TRIMMED, |TRIMMED|, i);
      }
      KeptAlike(Obj(kept), Obj(status.value), TRIMMED, |TRIMMED|);
      assert ["status"][1..] == [];
      assert ObjectAt(Trimmed(app), ["status"]) == Some(kept);
      assert app.fields["status" := Obj(kept)]["status" := Obj(kept)] == app.fields["status" := Obj(kept)];
      if other != [] && forall i :: 0 <= i < |TRIMMED| ==> Apart(TRIMMED[i], other) {
        KeptOnly(Obj(status.value), TRIMMED, |TRIMMED|, other);
        FieldOf(Trimmed(app), ["status"], other);
      }
    }
  }
}
