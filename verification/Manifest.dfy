/**
 Reading and writing objects as YAML (internal/k8s/manifest.go) and the apply
 handler in front of it (internal/api/k8s/k8s.go). A YAML text is taken for the
 document it parses to; serialising is not part of this model.
 */
module Manifest {
  import opened Prelude
  import opened ClusterStore
  import opened YamlFields
  import opened KubeNames

  function WithVersion(f: Fields, version: string): Fields {
    f["metadata" := Map(MetaOf(f)["resourceVersion" := Text(version)])]
  }

  predicate Editable(kind: string) {
    kind == "deployment" || kind == "statefulset" || kind == "daemonset" || kind == "service" || kind == "configmap"
  }

  const STRIPPED: seq<string> := ["managedFields", "creationTimestamp", "uid", "resourceVersion", "generation"]

  /** What is left to edit; an object without a metadata map is left alone entirely. */
  function Stripped(f: Fields): Fields {
    if "metadata" in f && f["metadata"].Map? then
      f["metadata" := Map(f["metadata"].m - set x | x in STRIPPED)] - {"status"}
    else f
  }

  /** `g` is `f` for editing: without the status and the five metadata fields the server manages, all else as it was. */
  ghost predicate ForEditing(f: Fields, g: Fields) {
    if "metadata" in f && f["metadata"].Map? then
      && g.Keys == f.Keys - {"status"}
      && (forall x :: x in g && x != "metadata" ==> g[x] == f[x])
      && g["metadata"].Map?
      && g["metadata"].m.Keys == f["metadata"].m.Keys - {"managedFields", "creationTimestamp", "uid", "resourceVersion", "generation"}
      && (forall x :: x in g["metadata"].m ==> g["metadata"].m[x] == f["metadata"].m[x])
    else g == f
  }

  lemma StrippedForEditing(f: Fields)
    ensures ForEditing(f, Stripped(f))
  {
  }

  class Unstructured {
    var fields: Fields

    constructor (fields: Fields)
      ensures this.fields == fields
    {
      this.fields := fields;
    }

    method StripMeta()
      modifies this
      ensures fields == Stripped(old(fields))
      ensures ForEditing(old(fields), fields)
    {
      ghost var whole := fields;
      if "metadata" in fields && fields["metadata"].Map? {
        var meta := DropManaged(fields["metadata"].m);
        fields := fields["metadata" := Map(meta)];
        fields := fields - {"status"};
      }
      StrippedForEditing(whole);
    }

    /** The loop over the fields to delete. */
    static method DropManaged(m: Fields) returns (meta: Fields)
      ensures meta == m - set x | x in STRIPPED
    {
      meta := m;
      for i := 0 to |STRIPPED|
        invariant meta == m - set k | 0 <= k < i :: STRIPPED[k]
      {
        meta := meta - {STRIPPED[i]};
      }
      assert (set k | 0 <= k < |STRIPPED| :: STRIPPED[k]) == set x | x in STRIPPED;
    }
  }

  // ---- get and apply ----

  datatype ApplyError =
    | KindNotEditable | BadYaml | Mismatch | VersionConflict | MissingObject | Inadmissible | NotAllowed | BadRequest

  datatype Applied = Ok(version: string, obj: Fields) | Err(error: ApplyError)

  function FromOutcome(r: Outcome<Fields>): Applied {
    match r
    case Updated(v, o) => Ok(v, o)
    case Conflict => Err(VersionConflict)
    case NotFound => Err(MissingObject)
    case RejectedInvalid => Err(Inadmissible)
    case RejectedForbidden => Err(NotAllowed)
  }

  datatype Loaded = Loaded(yaml: Yaml, version: string)

  function GetManifest(c: Cluster<Fields>, kind: string, namespace: string, name: string): Option<Loaded> {
    var key := Key(ToLower(kind), namespace, name);
    if Editable(key.kind) && key in c.objects then
      Some(Loaded(Document(Stripped(c.objects[key].obj)), c.objects[key].version))
    else None
  }

  /** What the update sends to the server: the document with the version to replace written in. */
  function Submitted(y: Yaml, version: string): Fields
    requires y.Document?
  {
    WithVersion(y.fields, version)
  }

  function ApplyManifest(c: Cluster<Fields>, kind: string, namespace: string, name: string,
                         y: Yaml, version: string, dryRun: bool, s: Choice<Fields>): (Applied, Cluster<Fields>)
  {
    var norm := ToLower(kind);
    if !Editable(norm) then (Err(KindNotEditable), c)
    else if !y.Document? then (Err(BadYaml), c)
    else if ToLower(KindOf(y.fields)) != norm then (Err(Mismatch), c)
    else if NameOf(y.fields) != name then (Err(Mismatch), c)
    else if NamespaceOf(y.fields) != namespace then (Err(Mismatch), c)
    else
      var (r, c') := Update(c, Key(norm, namespace, name), version, dryRun, s);
      (FromOutcome(r), c')
  }

  /** Which answer an apply gets: the checks in order, then the API server's. */
  ghost predicate ApplyReplies(c: Cluster<Fields>, kind: string, namespace: string, name: string,
                               y: Yaml, version: string, dryRun: bool, s: Choice<Fields>, r: Applied)
  {
    var key := Key(ToLower(kind), namespace, name);
    if key.kind !in {"deployment", "statefulset", "daemonset", "service", "configmap"} then r == Err(KindNotEditable)
    else if !y.Document? then r == Err(BadYaml)
    else if !Addressed(key, y.fields) then r == Err(Mismatch)
    else if s.admits == Forbidden then r == Err(NotAllowed)
    else if key !in c.objects then r == Err(MissingObject)
    else if version != "" && version != c.objects[key].version then r == Err(VersionConflict)
    else if s.admits == Invalid then r == Err(Inadmissible)
    else r == Ok(if dryRun || s.persisted == c.objects[key].obj then c.objects[key].version else s.next, s.persisted)
  }

  /** And what it leaves: a new revision of the one object if it went through and changed it, and otherwise nothing new. */
  ghost predicate ApplyLeaves(c: Cluster<Fields>, key: Key, dryRun: bool, s: Choice<Fields>, r: Applied, after: Cluster<Fields>) {
    if r.Ok? && !dryRun && key in c.objects && s.persisted != c.objects[key].obj then
      && after.objects == c.objects[key := Stored(s.next, s.persisted)]
      && after.history == c.history[s.next := Revision(key, s.persisted)]
    else after == c
  }

  /** The client half of the API server, for code that updates it in place. */
  class KubeClient {
    var cluster: Cluster<Fields>

    constructor (cluster: Cluster<Fields>)
      ensures this.cluster == cluster
    {
      this.cluster := cluster;
    }

    method Get(kind: string, namespace: string, name: string) returns (r: Option<Loaded>)
      ensures r == GetManifest(cluster, kind, namespace, name)
      ensures r.Some? <==> ToLower(kind) in {"deployment", "statefulset", "daemonset", "service", "configmap"}
                           && Key(ToLower(kind), namespace, name) in cluster.objects
      ensures r.Some? ==>
                var stored := cluster.objects[Key(ToLower(kind), namespace, name)];
                r.value.version == stored.version && r.value.yaml.Document? && ForEditing(stored.obj, r.value.yaml.fields)
    {
      var norm := ToLower(kind);
      var key := Key(norm, namespace, name);
      if !Editable(norm) || key !in cluster.objects {
        return None;
      }
      var stored := cluster.objects[key];
      var obj := new Unstructured(stored.obj);
      obj.StripMeta();
      r := Some(Loaded(Document(obj.fields), stored.version));
    }

    method Apply(kind: string, namespace: string, name: string, y: Yaml, version: string, dryRun: bool, s: Choice<Fields>)
      returns (r: Applied)
      modifies this
      ensures (r, cluster) == ApplyManifest(old(cluster), kind, namespace, name, y, version, dryRun, s)
      ensures ApplyReplies(old(cluster), kind, namespace, name, y, version, dryRun, s, r)
      ensures ApplyLeaves(old(cluster), Key(ToLower(kind), namespace, name), dryRun, s, r, cluster)
    {
      ApplySpelledOut(cluster, kind, namespace, name, y, version, dryRun, s);
      var norm := ToLower(kind);
      if !Editable(norm) {
        return Err(KindNotEditable);
      }
      if !y.Document? {
        return Err(BadYaml);
      }
      if ToLower(KindOf(y.fields)) != norm || NameOf(y.fields) != name || NamespaceOf(y.fields) != namespace {
        return Err(Mismatch);
      }
      var reply := Update(cluster, Key(norm, namespace, name), version, dryRun, s);
      cluster := reply.1;
      r := FromOutcome(reply.0);
    }
  }

  // ---- the handler ----

  datatype Request = Request(yaml: Yaml, version: string, dryRun: bool)

  /** The handler's own checks: text and version given, an address in the text, its kind editable, its names valid. */
  ghost predicate Accepts(q: Request) {
    && q.yaml != Empty
    && q.version != ""
    && TargetOf(q.yaml).Some?
    && var k := TargetOf(q.yaml).value;
    Editable(ToLower(k.kind)) && ValidName(k.namespace) && ValidName(k.name)
  }

  ghost function HandleApply(c: Cluster<Fields>, q: Request, s: Choice<Fields>): (Applied, Cluster<Fields>) {
    if !Accepts(q) then (Err(BadRequest), c)
    else
      var k := TargetOf(q.yaml).value;
      var (r, c') := ApplyManifest(c, k.kind, k.namespace, k.name, q.yaml, q.version, q.dryRun, s);
      // a dry run answers with the version it was given
      (if r.Ok? && q.dryRun then Ok(q.version, r.obj) else r, c')
  }

  // ---- what a caller can rely on ----

  /** `sent` agrees with `f` on every field but the status, the version and the other server-managed metadata. */
  ghost predicate SameButManaged(sent: Fields, f: Fields) {
    && (forall x :: x != "status" && x != "metadata" ==> (x in sent <==> x in f) && (x in f ==> sent[x] == f[x]))
    && (forall x :: x !in {"managedFields", "creationTimestamp", "uid", "resourceVersion", "generation"} ==>
          (x in MetaOf(sent) <==> x in MetaOf(f)) && (x in MetaOf(f) ==> MetaOf(sent)[x] == MetaOf(f)[x]))
    && "status" !in sent
  }

  lemma StrippedThenVersioned(f: Fields, version: string)
    requires "metadata" in f && f["metadata"].Map?
    ensures SameButManaged(WithVersion(Stripped(f), version), f)
    ensures StringAt(MetaOf(WithVersion(Stripped(f), version)), "resourceVersion") == version
  {
  }

  lemma StrippingKeepsAddress(f: Fields)
    ensures KindOf(Stripped(f)) == KindOf(f) && NameOf(Stripped(f)) == NameOf(f) && NamespaceOf(Stripped(f)) == NamespaceOf(f)
  {
    assert "name" !in STRIPPED && "namespace" !in STRIPPED;
  }

  /** A request the checks let through is a versioned update of the object its text names. */
  lemma ValidRequestIsUpdate(c: Cluster<Fields>, q: Request, s: Choice<Fields>)
    requires Accepts(q) && Addressed(TargetOf(q.yaml).value, q.yaml.fields)
    ensures var (u, after) := Update(c, TargetOf(q.yaml).value, q.version, q.dryRun, s);
            HandleApply(c, q, s) == (if u.Updated? && q.dryRun then Ok(q.version, u.obj) else FromOutcome(u), after)
  {
    ToLowerIdempotent(Decoded(q.yaml.fields, "kind"));
  }

  lemma InvalidRequestIsRefused(c: Cluster<Fields>, q: Request, s: Choice<Fields>)
    ensures !Accepts(q) ==> HandleApply(c, q, s) == (Err(BadRequest), c)
    ensures Accepts(q) && !Addressed(TargetOf(q.yaml).value, q.yaml.fields) ==> HandleApply(c, q, s) == (Err(Mismatch), c)
  {
    if TargetOf(q.yaml).Some? {
      ToLowerIdempotent(Decoded(q.yaml.fields, "kind"));
    }
  }

  lemma LoadedNamesItsObject(k: Key, f: Fields)
    requires Addressed(k, f) && OneSpelling(f) && Editable(k.kind) && ValidName(k.namespace) && ValidName(k.name)
    ensures "metadata" in f && f["metadata"].Map? && ToLower(k.kind) == k.kind
    ensures TargetOf(Document(Stripped(f))) == Some(k) && Addressed(k, Stripped(f))
  {
    assert NameOf(f) != "" && "metadata" in f && f["metadata"].Map?;
    StrippingKeepsAddress(f);
    OneSpellingDecodes(k, Stripped(f));
  }

  lemma LoadedRequestIsUpdate(c: Cluster<Fields>, k: Key, f: Fields, version: string, dryRun: bool, s: Choice<Fields>)
    requires Addressed(k, f) && OneSpelling(f) && version != ""
    requires Editable(k.kind) && ValidName(k.namespace) && ValidName(k.name)
    requires k in c.objects && c.objects[k].version == version
    ensures var (r, after) := Update(c, k, version, dryRun, s);
            HandleApply(c, Request(Document(Stripped(f)), version, dryRun), s) == (FromOutcome(r), after)
  {
    LoadedNamesItsObject(k, f);
    ValidRequestIsUpdate(c, Request(Document(Stripped(f)), version, dryRun), s);
  }

  /**
   Loading an object and sending it back unchanged reaches the same object under
   the version loaded, and what is sent agrees with what is stored on every
   field but the status and the five server-managed ones.
   */
  lemma GetThenApplyRoundTrip(c: Cluster<Fields>, k: Key, dryRun: bool, s: Choice<Fields>)
    requires k in c.objects && Addressed(k, c.objects[k].obj) && OneSpelling(c.objects[k].obj)
    requires Editable(k.kind) && ValidName(k.namespace) && ValidName(k.name) && c.objects[k].version != ""
    ensures var got := GetManifest(c, k.kind, k.namespace, k.name);
            && got.Some?
            && TargetOf(got.value.yaml) == Some(k)
            && SameButManaged(Submitted(got.value.yaml, got.value.version), c.objects[k].obj)
            && StringAt(MetaOf(Submitted(got.value.yaml, got.value.version)), "resourceVersion") == c.objects[k].version
            && var (r, after) := Update(c, k, c.objects[k].version, dryRun, s);
            HandleApply(c, Request(got.value.yaml, got.value.version, dryRun), s) == (FromOutcome(r), after)
  {
    var f := c.objects[k].obj;
    LoadedNamesItsObject(k, f);
    StrippedThenVersioned(f, c.objects[k].version);
    LoadedRequestIsUpdate(c, k, f, c.objects[k].version, dryRun, s);
  }

  /** The answer of the update itself is none of the checks'. */
  lemma UpdateIsNoCheck(u: Outcome<Fields>, q: Request)
    ensures var r := if u.Updated? && q.dryRun then Ok(q.version, u.obj) else FromOutcome(u);
            r != Err(Mismatch) && r != Err(KindNotEditable) && r != Err(BadRequest)
  {
  }

  lemma MismatchIffNotAddressed(c: Cluster<Fields>, q: Request, s: Choice<Fields>)
    ensures var r := HandleApply(c, q, s).0;
            && r != Err(KindNotEditable)
            && (r == Err(Mismatch) <==> Accepts(q) && !Addressed(TargetOf(q.yaml).value, q.yaml.fields))
  {
    if Accepts(q) && Addressed(TargetOf(q.yaml).value, q.yaml.fields) {
      ValidRequestIsUpdate(c, q, s);
      UpdateIsNoCheck(Update(c, TargetOf(q.yaml).value, q.version, q.dryRun, s).0, q);
    } else {
      InvalidRequestIsRefused(c, q, s);
    }
  }

  /**
   The handler takes the address from the document itself, so the kind check of
   the update never fires; the cross-checks fire exactly when the exact names do
   not say what the handler read ignoring case. Among spellings within ASCII
   that is the case if and only if kind, metadata, name or namespace is missing,
   or not a string, under its exact name.
   */
  lemma CrossChecksFireIff(c: Cluster<Fields>, q: Request, s: Choice<Fields>)
    ensures var r := HandleApply(c, q, s).0;
            && r != Err(KindNotEditable)
            && (r == Err(Mismatch) <==> Accepts(q) && !Addressed(TargetOf(q.yaml).value, q.yaml.fields))
            && (Accepts(q) && PlainlySpelled(q.yaml.fields) ==> (r == Err(Mismatch) <==> !Exact(q.yaml.fields)))
  {
    MismatchIffNotAddressed(c, q, s);
    if Accepts(q) && PlainlySpelled(q.yaml.fields) {
      PlainAddressIffExact(TargetOf(q.yaml).value, q.yaml.fields);
    }
  }

  function MiscasedService(namespace: string, name: string): Fields {
    map["Kind" := Text("Service"), "metadata" := Map(map["name" := Text(name), "namespace" := Text(namespace)])]
  }

  lemma MiscasedKindDecodes(namespace: string, name: string)
    ensures Decoded(MiscasedService(namespace, name), "kind") == "Service"
  {
    var f := MiscasedService(namespace, name);
    assert Spells("Kind", "kind");
    assert Spellings(f, "kind") == {"Kind"};
  }

  lemma MiscasedMetaDecodes(namespace: string, name: string)
    ensures DecodedMeta(MiscasedService(namespace, name), "name") == name
    ensures DecodedMeta(MiscasedService(namespace, name), "namespace") == namespace
  {
    assert Spells("name", "name") && Spells("namespace", "namespace");
    assert Plain("name") && Plain("namespace");
    ExactMetaWins(MiscasedService(namespace, name), "name");
    ExactMetaWins(MiscasedService(namespace, name), "namespace");
  }

  lemma MiscasedServiceDecodes(namespace: string, name: string)
    requires namespace != "" && name != ""
    ensures TargetOf(Document(MiscasedService(namespace, name))) == Some(Key("service", namespace, name))
    ensures KindOf(MiscasedService(namespace, name)) == ""
  {
    MiscasedKindDecodes(namespace, name);
    MiscasedMetaDecodes(namespace, name);
    ServiceInLowerCase();
  }

  /** For one: a service spelled with a capital Kind passes the handler's checks and is then answered as a mismatch. */
  lemma MiscasedKindIsMismatch(c: Cluster<Fields>, namespace: string, name: string, version: string, dryRun: bool, s: Choice<Fields>)
    requires ValidName(namespace) && ValidName(name) && version != ""
    ensures HandleApply(c, Request(Document(MiscasedService(namespace, name)), version, dryRun), s) == (Err(Mismatch), c)
  {
    MiscasedServiceDecodes(namespace, name);
    ServiceInLowerCase();
    InvalidRequestIsRefused(c, Request(Document(MiscasedService(namespace, name)), version, dryRun), s);
  }

  lemma ServiceInLowerCase()
    ensures ToLower("Service") == "service" && ToLower("service") == "service"
  {
    assert "Service"[1..] == "ervice" && "ervice"[1..] == "rvice" && "rvice"[1..] == "vice";
    assert "vice"[1..] == "ice" && "ice"[1..] == "ce" && "ce"[1..] == "e" && "e"[1..] == "";
    assert "service"[1..] == "ervice";
    assert ToLower("e") == "e" && ToLower("ce") == "ce" && ToLower("ice") == "ice" && ToLower("vice") == "vice";
    assert ToLower("rvice") == "rvice" && ToLower("ervice") == "ervice";
  }

  /** Unless refused before it gets there, a request is a versioned update of the object its text names. */
  lemma HandlerIsUpdate(c: Cluster<Fields>, q: Request, s: Choice<Fields>)
    ensures var (r, c') := HandleApply(c, q, s);
            || ((r == Err(BadRequest) || r == Err(Mismatch)) && c' == c)
            || (&& q.yaml.Document? && q.version != "" && TargetOf(q.yaml).Some?
                && var (u, after) := Update(c, TargetOf(q.yaml).value, q.version, q.dryRun, s);
                && c' == after
                && r == if u.Updated? && q.dryRun then Ok(q.version, u.obj) else FromOutcome(u))
  {
    InvalidRequestIsRefused(c, q, s);
    if Accepts(q) && Addressed(TargetOf(q.yaml).value, q.yaml.fields) {
      ValidRequestIsUpdate(c, q, s);
    }
  }

  lemma EditableKinds(kind: string)
    ensures Editable(kind) <==> kind in {"deployment", "statefulset", "daemonset", "service", "configmap"}
  {
  }

  lemma AcceptsSpelledOut(q: Request)
    ensures Accepts(q) <==>
              && q.version != "" && TargetOf(q.yaml).Some?
              && var k := TargetOf(q.yaml).value;
              k.kind in {"deployment", "statefulset", "daemonset", "service", "configmap"} && ValidName(k.namespace) && ValidName(k.name)
  {
    if TargetOf(q.yaml).Some? {
      ToLowerIdempotent(Decoded(q.yaml.fields, "kind"));
      EditableKinds(TargetOf(q.yaml).value.kind);
    }
  }

  /** The handler refuses for its own checks, and otherwise answers as the apply does, but for the version of a dry run. */
  lemma HandlerSpelledOut(c: Cluster<Fields>, q: Request, s: Choice<Fields>)
    ensures var (r, after) := HandleApply(c, q, s);
            if q.version == "" || TargetOf(q.yaml).None? then (r, after) == (Err(BadRequest), c)
            else
              var k := TargetOf(q.yaml).value;
              if k.kind !in {"deployment", "statefulset", "daemonset", "service", "configmap"} || !ValidName(k.namespace) || !ValidName(k.name) then
                (r, after) == (Err(BadRequest), c)
              else
                var (r', after') := ApplyManifest(c, k.kind, k.namespace, k.name, q.yaml, q.version, q.dryRun, s);
                after == after' && r == if r'.Ok? && q.dryRun then Ok(q.version, r'.obj) else r'
  {
    AcceptsSpelledOut(q);
  }

  lemma ApplySpelledOut(c: Cluster<Fields>, kind: string, namespace: string, name: string,
                        y: Yaml, version: string, dryRun: bool, s: Choice<Fields>)
    ensures var (r, after) := ApplyManifest(c, kind, namespace, name, y, version, dryRun, s);
            && ApplyReplies(c, kind, namespace, name, y, version, dryRun, s, r)
            && ApplyLeaves(c, Key(ToLower(kind), namespace, name), dryRun, s, r, after)
  {
  }

  /** It never overwrites unconditionally: success means the version named was current; refusals and dry runs write nothing. */
  lemma HandlerChecksVersion(c: Cluster<Fields>, q: Request, s: Choice<Fields>)
    ensures var (r, c') := HandleApply(c, q, s);
            && (r.Ok? ==>
                  && q.yaml.Document? && q.version != "" && TargetOf(q.yaml).Some?
                  && TargetOf(q.yaml).value in c.objects
                  && c.objects[TargetOf(q.yaml).value].version == q.version)
            && (!r.Ok? || q.dryRun ==> c' == c)
            && (r.Ok? && q.dryRun ==> r.version == q.version)
  {
    HandlerIsUpdate(c, q, s);
  }
}
