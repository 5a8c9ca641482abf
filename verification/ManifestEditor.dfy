/**
 The YAML editor (web/src/components/k8s/ManifestEditor.tsx): which text and
 which version it holds as manifests load, the user types, and applies come
 back. One component serves one object after another and keeps its state when
 the object changes. The query library's cache is part of it: a refetch that
 brings the same manifest does not fire the sync effect, reopening the sheet or
 changing to an object loaded before shows the cached manifest again.
 */
module ManifestEditor {
  import opened Prelude
  import opened ClusterStore
  import opened YamlFields
  import opened Manifest

  datatype Status = Idle | DryRunPassed | AppliedOk | AdmissionError | ConflictSeen | OtherError

  /** The address under which the cluster keeps an object. */
  function Address(k: Key): Key {
    k.(kind := ToLower(k.kind))
  }

  /** Where the version the editor holds came from, and of which object it is. */
  datatype Base = Nothing | FromLoad(key: Key, m: Loaded) | FromWrite(key: Key, version: string, obj: Fields) {
    function Version(): string {
      match this
      case Nothing => ""
      case FromLoad(_, m) => m.version
      case FromWrite(_, v, _) => v
    }

    /** The object the version is one of. */
    function Of(): Key
      requires this != Nothing
    {
      if FromLoad? then Address(key) else key
    }
  }

  /** The last apply, with the object the sheet was open on and what it held at the click. */
  datatype Pending = NonePending | Asked(q: Request, at: Key, base: Base) | Answered(q: Request, reply: Applied)

  datatype Fetch = Sent | Got(m: Option<Loaded>)

  datatype Editor = Editor(
    at: Key,                   // the object the sheet is open on
    edited: Yaml,
    original: Yaml,
    version: string,
    status: Status,
    cache: map<Key, Loaded>,
    fetches: map<Key, Fetch>,
    pending: Pending,
    base: Base                 // history: what `version` was last set from
  )

  function Blank(at: Key): Editor {
    Editor(at, Empty, Empty, "", Idle, map[], map[], NonePending, Nothing)
  }

  /** The effect that runs when the loaded data changes. */
  function Synced(e: Editor, m: Loaded): Editor {
    e.(edited := m.yaml, original := m.yaml, version := m.version, status := Idle, base := FromLoad(e.at, m))
  }

  function Delivered(e: Editor, k: Key, m: Option<Loaded>): Editor {
    var e1 := e.(fetches := e.fetches - {k});
    if m.None? || (k in e.cache && m.value == e.cache[k]) then e1
    else
      var e2 := e1.(cache := e.cache[k := m.value]);
      if k == e.at then Synced(e2, m.value) else e2
  }

  function Reopened(e: Editor): Editor {
    if e.at in e.cache then Synced(e, e.cache[e.at]) else e.(status := Idle)
  }

  /** The sheet moves on to another object: its manifest shows at once if it was loaded before, and otherwise all is kept. */
  function Switched(e: Editor, k: Key): Editor {
    if k != e.at && k in e.cache then Synced(e.(at := k), e.cache[k]) else e.(at := k)
  }

  function Typed(e: Editor, y: Yaml): Editor {
    e.(edited := y, status := if e.status == DryRunPassed || e.status == AppliedOk then Idle else e.status)
  }

  function Clicked(e: Editor, dryRun: bool): Editor {
    e.(pending := Asked(Request(e.edited, e.version, dryRun), e.at, e.base))
  }

  function StatusOf(err: ApplyError): Status {
    if err == VersionConflict then ConflictSeen else if err == Inadmissible then AdmissionError else OtherError
  }

  ghost function Target(q: Request): Key {
    if TargetOf(q.yaml).Some? then TargetOf(q.yaml).value else Key("", "", "")
  }

  /** The mutation's callbacks, on the text captured at the click. */
  ghost function Finished(e: Editor): Editor
    requires e.pending.Answered?
  {
    var q, e1 := e.pending.q, e.(pending := NonePending);
    match e.pending.reply
    case Ok(v, o) =>
      if q.dryRun then e1.(status := DryRunPassed)
      else e1.(original := q.yaml, version := v, base := FromWrite(Target(q), v, o), status := AppliedOk)
    case Err(err) => e1.(status := StatusOf(err))
  }

  /** The component's state, set in place by its handlers. */
  class Component {
    var at: Key
    var editedYAML: Yaml
    var originalYAML: Yaml
    var resourceVersion: string
    var status: Status
    var cached: map<Key, Loaded>
    ghost var fetches: map<Key, Fetch>
    ghost var pending: Pending
    ghost var base: Base

    ghost function View(): Editor
      reads this
    {
      Editor(at, editedYAML, originalYAML, resourceVersion, status, cached, fetches, pending, base)
    }

    constructor (at: Key)
      ensures View() == Blank(at)
    {
      this.at := at;
      editedYAML, originalYAML, resourceVersion, status, cached := Empty, Empty, "", Idle, map[];
      fetches, pending, base := map[], NonePending, Nothing;
    }

    method SyncFrom(m: Loaded)
      modifies this
      ensures View() == Synced(old(View()), m)
    {
      originalYAML := m.yaml;
      editedYAML := m.yaml;
      resourceVersion := m.version;
      status := Idle;
      base := FromLoad(at, m);
    }

    method OnData(k: Key, m: Option<Loaded>)
      modifies this
      ensures View() == Delivered(old(View()), k, m)
      ensures k != at || m.None? || (k in old(cached) && old(cached)[k] == m.value) ==>
                editedYAML == old(editedYAML) && resourceVersion == old(resourceVersion)
      ensures k == at && m.Some? && (k in old(cached) ==> old(cached)[k] != m.value) ==>
                editedYAML == originalYAML == m.value.yaml && resourceVersion == m.value.version && status == Idle
      ensures cached == if m.Some? then old(cached)[k := m.value] else old(cached)
    {
      fetches := fetches - {k};
      if m.Some? && (k !in cached || cached[k] != m.value) {
        cached := cached[k := m.value];
        if k == at {
          SyncFrom(m.value);
        }
      }
    }

    method OnOpen()
      modifies this
      ensures View() == Reopened(old(View()))
      ensures status == Idle && cached == old(cached)
      ensures if at in cached then editedYAML == originalYAML == cached[at].yaml && resourceVersion == cached[at].version
              else editedYAML == old(editedYAML) && originalYAML == old(originalYAML) && resourceVersion == old(resourceVersion)
    {
      if at in cached {
        SyncFrom(cached[at]);
      }
      status := Idle;
    }

    /** New props: the sync effect runs if the new object's manifest is there. */
    method OnProps(k: Key)
      modifies this
      ensures View() == Switched(old(View()), k)
      ensures at == k && cached == old(cached)
      ensures k != old(at) && k in cached ==>
                editedYAML == originalYAML == cached[k].yaml && resourceVersion == cached[k].version && status == Idle
      ensures k == old(at) || k !in cached ==>
                editedYAML == old(editedYAML) && originalYAML == old(originalYAML) && resourceVersion == old(resourceVersion)
    {
      var changed := k != at;
      at := k;
      if changed && k in cached {
        SyncFrom(cached[k]);
      }
    }

    method HandleEditorChange(y: Yaml)
      modifies this
      ensures View() == Typed(old(View()), y)
      ensures editedYAML == y && originalYAML == old(originalYAML) && resourceVersion == old(resourceVersion)
      ensures status == if old(status) in {DryRunPassed, AppliedOk} then Idle else old(status)
    {
      editedYAML := y;
      if status == DryRunPassed || status == AppliedOk {
        status := Idle;
      }
    }

    method RunApply(dryRun: bool) returns (q: Request)
      modifies this`pending
      ensures View() == Clicked(old(View()), dryRun) && pending == Asked(q, at, base)
      ensures q == Request(editedYAML, resourceVersion, dryRun)
    {
      q := Request(editedYAML, resourceVersion, dryRun);
      pending := Asked(q, at, base);
    }

    method OnSuccess(q: Request, version: string, ghost obj: Fields)
      requires pending == Answered(q, Ok(version, obj))
      modifies this
      ensures View() == Finished(old(View()))
      ensures editedYAML == old(editedYAML) && pending == NonePending
      ensures if q.dryRun then resourceVersion == old(resourceVersion) && originalYAML == old(originalYAML) && status == DryRunPassed
              else resourceVersion == version && originalYAML == q.yaml && status == AppliedOk
    {
      if !q.dryRun {
        originalYAML := q.yaml;
        resourceVersion := version;
        base := FromWrite(Target(q), version, obj);
        status := AppliedOk;
      } else {
        status := DryRunPassed;
      }
      pending := NonePending;
    }

    method OnError(err: ApplyError, ghost q: Request)
      requires pending == Answered(q, Err(err))
      modifies this
      ensures View() == Finished(old(View()))
      ensures editedYAML == old(editedYAML) && originalYAML == old(originalYAML) && resourceVersion == old(resourceVersion)
      ensures status == ConflictSeen <==> err == VersionConflict
      ensures status == AdmissionError <==> err == Inadmissible
      ensures status in {ConflictSeen, AdmissionError, OtherError} && pending == NonePending
    {
      if err == VersionConflict {
        status := ConflictSeen;
      } else if err == Inadmissible {
        status := AdmissionError;
      } else {
        status := OtherError;
      }
      pending := NonePending;
    }
  }
}

/** Any number of editors and other writers on one cluster. */
module EditorProtocol {
  import opened ClusterStore
  import opened YamlFields
  import opened Manifest
  import opened ManifestEditor

  datatype Sys = Sys(cluster: Cluster<Fields>, desks: map<nat, Editor>)     // one sheet a desk

  datatype Act =
    | StartFetch | ServeFetch(k: Key) | DeliverFetch(k: Key)
    | Reopen
    | Switch(key: Key)
    | Type(yaml: Yaml)
    | Click(dryRun: bool)
    | ServeApply(s: Choice<Fields>)
    | DeliverApply
    | LoseApply                                       // the reply never arrives: an error to the caller

  datatype Event = At(d: nat, act: Act) | Elsewhere(w: Foreign<Fields>)

  predicate CanAct(c: Cluster<Fields>, ed: Editor, a: Act) {
    match a
    case StartFetch => ed.at !in ed.fetches
    case ServeFetch(k) => k in ed.fetches && ed.fetches[k].Sent?
    case DeliverFetch(k) => k in ed.fetches && ed.fetches[k].Got?
    case Reopen => true
    case Switch(_) => true
    case Type(_) => true
    case Click(_) => ed.pending == NonePending
    case ServeApply(s) => ed.pending.Asked? && IsFresh(c, s.next)
    case DeliverApply => ed.pending.Answered?
    case LoseApply => ed.pending != NonePending
  }

  /** One act at one desk: what it does to the cluster and to its editor. */
  ghost function Acted(c: Cluster<Fields>, ed: Editor, a: Act): (Cluster<Fields>, Editor)
    requires CanAct(c, ed, a)
  {
    match a
    case StartFetch => (c, ed.(fetches := ed.fetches[ed.at := Sent]))
    case ServeFetch(k) => (c, ed.(fetches := ed.fetches[k := Got(GetManifest(c, k.kind, k.namespace, k.name))]))
    case DeliverFetch(k) => (c, Delivered(ed, k, ed.fetches[k].m))
    case Reopen => (c, Reopened(ed))
    case Switch(key) => (c, Switched(ed, key))
    case Type(yaml) => (c, Typed(ed, yaml))
    case Click(dryRun) => (c, Clicked(ed, dryRun))
    case ServeApply(s) =>
      var (r, c') := HandleApply(c, ed.pending.q, s);
      (c', ed.(pending := Answered(ed.pending.q, r)))
    case DeliverApply => (c, Finished(ed))
    case LoseApply => (c, ed.(pending := NonePending, status := OtherError))
  }

  predicate Possible(y: Sys, e: Event) {
    match e
    case Elsewhere(w) => CanHappen(y.cluster, w)
    case At(d, a) => d in y.desks && CanAct(y.cluster, y.desks[d], a)
  }

  ghost function Happen(y: Sys, e: Event): Sys
    requires Possible(y, e)
  {
    match e
    case Elsewhere(w) => y.(cluster := Happened(y.cluster, w))
    case At(d, a) =>
      var (c, ed) := Acted(y.cluster, y.desks[d], a);
      Sys(c, y.desks[d := ed])
  }

  ghost predicate ValidHistory(y: Sys, es: seq<Event>)
    decreases |es|
  {
    es == [] || (Possible(y, es[0]) && ValidHistory(Happen(y, es[0]), es[1..]))
  }

  ghost function HappenAll(y: Sys, es: seq<Event>): Sys
    requires ValidHistory(y, es)
    decreases |es|
  {
    if es == [] then y else HappenAll(Happen(y, es[0]), es[1..])
  }

  // ---- the invariant ----

  /** The manifest shows a revision of this very object. */
  ghost predicate Shows(c: Cluster<Fields>, key: Key, m: Loaded) {
    && m.version in c.history
    && c.history[m.version].key == Address(key)
    && m.yaml == Document(Stripped(c.history[m.version].obj))
  }

  ghost predicate BaseOk(c: Cluster<Fields>, b: Base) {
    match b
    case Nothing => true
    case FromLoad(k, m) => Shows(c, k, m)
    case FromWrite(k, v, o) => v in c.history && c.history[v] == Revision(k, o)
  }

  ghost predicate PendingOk(c: Cluster<Fields>, p: Pending) {
    match p
    case NonePending => true
    case Asked(q, _, b) => q.version == b.Version() && BaseOk(c, b)
    case Answered(q, r) => r.Ok? && !q.dryRun ==> r.version in c.history && c.history[r.version] == Revision(Target(q), r.obj)
  }

  ghost predicate DeskOk(c: Cluster<Fields>, ed: Editor) {
    && ed.version == ed.base.Version()
    && BaseOk(c, ed.base)
    && (forall k :: k in ed.cache ==> Shows(c, k, ed.cache[k]))
    && (forall k :: k in ed.fetches && ed.fetches[k].Got? && ed.fetches[k].m.Some? ==> Shows(c, k, ed.fetches[k].m.value))
    && PendingOk(c, ed.pending)
  }

  ghost predicate Good(y: Sys) {
    Recorded(y.cluster) && forall d :: d in y.desks ==> DeskOk(y.cluster, y.desks[d])
  }

  lemma HistoryKeepsDesk(c: Cluster<Fields>, c': Cluster<Fields>, ed: Editor)
    requires Remembers(c, c') && DeskOk(c, ed)
    ensures DeskOk(c', ed)
  {
  }

  lemma GetShows(c: Cluster<Fields>, key: Key)
    requires Recorded(c)
    ensures var m := GetManifest(c, key.kind, key.namespace, key.name); m.Some? ==> Shows(c, key, m.value)
  {
  }

  lemma HandleKeepsRecorded(c: Cluster<Fields>, q: Request, s: Choice<Fields>)
    requires Recorded(c) && IsFresh(c, s.next)
    ensures var (r, c') := HandleApply(c, q, s);
            && Recorded(c') && Remembers(c, c')
            && (r.Ok? && !q.dryRun ==> r.version in c'.history && c'.history[r.version] == Revision(Target(q), r.obj))
  {
    HandlerIsUpdate(c, q, s);
    if TargetOf(q.yaml).Some? {
      UpdateKeepsRecorded(c, TargetOf(q.yaml).value, q.version, q.dryRun, s);
    }
  }

  /** Acts that neither reach the server nor bring anything from it. */
  lemma QuietActKeepsDesk(c: Cluster<Fields>, ed: Editor, a: Act)
    requires DeskOk(c, ed) && CanAct(c, ed, a)
    requires a.StartFetch? || a.Reopen? || a.Switch? || a.Type? || a.Click? || a.LoseApply?
    ensures Acted(c, ed, a).0 == c && DeskOk(c, Acted(c, ed, a).1)
  {
  }

  lemma LoadKeepsDesk(c: Cluster<Fields>, ed: Editor, k: Key)
    requires DeskOk(c, ed) && CanAct(c, ed, DeliverFetch(k))
    ensures DeskOk(c, Delivered(ed, k, ed.fetches[k].m))
  {
  }

  lemma FinishKeepsDesk(c: Cluster<Fields>, ed: Editor)
    requires DeskOk(c, ed) && CanAct(c, ed, DeliverApply)
    ensures DeskOk(c, Finished(ed))
  {
  }

  lemma ServingKeepsDesk(c: Cluster<Fields>, ed: Editor, a: Act)
    requires Recorded(c) && DeskOk(c, ed) && CanAct(c, ed, a) && a.ServeApply?
    ensures var (c', ed') := Acted(c, ed, a);
            Recorded(c') && Remembers(c, c') && DeskOk(c', ed')
  {
    HandleKeepsRecorded(c, ed.pending.q, a.s);
    HistoryKeepsDesk(c, HandleApply(c, ed.pending.q, a.s).1, ed);
  }

  lemma ActKeepsDesk(c: Cluster<Fields>, ed: Editor, a: Act)
    requires Recorded(c) && DeskOk(c, ed) && CanAct(c, ed, a)
    ensures var (c', ed') := Acted(c, ed, a);
            Recorded(c') && Remembers(c, c') && DeskOk(c', ed')
  {
    match a
    case ServeFetch(k) => GetShows(c, k);
    case ServeApply(_) => ServingKeepsDesk(c, ed, a);
    case DeliverFetch(k) => LoadKeepsDesk(c, ed, k);
    case DeliverApply => FinishKeepsDesk(c, ed);
    case _ => QuietActKeepsDesk(c, ed, a);
  }

  lemma HappenKeepsGood(y: Sys, e: Event)
    requires Good(y) && Possible(y, e)
    ensures Good(Happen(y, e))
  {
    var y' := Happen(y, e);
    match e {
      case Elsewhere(w) => ForeignKeepsRecorded(y.cluster, w);
      case At(d, a) => ActKeepsDesk(y.cluster, y.desks[d], a);
    }
    forall d | d in y'.desks ensures DeskOk(y'.cluster, y'.desks[d]) {
      if e.Elsewhere? || d != e.d {
        HistoryKeepsDesk(y.cluster, y'.cluster, y.desks[d]);
      }
    }
  }

  lemma {:induction false} HistoryKeepsGood(y: Sys, es: seq<Event>)
    requires Good(y) && ValidHistory(y, es)
    ensures Good(HappenAll(y, es))
    decreases |es|
  {
    if es != [] {
      HappenKeepsGood(y, es[0]);
      HistoryKeepsGood(Happen(y, es[0]), es[1..]);
    }
  }

  ghost predicate Opened(y: Sys) {
    Recorded(y.cluster) && forall d :: d in y.desks ==> y.desks[d] == Blank(y.desks[d].at)
  }

  lemma ReachedIsGood(y: Sys, es: seq<Event>)
    requires Opened(y) && ValidHistory(y, es)
    ensures Good(HappenAll(y, es))
  {
    assert Good(y);
    HistoryKeepsGood(y, es);
  }

  /** The desk's pending apply is accepted when it is served now. */
  ghost predicate Accepted(y: Sys, d: nat, s: Choice<Fields>) {
    Possible(y, At(d, ServeApply(s))) && HandleApply(y.cluster, y.desks[d].pending.q, s).0.Ok?
  }

  /** What the request is about to overwrite is the revision held: that object, exactly as shown or as left there. */
  ghost predicate ReplacesHeld(c: Cluster<Fields>, q: Request, base: Base) {
    && TargetOf(q.yaml).Some? && TargetOf(q.yaml).value in c.objects
    && var target := TargetOf(q.yaml).value;
    var prior := c.objects[target];
    && q.version == prior.version == base.Version() != ""
    && base != Nothing && target == base.Of()
    && (base.FromLoad? ==> base.m.yaml == Document(Stripped(prior.obj)))
    && (base.FromWrite? ==> base.obj == prior.obj)
  }

  lemma AcceptedReplacesHeld(c: Cluster<Fields>, ed: Editor, s: Choice<Fields>)
    requires Recorded(c) && DeskOk(c, ed) && ed.pending.Asked? && HandleApply(c, ed.pending.q, s).0.Ok?
    ensures ReplacesHeld(c, ed.pending.q, ed.pending.base)
  {
    HandlerChecksVersion(c, ed.pending.q, s);
  }

  /**
   No lost update. Whatever the interleaving of editors, reloads, late replies,
   sheets that move on to other objects and foreign writes, and whatever text
   the user sends, an apply that is accepted replaces the revision the editor
   held when the user clicked: it addresses the object that revision is one of,
   and overwrites it exactly as shown if it came from a load, and exactly as
   left there if it came from the editor's own last write. So it overwrites
   another object than the one the sheet was open on if and only if the version
   held was not one of that object's.
   */
  lemma AcceptedApplyReplacesHeldRevision(y: Sys, es: seq<Event>, d: nat, s: Choice<Fields>)
    requires Opened(y) && ValidHistory(y, es) && Accepted(HappenAll(y, es), d, s)
    ensures var z := HappenAll(y, es);
            var p := z.desks[d].pending;
            && ReplacesHeld(z.cluster, p.q, p.base)
            && (TargetOf(p.q.yaml).value != Address(p.at) <==> p.base.Of() != Address(p.at))
  {
    ReachedIsGood(y, es);
    var z := HappenAll(y, es);
    assert DeskOk(z.cluster, z.desks[d]);
    AcceptedReplacesHeld(z.cluster, z.desks[d], s);
  }

  // ---- which object that is ----

  /** The sheet has stayed with its object: so do the version held and the apply under way. */
  ghost predicate StaysWith(c: Cluster<Fields>, ed: Editor, k: Key) {
    && ed.at == k
    && (ed.base != Nothing ==> ed.base.Of() == Address(k))
    && match ed.pending
       case NonePending => true
       case Asked(_, at, b) => at == k && (b != Nothing ==> b.Of() == Address(k))
       case Answered(q, r) => r.Ok? && !q.dryRun ==> Target(q) == Address(k)
  }

  lemma ActStaysWith(c: Cluster<Fields>, ed: Editor, a: Act, k: Key)
    requires Recorded(c) && DeskOk(c, ed) && CanAct(c, ed, a) && !a.Switch?
    requires StaysWith(c, ed, k)
    ensures var (c', ed') := Acted(c, ed, a); StaysWith(c', ed', k)
  {
    if a.ServeApply? {
      HandlerChecksVersion(c, ed.pending.q, a.s);
      HandlerIsUpdate(c, ed.pending.q, a.s);
    }
  }

  predicate NoSwitch(es: seq<Event>, d: nat) {
    forall e :: e in es && e.At? && e.d == d ==> !e.act.Switch?
  }

  lemma {:induction false} HistoryStaysWith(y: Sys, es: seq<Event>, d: nat, k: Key)
    requires Good(y) && ValidHistory(y, es) && NoSwitch(es, d) && d in y.desks && StaysWith(y.cluster, y.desks[d], k)
    ensures var z := HappenAll(y, es); d in z.desks && StaysWith(z.cluster, z.desks[d], k)
    decreases |es|
  {
    if es != [] {
      var e := es[0];
      assert e in es;
      HappenKeepsGood(y, e);
      if e.At? && e.d == d {
        ActStaysWith(y.cluster, y.desks[d], e.act, k);
      }
      HistoryStaysWith(Happen(y, e), es[1..], d, k);
    }
  }

  /** A sheet that stays with one object never overwrites another, whatever its text says. */
  lemma UnswitchedSheetKeepsToItsObject(y: Sys, es: seq<Event>, d: nat, s: Choice<Fields>)
    requires Opened(y) && ValidHistory(y, es) && NoSwitch(es, d) && d in y.desks && Accepted(HappenAll(y, es), d, s)
    ensures var q := HappenAll(y, es).desks[d].pending.q;
            TargetOf(q.yaml).Some? && TargetOf(q.yaml).value == Address(y.desks[d].at)
  {
    assert Good(y);
    HistoryKeepsGood(y, es);
    HistoryStaysWith(y, es, d, y.desks[d].at);
    var z := HappenAll(y, es);
    assert DeskOk(z.cluster, z.desks[d]);
    AcceptedReplacesHeld(z.cluster, z.desks[d], s);
  }

  lemma ExtendFront(y: Sys, e: Event, rest: seq<Event>) returns (es: seq<Event>)
    requires Possible(y, e) && ValidHistory(Happen(y, e), rest)
    ensures es == [e] + rest && ValidHistory(y, es) && HappenAll(y, es) == HappenAll(Happen(y, e), rest)
  {
    es := [e] + rest;
    assert es[1..] == rest;
  }

  lemma ClickOverwrites(y: Sys, d: nat, s: Choice<Fields>) returns (es: seq<Event>)
    requires d in y.desks && y.desks[d].pending == NonePending && IsFresh(y.cluster, s.next)
    requires HandleApply(y.cluster, Request(y.desks[d].edited, y.desks[d].version, false), s).0.Ok?
    ensures ValidHistory(y, es)
    ensures var z := HappenAll(y, es);
            && d in z.desks && z.desks[d].at == y.desks[d].at
            && TargetOf(y.desks[d].edited).Some? && TargetOf(y.desks[d].edited).value in z.cluster.objects
            && z.cluster.objects[TargetOf(y.desks[d].edited).value].obj == s.persisted
  {
    var y1 := Happen(y, At(d, Click(false)));
    assert y1.desks[d].pending.q == Request(y.desks[d].edited, y.desks[d].version, false);
    AcceptedApplyChangesOneObject(y1, d, s);
    es := ExtendFront(y1, At(d, ServeApply(s)), []);
    es := ExtendFront(y, At(d, Click(false)), es);
  }

  /**
   One that moves on can: from any sheet whose text and version address an
   object of the cluster, opening any object not loaded before and clicking
   apply at once sends that text and version, and overwrites that object, from
   the other one's sheet.
   */
  lemma SwitchedSheetOverwritesPreviousObject(y: Sys, d: nat, other: Key, s: Choice<Fields>) returns (es: seq<Event>)
    requires d in y.desks && y.desks[d].pending == NonePending && other !in y.desks[d].cache
    requires IsFresh(y.cluster, s.next) && HandleApply(y.cluster, Request(y.desks[d].edited, y.desks[d].version, false), s).0.Ok?
    ensures ValidHistory(y, es)
    ensures var z := HappenAll(y, es);
            && d in z.desks && z.desks[d].at == other
            && TargetOf(y.desks[d].edited).Some? && TargetOf(y.desks[d].edited).value in z.cluster.objects
            && z.cluster.objects[TargetOf(y.desks[d].edited).value].obj == s.persisted
  {
    var y1 := Happen(y, At(d, Switch(other)));
    assert y1.desks[d] == y.desks[d].(at := other);
    es := ClickOverwrites(y1, d, s);
    es := ExtendFront(y, At(d, Switch(other)), es);
  }

  /** And the accepted apply changes that one object, to what the server made of the text, and nothing else. */
  lemma AcceptedApplyChangesOneObject(y: Sys, d: nat, s: Choice<Fields>)
    requires Accepted(y, d, s) && !y.desks[d].pending.q.dryRun
    ensures var q, after := y.desks[d].pending.q, Happen(y, At(d, ServeApply(s))).cluster;
            && TargetOf(q.yaml).Some?
            && after.objects.Keys == y.cluster.objects.Keys
            && TargetOf(q.yaml).value in after.objects
            && after.objects[TargetOf(q.yaml).value].obj == s.persisted
            && forall k :: k in after.objects && k != TargetOf(q.yaml).value ==> after.objects[k] == y.cluster.objects[k]
  {
    HandlerIsUpdate(y.cluster, y.desks[d].pending.q, s);
  }

  /**
   A dry run changes nothing, whatever happened since the click: serving it
   leaves the cluster and all desks as they were but for the reply now pending,
   and delivering that reply changes the status alone.
   */
  lemma DryRunChangesNothing(y: Sys, d: nat, a: Act)
    requires Possible(y, At(d, a)) && (a.ServeApply? || a.DeliverApply?)
    requires y.desks[d].pending.q.dryRun
    ensures var z := Happen(y, At(d, a));
            && z.cluster == y.cluster && z.desks.Keys == y.desks.Keys
            && (forall k :: k in y.desks && k != d ==> z.desks[k] == y.desks[k])
            && var ed, ed' := y.desks[d], z.desks[d];
            if a.ServeApply? then
              ed' == ed.(pending := ed'.pending) && ed'.pending.Answered? && ed'.pending.q == ed.pending.q
            else ed' == ed.(pending := NonePending, status := ed'.status)
  {
    if a.ServeApply? {
      HandlerChecksVersion(y.cluster, y.desks[d].pending.q, a.s);
    }
  }

  /** Editors in which nothing but dry runs has been started. */
  predicate OnlyDryRuns(y: Sys) {
    forall d :: d in y.desks ==> (y.desks[d].pending != NonePending ==> y.desks[d].pending.q.dryRun)
  }

  predicate StartsNoWrite(e: Event) {
    e.At? && (e.act.Click? ==> e.act.dryRun)
  }

  /** However many editors try things out, and whatever they load, type and lose meanwhile, dry runs never write and never pass for a write of one's own. */
  lemma {:induction false} DryRunHistoriesWriteNothing(y: Sys, es: seq<Event>, d: nat)
    requires OnlyDryRuns(y) && ValidHistory(y, es) && forall e :: e in es ==> StartsNoWrite(e)
    ensures var z := HappenAll(y, es);
            && z.cluster == y.cluster && z.desks.Keys == y.desks.Keys
            && (d in y.desks && !y.desks[d].base.FromWrite? ==> !z.desks[d].base.FromWrite?)
    decreases |es|
  {
    if es != [] {
      var e := es[0];
      assert e in es && StartsNoWrite(e);
      if e.act.ServeApply? || e.act.DeliverApply? {
        DryRunChangesNothing(y, e.d, e.act);
      }
      DryRunHistoriesWriteNothing(Happen(y, e), es[1..], d);
    }
  }

  /** An editor that holds an outdated version is refused, whoever moved the object on. */
  lemma StaleApplyIsRefused(y: Sys, d: nat, s: Choice<Fields>)
    requires Possible(y, At(d, ServeApply(s)))
    requires var q := y.desks[d].pending.q;
             TargetOf(q.yaml).Some? && TargetOf(q.yaml).value in y.cluster.objects
             && y.cluster.objects[TargetOf(q.yaml).value].version != q.version
    ensures Happen(y, At(d, ServeApply(s))).cluster == y.cluster
    ensures var r := Happen(y, At(d, ServeApply(s))).desks[d].pending.reply;
            && r.Err?
            && (Accepts(y.desks[d].pending.q) && Addressed(Target(y.desks[d].pending.q), y.desks[d].pending.q.yaml.fields) && s.admits != Forbidden ==>
                  r == Err(VersionConflict))
  {
    var q := y.desks[d].pending.q;
    HandlerChecksVersion(y.cluster, q, s);
    if Accepts(q) && Addressed(Target(q), q.yaml.fields) {
      ValidRequestIsUpdate(y.cluster, q, s);
    }
  }
}
