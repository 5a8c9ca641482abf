/**
 The structured ConfigMap save (internal/k8s/configmaps.go): read the object,
 replace its data, write it back under the version just read. Reading and
 writing are two steps, with anything in between.
 */
module ConfigMapSave {
  import opened ClusterStore

  datatype ConfigMap = ConfigMap(
    data: map<string, string>,
    binaryData: map<string, string>,
    labels: map<string, string>,
    annotations: map<string, string>,
    rest: string
  )

  /** What the page the save is made on was showing; the version is the object's then, which the page does not keep. */
  datatype Page = Page(data: map<string, string>, version: string)

  datatype Save =
    | Viewing(key: Key, page: Page)
    | Begun(key: Key, page: Page, data: map<string, string>)
    | Read(key: Key, page: Page, data: map<string, string>, got: ConfigMap, version: string)
    | Ended(r: Outcome<ConfigMap>)

  datatype Sys = Sys(cluster: Cluster<ConfigMap>, saves: map<nat, Save>)

  datatype Event =
    | Open(id: nat, key: Key)
    | Begin(id: nat, data: map<string, string>)
    | DoGet(id: nat)
    | DoUpdate(id: nat, next: string, admits: Admission)
    | Elsewhere(w: Foreign<ConfigMap>)

  predicate Possible(y: Sys, e: Event) {
    match e
    case Open(id, key) => id !in y.saves && key in y.cluster.objects
    case Begin(id, _) => id in y.saves && y.saves[id].Viewing?
    case DoGet(id) => id in y.saves && y.saves[id].Begun?
    case DoUpdate(id, next, _) => id in y.saves && y.saves[id].Read? && IsFresh(y.cluster, next)
    case Elsewhere(w) => CanHappen(y.cluster, w)
  }

  /** The write of a save that has read: the whole object it read, its data replaced. */
  function WriteBack(c: Cluster<ConfigMap>, key: Key, read: Stored<ConfigMap>, data: map<string, string>, next: string, admits: Admission)
    : (Outcome<ConfigMap>, Cluster<ConfigMap>)
  {
    Update(c, key, read.version, false, Choice(next, admits, read.obj.(data := data)))
  }

  function Happen(y: Sys, e: Event): Sys
    requires Possible(y, e)
  {
    match e
    case Open(id, key) =>
      var o := y.cluster.objects[key];
      y.(saves := y.saves[id := Viewing(key, Page(o.obj.data, o.version))])
    case Begin(id, data) =>
      var v := y.saves[id];
      y.(saves := y.saves[id := Begun(v.key, v.page, data)])
    case DoGet(id) =>
      var v := y.saves[id];
      y.(saves := y.saves[id :=
        if v.key in y.cluster.objects then Read(v.key, v.page, v.data, y.cluster.objects[v.key].obj, y.cluster.objects[v.key].version)
        else Ended(NotFound)])
    case DoUpdate(id, next, admits) =>
      var v := y.saves[id];
      var (r, c) := WriteBack(y.cluster, v.key, Stored(v.version, v.got), v.data, next, admits);
      Sys(c, y.saves[id := Ended(r)])
    case Elsewhere(w) => y.(cluster := Happened(y.cluster, w))
  }

  predicate ValidHistory(y: Sys, es: seq<Event>)
    decreases |es|
  {
    es == [] || (Possible(y, es[0]) && ValidHistory(Happen(y, es[0]), es[1..]))
  }

  function HappenAll(y: Sys, es: seq<Event>): Sys
    requires ValidHistory(y, es)
    decreases |es|
  {
    if es == [] then y else HappenAll(Happen(y, es[0]), es[1..])
  }

  /** One save left alone, in the source's own order of calls. */
  class Client {
    var cluster: Cluster<ConfigMap>

    constructor (cluster: Cluster<ConfigMap>)
      ensures this.cluster == cluster
    {
      this.cluster := cluster;
    }

    method UpdateConfigMap(key: Key, newData: map<string, string>, next: string, admits: Admission) returns (r: Outcome<ConfigMap>)
      modifies this
      ensures key !in old(cluster).objects ==> r == NotFound && cluster == old(cluster)
      ensures key in old(cluster).objects && admits != Admit ==>
                r == (if admits == Forbidden then RejectedForbidden else RejectedInvalid) && cluster == old(cluster)
      ensures key in old(cluster).objects && admits == Admit ==>
                && r.Updated?
                && cluster.objects.Keys == old(cluster).objects.Keys
                && r.obj == cluster.objects[key].obj && r.version == cluster.objects[key].version
                && r.version == (if newData == old(cluster).objects[key].obj.data then old(cluster).objects[key].version else next)
                && cluster.objects[key].obj == old(cluster).objects[key].obj.(data := newData)
                && forall k :: k in cluster.objects && k != key ==> cluster.objects[k] == old(cluster).objects[k]
      ensures key in old(cluster).objects ==> (r, cluster) == WriteBack(old(cluster), key, old(cluster).objects[key], newData, next, admits)
    {
      if key !in cluster.objects {
        return NotFound;
      }
      var cm, version := cluster.objects[key].obj, cluster.objects[key].version;
      cm := cm.(data := newData);
      var reply := Update(cluster, key, version, false, Choice(next, admits, cm));
      cluster := reply.1;
      r := reply.0;
    }
  }

  // ---- what an accepted save does ----

  /** A save remembers revisions of its object as they were: the one its page showed and the one it read. */
  ghost predicate SaveOk(c: Cluster<ConfigMap>, v: Save) {
    && (v.Read? ==> v.version != "" && v.version in c.history && c.history[v.version] == Revision(v.key, v.got))
    && (!v.Ended? ==>
          && v.page.version in c.history
          && c.history[v.page.version].key == v.key
          && c.history[v.page.version].obj.data == v.page.data)
  }

  ghost predicate Good(y: Sys) {
    Recorded(y.cluster) && forall id :: id in y.saves ==> SaveOk(y.cluster, y.saves[id])
  }

  lemma HappenKeepsGood(y: Sys, e: Event)
    requires Good(y) && Possible(y, e)
    ensures Good(Happen(y, e))
  {
    match e
    case DoUpdate(id, next, admits) =>
      var v := y.saves[id];
      UpdateKeepsRecorded(y.cluster, v.key, v.version, false, Choice(next, admits, v.got.(data := v.data)));
    case Elsewhere(w) => ForeignKeepsRecorded(y.cluster, w);
    case _ =>
  }

  lemma {:induction false} HistoryKeepsGood(y: Sys, es: seq<Event>)
    requires Good(y) && ValidHistory(y, es)
    ensures Good(HappenAll(y, es))
    decreases |es|
  {
    if es != [] {
      HappenKeepsGood(y, es[0]);
      HistoryKeepsGood(Happen(y, es[0]), es[1..]);
    }
  }

  /**
   Under any interleaving, an admitted save is accepted if and only if the
   object still is the revision the save read; and an accepted save leaves the
   object as it stood immediately before the write with its data replaced and
   nothing else, so no concurrent change to binary data, labels or annotations
   is ever overwritten. No other object is touched.
   */
  lemma AcceptedSaveReplacesDataOnly(y: Sys, es: seq<Event>, id: nat, next: string, admits: Admission)
    requires Recorded(y.cluster) && y.saves == map[] && ValidHistory(y, es)
    requires Possible(HappenAll(y, es), DoUpdate(id, next, admits))
    ensures var z := HappenAll(y, es);
            var v := z.saves[id];
            var after := Happen(z, DoUpdate(id, next, admits)).cluster;
            var accepted := Happen(z, DoUpdate(id, next, admits)).saves[id].r.Updated?;
            && (accepted <==> admits == Admit && v.key in z.cluster.objects && z.cluster.objects[v.key].version == v.version)
            && (accepted ==>
                  && v.key in z.cluster.objects && v.key in after.objects
                  && after.objects[v.key].obj == z.cluster.objects[v.key].obj.(data := v.data))
            && (!accepted ==> after == z.cluster)
            && (!accepted ==>
                  Happen(z, DoUpdate(id, next, admits)).saves[id].r ==
                  if admits == Forbidden then RejectedForbidden
                  else if v.key !in z.cluster.objects then NotFound
                  else if z.cluster.objects[v.key].version != v.version then Conflict
                  else RejectedInvalid)
            && (forall k :: k != v.key ==>
                  (k in after.objects <==> k in z.cluster.objects) && (k in after.objects ==> after.objects[k] == z.cluster.objects[k]))
  {
    HistoryKeepsGood(y, es);
    var z := HappenAll(y, es);
    assert SaveOk(z.cluster, z.saves[id]);
  }

  /**
   Data is another matter: the save carries no version from the page it was
   edited on. An accepted save overwrites data the page was not showing if and
   only if the object already held other data at the save's own read; and it
   held the data shown if it was still the revision shown.
   */
  lemma UnseenDataIsOverwrittenIff(y: Sys, es: seq<Event>, id: nat, next: string, admits: Admission)
    requires Recorded(y.cluster) && y.saves == map[] && ValidHistory(y, es)
    requires Possible(HappenAll(y, es), DoUpdate(id, next, admits))
    requires Happen(HappenAll(y, es), DoUpdate(id, next, admits)).saves[id].r.Updated?
    ensures var z := HappenAll(y, es);
            var v := z.saves[id];
            && v.key in z.cluster.objects
            && (z.cluster.objects[v.key].obj.data != v.page.data <==> v.got.data != v.page.data)
            && (v.version == v.page.version ==> v.got.data == v.page.data)
  {
    HistoryKeepsGood(y, es);
    AcceptedSaveReplacesDataOnly(y, es, id, next, admits);
    var z := HappenAll(y, es);
    assert SaveOk(z.cluster, z.saves[id]);
  }

  lemma ExtendFront(y: Sys, e: Event, rest: seq<Event>) returns (es: seq<Event>)
    requires Possible(y, e) && ValidHistory(Happen(y, e), rest)
    ensures es == [e] + rest && ValidHistory(y, es) && HappenAll(y, es) == HappenAll(Happen(y, e), rest)
  {
    es := [e] + rest;
    assert es[1..] == rest;
  }

  /** And that can befall any save at any point before its read: another writer's data `theirs` is gone without a conflict. */
  lemma AnySaveCanOverwriteUnseenData(y: Sys, id: nat, theirs: map<string, string>, v1: string, v2: string) returns (es: seq<Event>)
    requires id in y.saves && y.saves[id].Begun? && y.saves[id].key in y.cluster.objects
    requires IsFresh(y.cluster, v1) && IsFresh(y.cluster, v2) && v1 != v2
    ensures ValidHistory(y, es)
    ensures var v, z := y.saves[id], HappenAll(y, es);
            && |es| == 3 && es[0] == Elsewhere(Put(v.key, v1, y.cluster.objects[v.key].obj.(data := theirs)))
            && id in z.saves && z.saves[id].Ended? && z.saves[id].r.Updated?
            && v.key in z.cluster.objects && z.cluster.objects[v.key].obj == y.cluster.objects[v.key].obj.(data := v.data)
  {
    var put: Event := Elsewhere(Put(y.saves[id].key, v1, y.cluster.objects[y.saves[id].key].obj.(data := theirs)));
    var y1 := Happen(y, put);
    var y2 := Happen(y1, DoGet(id));
    es := ExtendFront(y2, DoUpdate(id, v2, Admit), []);
    es := ExtendFront(y1, DoGet(id), es);
    es := ExtendFront(y, put, es);
  }
}
