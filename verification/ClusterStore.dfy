/**
 The Kubernetes API server as its clients see it: objects under keys, each with
 a resource version that no other revision of any object ever carries. An
 update naming a version is accepted only while that version is current; one
 naming none overwrites whatever is there.
 */
module ClusterStore {

  datatype Key = Key(kind: string, namespace: string, name: string)

  datatype Revision<O> = Revision(key: Key, obj: O)

  datatype Stored<O> = Stored(version: string, obj: O)

  datatype Cluster<O> = Cluster(
    objects: map<Key, Stored<O>>,
    history: map<string, Revision<O>>    // every revision ever stored, by its version
  )

  /** The server's part in an update: the version a change would get, and whether and as what it admits the object. */
  datatype Choice<O> = Choice(next: string, admits: Admission, persisted: O)

  datatype Admission = Admit | Invalid | Forbidden

  datatype Outcome<O> = Updated(version: string, obj: O) | Conflict | NotFound | RejectedInvalid | RejectedForbidden

  predicate IsFresh<O>(c: Cluster<O>, version: string) {
    version != "" && version !in c.history
  }

  /** A PUT: authorisation, existence, version check, validation, and a new revision if anything changes. */
  function Update<O(==)>(c: Cluster<O>, key: Key, version: string, dryRun: bool, s: Choice<O>): (r: (Outcome<O>, Cluster<O>)) {
    if s.admits == Forbidden then (RejectedForbidden, c)
    else if key !in c.objects then (NotFound, c)
    else if version != "" && version != c.objects[key].version then (Conflict, c)
    else if s.admits == Invalid then (RejectedInvalid, c)
    else if dryRun || s.persisted == c.objects[key].obj then (Updated(c.objects[key].version, s.persisted), c)
    else (Updated(s.next, s.persisted), Written(c, key, s.next, s.persisted))
  }

  function Written<O>(c: Cluster<O>, key: Key, version: string, obj: O): Cluster<O> {
    Cluster(c.objects[key := Stored(version, obj)], c.history[version := Revision(key, obj)])
  }

  /** Writes by anybody else: created or changed, unconditionally or not, or deleted. */
  datatype Foreign<O> = Put(key: Key, version: string, obj: O) | Delete(key: Key)

  predicate CanHappen<O>(c: Cluster<O>, w: Foreign<O>) {
    w.Put? ==> IsFresh(c, w.version)
  }

  function Happened<O>(c: Cluster<O>, w: Foreign<O>): Cluster<O> {
    match w
    case Put(key, version, obj) => Written(c, key, version, obj)
    case Delete(key) => c.(objects := c.objects - {key})
  }

  /** Every current object is the revision recorded under its version. */
  ghost predicate Recorded<O>(c: Cluster<O>) {
    forall key :: key in c.objects ==>
      && c.objects[key].version in c.history
      && c.objects[key].version != ""
      && c.history[c.objects[key].version] == Revision(key, c.objects[key].obj)
  }

  /** Recorded revisions are never rewritten. */
  ghost predicate Remembers<O>(before: Cluster<O>, after: Cluster<O>) {
    forall v :: v in before.history ==> v in after.history && after.history[v] == before.history[v]
  }

  lemma UpdateKeepsRecorded<O>(c: Cluster<O>, key: Key, version: string, dryRun: bool, s: Choice<O>)
    requires Recorded(c) && IsFresh(c, s.next)
    ensures var (r, c') := Update(c, key, version, dryRun, s);
            && Recorded(c') && Remembers(c, c')
            && c'.history.Keys <= c.history.Keys + {s.next} && (r.Updated? || c' == c)
            && (r.Updated? && !dryRun ==> r.version in c'.history && c'.history[r.version] == Revision(key, r.obj))
  {
  }

  lemma ForeignKeepsRecorded<O>(c: Cluster<O>, w: Foreign<O>)
    requires Recorded(c) && CanHappen(c, w)
    ensures Recorded(Happened(c, w)) && Remembers(c, Happened(c, w))
  {
  }
}
