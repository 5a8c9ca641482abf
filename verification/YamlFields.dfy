/**
 Documents as the two parsers of the apply path read them. The handler decodes
 into a Go struct (internal/api/k8s/k8s.go:1195-1219), which matches field names
 ignoring case and turns scalars into strings; internal/k8s/manifest.go decodes
 into a map and looks its fields up by their exact names.
 */
module YamlFields {
  import opened Prelude
  import opened ClusterStore

  /** What a field holds; a scalar is a number or a truth value, with the text it converts to. */
  datatype Value = Text(s: string) | Map(m: map<string, Value>) | Scalar(text: string) | Null | List(items: seq<Value>)

  type Fields = map<string, Value>

  datatype Yaml = Empty | Malformed | NullDocument | Document(fields: Fields)

  function LowerChar(c: char): char {
    if 'A' <= c <= 'Z' then (c as int + 32) as char else c
  }

  function ToLower(s: string): (l: string)
    ensures |l| == |s|
  {
    if s == [] then [] else [LowerChar(s[0])] + ToLower(s[1..])
  }

  lemma {:induction false} ToLowerIdempotent(s: string)
    ensures ToLower(ToLower(s)) == ToLower(s)
  {
    if s != [] {
      assert ToLower(s)[1..] == ToLower(s[1..]);
      ToLowerIdempotent(s[1..]);
    }
  }

  /** unstructured.NestedString: empty when missing or not a string. */
  function StringAt(f: Fields, field: string): string {
    if field in f && f[field].Text? then f[field].s else ""
  }

  function MetaOf(f: Fields): Fields {
    if "metadata" in f && f["metadata"].Map? then f["metadata"].m else map[]
  }

  function KindOf(f: Fields): string { StringAt(f, "kind") }
  function NameOf(f: Fields): string { StringAt(MetaOf(f), "name") }
  function NamespaceOf(f: Fields): string { StringAt(MetaOf(f), "namespace") }

  // ---- names ignoring case ----

  /** The letter a field name's character folds to; two letters outside ASCII fold to k and s. */
  function FoldChar(c: char): char {
    if c == '\U{212A}' then 'k' else if c == '\U{017F}' then 's' else LowerChar(c)
  }

  predicate Spells(key: string, field: string) {
    |key| == |field| && forall i :: 0 <= i < |key| ==> FoldChar(key[i]) == field[i]
  }

  /** No letter outside ASCII among those that fold. */
  predicate Plain(key: string) {
    forall i :: 0 <= i < |key| ==> key[i] != '\U{212A}' && key[i] != '\U{017F}'
  }

  /** Among plain spellings the one in lower case sorts last. */
  lemma {:induction false} LowerCaseIsLast(key: string, field: string)
    requires Spells(key, field) && Plain(key) && key != field
    ensures Before(key, field)
  {
    if key[0] == field[0] {
      assert forall i :: 0 <= i < |key| - 1 ==> key[1..][i] == key[i + 1] && field[1..][i] == field[i + 1];
      assert key == [key[0]] + key[1..] && field == [field[0]] + field[1..];
      LowerCaseIsLast(key[1..], field[1..]);
    } else {
      assert LowerChar(key[0]) == field[0];
    }
  }

  // ---- the struct decoder ----

  /** The spellings under which a decoder into a struct finds the field; null leaves the field alone. */
  ghost function Spellings(f: Fields, field: string): set<string> {
    set k | k in f && Spells(k, field) && !f[k].Null?
  }

  /** Keys are decoded in order, so the last one wins. */
  ghost function Winner(keys: set<string>): (k: string)
    requires keys != {}
    ensures IsLast(keys, k)
  {
    assert exists k :: IsLast(keys, k) by { var k := LastExists(keys); }
    var k :| IsLast(keys, k);
    k
  }

  ghost predicate IsLast(keys: set<string>, k: string) {
    k in keys && forall j :: j in keys ==> j == k || Before(j, k)
  }

  lemma {:induction false} LastExists(keys: set<string>) returns (k: string)
    requires keys != {}
    ensures IsLast(keys, k)
  {
    k :| k in keys;
    var rest := keys - {k};
    if rest == {} {
      assert forall j :: j in keys ==> j == k || j in rest;
    } else {
      var last := LastExists(rest);
      k := LaterOf(keys, k, rest, last);
    }
  }

  lemma LaterOf(keys: set<string>, x: string, rest: set<string>, y: string) returns (k: string)
    requires keys == rest + {x} && IsLast(rest, y) && x != y
    ensures IsLast(keys, k)
  {
    BeforeIsTotal(x, y);
    k := if Before(x, y) then y else x;
    forall j | j in rest && j != k ensures Before(j, k) {
      if k == x && j != y { BeforeIsTransitive(j, y, x); }
    }
  }

  predicate IsText(v: Value) {
    v.Text? || v.Scalar? || v.Null?
  }

  function TextOf(v: Value): string {
    match v
    case Text(s) => s
    case Scalar(t) => t
    case _ => ""
  }

  ghost function Decoded(f: Fields, field: string): string {
    if Spellings(f, field) == {} then "" else TextOf(f[Winner(Spellings(f, field))])
  }

  /** The metadata objects that set the field: several spellings of metadata fill one struct. */
  ghost function Holders(f: Fields, field: string): set<string> {
    set k | k in f && Spells(k, "metadata") && f[k].Map? && Spellings(f[k].m, field) != {}
  }

  ghost function DecodedMeta(f: Fields, field: string): string {
    if Holders(f, field) == {} then "" else Decoded(f[Winner(Holders(f, field))].m, field)
  }

  /** No value of a type the struct has no place for. */
  ghost predicate Decodes(f: Fields) {
    && (forall k :: k in f && Spells(k, "kind") ==> IsText(f[k]))
    && (forall k :: k in f && Spells(k, "metadata") ==> f[k].Map? || f[k].Null?)
    && (forall k, x :: k in f && Spells(k, "metadata") && f[k].Map? && x in f[k].m && (Spells(x, "name") || Spells(x, "namespace")) ==>
          IsText(f[k].m[x]))
  }

  /** The object a document says it is, all three parts present. */
  ghost function TargetOf(y: Yaml): Option<Key> {
    if y.Document? && Decodes(y.fields)
       && Decoded(y.fields, "kind") != "" && DecodedMeta(y.fields, "name") != "" && DecodedMeta(y.fields, "namespace") != ""
    then Some(Key(ToLower(Decoded(y.fields, "kind")), DecodedMeta(y.fields, "namespace"), DecodedMeta(y.fields, "name")))
    else None
  }

  // ---- where the two readings agree ----

  /** Under the exact names the document holds strings in all four places. */
  predicate Exact(f: Fields) {
    && "kind" in f && f["kind"].Text?
    && "metadata" in f && f["metadata"].Map?
    && "name" in f["metadata"].m && f["metadata"].m["name"].Text?
    && "namespace" in f["metadata"].m && f["metadata"].m["namespace"].Text?
  }

  /** Whatever spells one of the fields ignoring case does so within ASCII. */
  ghost predicate PlainlySpelled(f: Fields) {
    && (forall k :: k in f && Spells(k, "kind") ==> Plain(k))
    && (forall k, x :: k in f && f[k].Map? && Spells(k, "metadata") && x in f[k].m && Spells(x, "namespace") ==> Plain(x))
  }

  lemma ExactWins(f: Fields, field: string)
    requires field in f && f[field].Text? && Spells(field, field)
    requires forall k :: k in f && Spells(k, field) ==> Plain(k)
    ensures Decoded(f, field) == f[field].s
  {
    var keys := Spellings(f, field);
    assert field in keys;
    var w := Winner(keys);
    if w != field {
      LowerCaseIsLast(w, field);
      BeforeIsAsymmetric(w, field);
    }
  }

  /** "metadata" and "name" have no letter that anything outside ASCII folds to. */
  lemma SpelledPlain(key: string, field: string)
    requires Spells(key, field) && (field == "metadata" || field == "name")
    ensures Plain(key)
  {
    forall i | 0 <= i < |key| ensures key[i] != '\U{212A}' && key[i] != '\U{017F}' {
      assert FoldChar(key[i]) == field[i];
    }
  }

  lemma ExactMetaWins(f: Fields, field: string)
    requires "metadata" in f && f["metadata"].Map? && field in f["metadata"].m && f["metadata"].m[field].Text?
    requires Spells(field, field)
    requires forall k :: k in f["metadata"].m && Spells(k, field) ==> Plain(k)
    ensures DecodedMeta(f, field) == f["metadata"].m[field].s
  {
    var holders := Holders(f, field);
    assert field in Spellings(f["metadata"].m, field);
    assert Spells("metadata", "metadata") && "metadata" in holders;
    var w := Winner(holders);
    if w != "metadata" {
      SpelledPlain(w, "metadata");
      LowerCaseIsLast(w, "metadata");
      BeforeIsAsymmetric(w, "metadata");
    }
    ExactWins(f["metadata"].m, field);
  }

  /** The object carries its own address. */
  predicate Addressed(k: Key, f: Fields) {
    ToLower(KindOf(f)) == k.kind && NameOf(f) == k.name && NamespaceOf(f) == k.namespace
  }

  lemma ExactDecodes(f: Fields)
    requires Exact(f) && PlainlySpelled(f)
    ensures Decoded(f, "kind") == KindOf(f) && DecodedMeta(f, "name") == NameOf(f) && DecodedMeta(f, "namespace") == NamespaceOf(f)
  {
    assert Spells("kind", "kind") && Spells("name", "name") && Spells("namespace", "namespace") && Spells("metadata", "metadata");
    forall x | x in f["metadata"].m && Spells(x, "name") ensures Plain(x) { SpelledPlain(x, "name"); }
    ExactWins(f, "kind");
    ExactMetaWins(f, "name");
    ExactMetaWins(f, "namespace");
  }

  /** With plain spellings, the exact reading names the object decoded if and only if it finds a string in each place. */
  lemma PlainAddressIffExact(k: Key, f: Fields)
    requires TargetOf(Document(f)) == Some(k) && k.kind != "" && PlainlySpelled(f)
    ensures Addressed(k, f) <==> Exact(f)
  {
    if Exact(f) {
      ExactDecodes(f);
    }
  }

  /** No field but the exact one spells a part of the address, as the API server stores objects of the editable kinds. */
  ghost predicate OneSpelling(f: Fields) {
    && (forall x :: x in f && Spells(x, "kind") ==> x == "kind")
    && (forall x :: x in f && Spells(x, "metadata") ==> x == "metadata")
    && (forall x :: x in MetaOf(f) && Spells(x, "name") ==> x == "name")
    && (forall x :: x in MetaOf(f) && Spells(x, "namespace") ==> x == "namespace")
  }

  /** With one spelling the two readings of a document are the same. */
  lemma OneSpellingDecodes(k: Key, f: Fields)
    requires Addressed(k, f) && OneSpelling(f) && k.kind != "" && k.name != "" && k.namespace != ""
    ensures TargetOf(Document(f)) == Some(k) && ToLower(k.kind) == k.kind
  {
    ToLowerIdempotent(KindOf(f));
    assert KindOf(f) != "" && NameOf(f) != "" && NamespaceOf(f) != "";
    assert Plain("kind") && Plain("namespace");
    ExactDecodes(f);
  }
}
