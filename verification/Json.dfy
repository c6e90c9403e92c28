/** Free-form tool inputs (`map[string]any`) and the canonical-JSON copy, comparison and hash
    that the approval store is built on. */
module Json {
  import opened Base

  /** A dynamically typed Go value. `Int` and `Strings` are the shapes that do not survive a JSON
      round trip unchanged; `Opaque` is a value encoding/json refuses (a channel, a function, NaN). */
  datatype Value =
    | Null
    | Bool(b: bool)
    | Int(i: int)
    | Num(n: real)
    | Str(s: string)
    | Strings(strs: seq<string>)
    | Arr(items: seq<Value>)
    | Obj(fields: map<string, Value>)
    | Opaque

  /** A `map[string]any`: nil or an object. */
  type GoMap = v: Value | v.Null? || v.Obj? witness Null

  /** The digest of a canonical encoding. Two digests are equal only when the encodings are. */
  datatype Digest = NoDigest | Sha256(encoding: Value)

  /** What json.Unmarshal(json.Marshal(v)) yields. */
  function Canon(v: Value): Value
  {
    match v
    case Int(i) => Num(i as real)
    case Strings(ss) => Arr(seq(|ss|, k requires 0 <= k < |ss| => Str(ss[k])))
    case Arr(xs) => Arr(seq(|xs|, k requires 0 <= k < |xs| => Canon(xs[k])))
    case Obj(m) => Obj(map k | k in m :: Canon(m[k]))
    case _ => v
  }

  predicate Marshalable(v: Value)
  {
    match v
    case Opaque => false
    case Arr(xs) => forall k :: 0 <= k < |xs| ==> Marshalable(xs[k])
    case Obj(m) => forall k :: k in m ==> Marshalable(m[k])
    case _ => true
  }

  /** Built from JSON shapes only: the values that json.Unmarshal can produce. */
  predicate Canonical(v: Value)
  {
    match v
    case Int(_) => false
    case Strings(_) => false
    case Opaque => false
    case Arr(xs) => forall k :: 0 <= k < |xs| ==> Canonical(xs[k])
    case Obj(m) => forall k :: k in m ==> Canonical(m[k])
    case _ => true
  }

  /** The encoded text, represented by the canonical value it denotes. */
  function Marshal(v: Value): Option<Value>
  {
    if Marshalable(v) then Some(Canon(v)) else None
  }

  function Fields(v: GoMap): map<string, Value>
  {
    if v.Obj? then v.fields else map[]
  }

  /** m[key], where a missing key reads as nil. */
  function Field(m: GoMap, key: string): Value
  {
    if key in Fields(m) then Fields(m)[key] else Null
  }

  /** m[key].(string), where anything but a string reads as the empty string. */
  function Text(m: GoMap, key: string): string
  {
    var v := Field(m, key);
    if v.Str? then v.s else ""
  }

  /** m[key].(bool) */
  function Flag(m: GoMap, key: string): bool { Field(m, key) == Bool(true) }

  /** Deep copy through JSON; the shallow copy is the fallback for values JSON refuses. */
  function CloneMap(v: GoMap): (r: GoMap)
    ensures r.Obj?
  {
    if v.Null? then Obj(map[]) else if Marshalable(v) then Canon(v) else v
  }

  predicate MapsEqual(a: GoMap, b: GoMap)
  {
    Marshal(a).Some? && Marshal(b).Some? && Marshal(a) == Marshal(b)
  }

  function HashMap(v: GoMap): Option<Digest>
  {
    if Marshalable(v) then Some(Sha256(Canon(v))) else None
  }

  // ---------- canonical values ----------

  lemma CanonIsCanonical(v: Value)
    requires Marshalable(v)
    ensures Canonical(Canon(v))
  {}

  lemma CanonicalIsFixed(v: Value)
    requires Canonical(v)
    ensures Marshalable(v) && Canon(v) == v
  {
    match v
    case Arr(xs) =>
      forall k | 0 <= k < |xs| ensures Canon(xs[k]) == xs[k] { CanonicalIsFixed(xs[k]); }
    case Obj(m) =>
      forall k | k in m ensures Canon(m[k]) == m[k] { CanonicalIsFixed(m[k]); }
    case _ =>
  }

  /** Copying is idempotent on every input map, including nil and the ones JSON refuses, and the
      copy of an encodable map is canonical. */
  lemma CloneIdempotent(v: GoMap)
    ensures CloneMap(CloneMap(v)) == CloneMap(v)
    ensures Marshalable(v) ==> Canonical(CloneMap(v))
    ensures v.Obj? ==> HashMap(CloneMap(v)) == HashMap(v)
  {
    if v.Obj? && Marshalable(v) {
      CanonIsCanonical(v);
      CanonicalIsFixed(Canon(v));
    }
  }

  function CloneTimes(v: GoMap, n: nat): GoMap
  {
    if n == 0 then v else CloneMap(CloneTimes(v, n - 1))
  }

  /** A stored hash keeps verifying after any number of copy, persist and hydrate rounds. The nil map
      is the one exception: it encodes as null, and its first copy as {}. */
  lemma {:induction false} HashSurvivesRounds(v: GoMap, n: nat)
    ensures v.Obj? ==> HashMap(CloneTimes(v, n)) == HashMap(v)
    ensures v.Null? && n > 0 ==> HashMap(CloneTimes(v, n)) != HashMap(v)
  {
    if n > 0 {
      HashSurvivesRounds(v, n - 1);
      CloneIdempotent(CloneTimes(v, n - 1));
      if v.Null? {
        if n > 1 { CloneIsEmpty(n - 1); }
        assert Canon(CloneTimes(v, n)) == Obj(map[]) by { CloneIsEmpty(n); }
      }
    }
  }

  lemma {:induction false} CloneIsEmpty(n: nat)
    requires n > 0
    ensures CloneTimes(Null, n) == Obj(map[])
    ensures Canon(Obj(map[])) == Obj(map[])
  {
    CanonicalIsFixed(Obj(map[]));
    if n > 1 { CloneIsEmpty(n - 1); }
  }
}
