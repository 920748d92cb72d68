/** The untyped JSON values the pages keep as `any` (analysis metadata, the editable form), with
    JavaScript's truthiness and object spread. */
module JsonValues {
  import opened Common
  import opened Text

  /** Numbers are integers here: the fractional numbers of the metadata are not modelled. */
  datatype Json =
    | JNull
    | JBool(b: bool)
    | JNum(n: int)
    | JStr(s: string)
    | JArr(items: seq<Json>)
    | JObj(fields: map<string, Json>)

  type Object = map<string, Json>

  /** `!!v` in JavaScript; a missing property (`undefined`) is `None`. */
  predicate Truthy(v: Option<Json>) {
    match v
    case None => false
    case Some(JNull) => false
    case Some(JBool(b)) => b
    case Some(JNum(n)) => n != 0
    case Some(JStr(s)) => s != ""
    case Some(_) => true
  }

  /** `o.k`. */
  function Get(o: Object, k: string): Option<Json> {
    if k in o then Some(o[k]) else None
  }

  /** `v || fallback`. */
  function Or(v: Option<Json>, fallback: Json): Json {
    if Truthy(v) then v.value else fallback
  }

  /** The index properties `"0"`, `"1"`, … of a string's characters or an array's items. */
  function Indexed(xs: seq<Json>): Object
    decreases |xs|
  {
    if xs == [] then map[] else Indexed(xs[..|xs| - 1])[Decimal(|xs| - 1) := xs[|xs| - 1]]
  }

  /** Item `i` sits under the key `Decimal(i)`, and there are no other keys. */
  lemma {:induction false} IndexedSpec(xs: seq<Json>)
    ensures forall i :: 0 <= i < |xs| ==> Decimal(i) in Indexed(xs) && Indexed(xs)[Decimal(i)] == xs[i]
    ensures forall k :: k in Indexed(xs) ==> exists i :: 0 <= i < |xs| && k == Decimal(i)
    decreases |xs|
  {
    if xs != [] {
      var n := |xs| - 1;
      var init := xs[..n];
      IndexedSpec(init);
      forall i | 0 <= i < n ensures Decimal(i) in Indexed(xs) && Indexed(xs)[Decimal(i)] == xs[i] {
        DecimalInjective(i, n);
        assert init[i] == xs[i];
      }
      forall k | k in Indexed(xs) ensures exists i :: 0 <= i < |xs| && k == Decimal(i) {
        if k != Decimal(n) {
          var i :| 0 <= i < n && k == Decimal(i);
        }
      }
    }
  }

  /** The characters of a string, each as a one-character string. */
  function Chars(s: string): (r: seq<Json>)
    ensures |r| == |s| && forall i :: 0 <= i < |s| ==> r[i] == JStr([s[i]])
  {
    seq(|s|, i requires 0 <= i < |s| => JStr([s[i]]))
  }

  /** The own properties that `...(v || {})` contributes: an object's fields, a string's
      characters and an array's items under their indices, and nothing for `null`, `undefined`,
      a boolean or a number. */
  function Spread(v: Option<Json>): Object {
    match v
    case Some(JObj(m)) => m
    case Some(JStr(s)) => Indexed(Chars(s))
    case Some(JArr(items)) => Indexed(items)
    case _ => map[]
  }

  /** A JSON array of strings. */
  function Strings(xs: seq<string>): (r: Json)
    ensures r.JArr? && |r.items| == |xs|
    ensures forall i :: 0 <= i < |xs| ==> r.items[i] == JStr(xs[i])
  {
    JArr(seq(|xs|, i requires 0 <= i < |xs| => JStr(xs[i])))
  }
}
