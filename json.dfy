/** The JSON-like values the backend serves, and `sanitize_for_json`, which turns
    every NaN or infinite float into null before a payload leaves the server. */
module JsonSanitize {

  /** A Python float: a finite value, or one of the IEEE specials. */
  datatype Float = Finite(x: real) | NaN | PosInf | NegInf

  /** The values `sanitize_for_json` distinguishes. A dict keeps its insertion order
      as a sequence of key/value entries; a tuple is read as a list. */
  datatype Json =
    | JNull
    | JBool(b: bool)
    | JInt(i: int)
    | JStr(s: string)
    | JFloat(f: Float)
    | JList(items: seq<Json>)
    | JDict(entries: seq<(string, Json)>)

  /** `_is_bad_number`: NaN or an infinity. */
  predicate IsBadNumber(f: Float) {
    f.NaN? || f.PosInf? || f.NegInf?
  }

  /** No NaN or infinity anywhere inside `j`. */
  predicate Clean(j: Json) {
    match j
    case JFloat(f) => !IsBadNumber(f)
    case JList(items) => forall k :: 0 <= k < |items| ==> Clean(items[k])
    case JDict(entries) => forall k :: 0 <= k < |entries| ==> Clean(entries[k].1)
    case _ => true
  }

  /** The keys of a dict, in order. */
  function Keys(entries: seq<(string, Json)>): (ks: seq<string>)
    ensures |ks| == |entries|
    ensures forall k :: 0 <= k < |entries| ==> ks[k] == entries[k].0
  {
    seq(|entries|, k requires 0 <= k < |entries| => entries[k].0)
  }

  /** `sanitize_for_json`: bad floats become null, dicts and lists are rebuilt entry by entry,
      everything else is returned as it is. */
  function Sanitize(j: Json): (r: Json)
    ensures Clean(r)
  {
    match j
    case JFloat(f) => if IsBadNumber(f) then JNull else JFloat(f)
    case JList(items) =>
      JList(seq(|items|, k requires 0 <= k < |items| => Sanitize(items[k])))
    case JDict(entries) =>
      JDict(seq(|entries|, k requires 0 <= k < |entries| => (entries[k].0, Sanitize(entries[k].1))))
    case _ => j
  }

  /** `r` has the structure of `j`: the same scalars except that a float may have become
      null, lists of the same length, dicts with the same keys in the same order. */
  predicate SameShape(j: Json, r: Json) {
    match j
    case JFloat(f) => r == j || r == JNull
    case JList(items) =>
      r.JList? && |r.items| == |items| &&
      forall k :: 0 <= k < |items| ==> SameShape(items[k], r.items[k])
    case JDict(entries) =>
      r.JDict? && Keys(r.entries) == Keys(entries) &&
      forall k :: 0 <= k < |entries| ==> SameShape(entries[k].1, r.entries[k].1)
    case _ => r == j
  }

  /** Sanitising keeps the structure: scalars other than floats, list lengths and dict
      keys are unchanged, and a float changes only by becoming null, exactly when it is bad. */
  lemma {:induction false} SanitizeShape(j: Json)
    ensures SameShape(j, Sanitize(j))
    ensures j.JFloat? ==> (Sanitize(j) == JNull <==> IsBadNumber(j.f))
  {
    match j
    case JList(items) =>
      forall k | 0 <= k < |items| ensures SameShape(items[k], Sanitize(j).items[k]) {
        SanitizeShape(items[k]);
      }
    case JDict(entries) =>
      forall k | 0 <= k < |entries| ensures SameShape(entries[k].1, Sanitize(j).entries[k].1) {
        SanitizeShape(entries[k].1);
      }
    case _ =>
  }

  /** A value with nothing to sanitise comes back unchanged. */
  lemma {:induction false} SanitizeClean(j: Json)
    requires Clean(j)
    ensures Sanitize(j) == j
  {
    match j
    case JList(items) =>
      forall k | 0 <= k < |items| ensures Sanitize(items[k]) == items[k] {
        SanitizeClean(items[k]);
      }
      assert Sanitize(j).items == items;
    case JDict(entries) =>
      forall k | 0 <= k < |entries| ensures Sanitize(entries[k].1) == entries[k].1 {
        SanitizeClean(entries[k].1);
      }
      assert Sanitize(j).entries == entries;
    case _ =>
  }

  /** Sanitising twice is sanitising once. */
  lemma SanitizeIdempotent(j: Json)
    ensures Sanitize(Sanitize(j)) == Sanitize(j)
  {
    SanitizeClean(Sanitize(j));
  }
}
