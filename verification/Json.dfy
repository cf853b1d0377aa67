// JSON values as Python's json module reads them, and the string helpers the
// config code uses on them.

module Json {
  /** Objects are maps: the order of their keys never matters to the readers. */
  datatype Json =
    | JNull
    | JBool(b: bool)
    | JInt(n: int)
    | JReal(x: real)
    | JStr(s: string)
    | JArr(items: seq<Json>)
    | JObj(fields: map<string, Json>)

  predicate IsNumber(j: Json) {
    j.JBool? || j.JInt? || j.JReal?
  }

  function NumberOf(j: Json): real
    requires IsNumber(j)
  {
    match j
    case JBool(b) => if b then 1.0 else 0.0
    case JInt(n) => n as real
    case JReal(x) => x
  }

  /** Python's ==, for which True == 1 == 1.0. */
  predicate PyEq(a: Json, b: Json)
    decreases a
  {
    if IsNumber(a) && IsNumber(b) then NumberOf(a) == NumberOf(b)
    else match (a, b)
      case (JNull, JNull) => true
      case (JStr(x), JStr(y)) => x == y
      case (JArr(x), JArr(y)) => |x| == |y| && forall i :: 0 <= i < |x| ==> PyEq(x[i], y[i])
      case (JObj(x), JObj(y)) => x.Keys == y.Keys && forall k :: k in x ==> PyEq(x[k], y[k])
      case _ => false
  }

  lemma {:induction false} PyEqReflexive(a: Json)
    ensures PyEq(a, a)
    decreases a
  {
    match a
    case JArr(x) =>
      forall i | 0 <= i < |x| ensures PyEq(x[i], x[i]) { PyEqReflexive(x[i]); }
    case JObj(x) =>
      forall k | k in x ensures PyEq(x[k], x[k]) { PyEqReflexive(x[k]); }
    case _ =>
  }

  /** entry in list, as Python's list membership decides it. */
  predicate In(entry: Json, list: seq<Json>) {
    exists i :: 0 <= i < |list| && PyEq(entry, list[i])
  }

  /** bool(value) */
  predicate Truthy(j: Json) {
    match j
    case JNull => false
    case JBool(b) => b
    case JInt(n) => n != 0
    case JReal(x) => x != 0.0
    case JStr(s) => s != ""
    case JArr(items) => items != []
    case JObj(fields) => fields != map[]
  }

  /** What bool() finds false. */
  lemma FalsyIff(j: Json)
    ensures !Truthy(j) <==>
              || j == JNull || j == JBool(false) || j == JInt(0) || j == JReal(0.0)
              || j == JStr("") || j == JArr([]) || j == JObj(map[])
  {
  }

  /** True is 1 and 1 is 1.0; values of other kinds are equal only to their own kind. */
  lemma PyEqKinds(a: Json, b: Json, t: bool, n: int, x: real)
    ensures PyEq(JBool(t), JInt(n)) <==> n == if t then 1 else 0
    ensures PyEq(JInt(n), JReal(x)) <==> x == n as real
    ensures PyEq(JBool(t), JReal(x)) <==> x == if t then 1.0 else 0.0
    ensures PyEq(a, b) ==>
              || (IsNumber(a) && IsNumber(b)) || (a.JNull? && b.JNull?) || (a.JStr? && b.JStr?)
              || (a.JArr? && b.JArr?) || (a.JObj? && b.JObj?)
  {
  }
}

module Text {

  /** Python's Unicode tables: str.isspace, str.lower and the per-character case folding. */
  datatype Unicode = Unicode(isSpace: char -> bool, lower: string -> string, fold: char -> string)

  /** Folding never deletes a character and leaves the separator alone. */
  ghost predicate FoldsPaths(u: Unicode) {
    u.fold('/') == "/" && forall c :: u.fold(c) != ""
  }

  function RStrip(s: string, drop: char -> bool): string {
    if s == "" || !drop(s[|s| - 1]) then s else RStrip(s[..|s| - 1], drop)
  }

  function LStrip(s: string, drop: char -> bool): string {
    if s == "" || !drop(s[0]) then s else LStrip(s[1..], drop)
  }

  function Strip(s: string, drop: char -> bool): string {
    LStrip(RStrip(s, drop), drop)
  }

  /** path.replace("\\", "/") */
  function Slashes(s: string): (r: string)
    ensures |r| == |s|
    ensures forall i :: 0 <= i < |s| ==> r[i] == if s[i] == '\\' then '/' else s[i]
  {
    if s == "" then "" else [if s[0] == '\\' then '/' else s[0]] + Slashes(s[1..])
  }

  function CaseFold(u: Unicode, s: string): string {
    if s == "" then "" else u.fold(s[0]) + CaseFold(u, s[1..])
  }

  lemma {:induction false} CaseFoldConcat(u: Unicode, a: string, b: string)
    ensures CaseFold(u, a + b) == CaseFold(u, a) + CaseFold(u, b)
    decreases |a|
  {
    if a == "" {
      assert a + b == b;
    } else {
      assert (a + b)[1..] == a[1..] + b;
      CaseFoldConcat(u, a[1..], b);
    }
  }

  lemma CaseFoldNonEmpty(u: Unicode, s: string)
    requires FoldsPaths(u) && s != ""
    ensures CaseFold(u, s) != ""
  {
  }

  predicate StartsWith(s: string, prefix: string) {
    |prefix| <= |s| && s[..|prefix|] == prefix
  }

  function Split(s: string, sep: char): (parts: seq<string>)
    ensures parts != []
  {
    if s == "" then [""]
    else
      var rest := Split(s[1..], sep);
      if s[0] == sep then [""] + rest else [[s[0]] + rest[0]] + rest[1..]
  }
}
