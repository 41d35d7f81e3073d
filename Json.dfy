/**
 * JSON values as the pipeline stages exchange them (the output of json.loads
 * and the argument of json.dumps), together with the few Python idioms the
 * stages apply to them everywhere: truthiness, `a or b`, `d.get(k)`,
 * `d.get(k, default)` and `int(x)`.
 *
 * Floating-point numbers are not modelled: every JSON number is an integer.
 */
module JsonValues {

  datatype Option<T> = None | Some(value: T)

  datatype Json =
    | JNull
    | JBool(b: bool)
    | JInt(i: int)
    | JStr(s: string)
    | JArr(items: seq<Json>)
    | JObj(fields: map<string, Json>)

  /**
   * The language model behind `ask_json`: the reply to the n-th call of a
   * stage, given the JSON payload its prompt embeds. Its reply may be any
   * value, including a non-dict or an `{"_error": ...}` dict.
   */
  type Oracle = (nat, seq<Json>) -> Json

  /** A Python dict with string keys (a JSON object). */
  type Obj = map<string, Json>

  /** Python truthiness: None, False, 0, "", [] and {} are false. */
  predicate Truthy(j: Json) {
    match j
    case JNull => false
    case JBool(b) => b
    case JInt(i) => i != 0
    case JStr(s) => s != ""
    case JArr(a) => a != []
    case JObj(m) => m != map[]
  }

  /** Python `a or b`. */
  function Or(a: Json, b: Json): Json {
    if Truthy(a) then a else b
  }

  /** Python `d.get(k)`: None when the key is missing. */
  function Get(d: Obj, k: string): Json {
    if k in d then d[k] else JNull
  }

  /** Python `d.get(k, default)`: the default only when the key is missing. */
  function GetOr(d: Obj, k: string, default: Json): Json {
    if k in d then d[k] else default
  }

  /** The dict inside a JSON value; wrongly typed values read as an empty dict. */
  function AsObj(j: Json): Obj {
    if j.JObj? then j.fields else map[]
  }

  /** `x.get(k)` on a value that is expected to be a dict. */
  function Field(j: Json, k: string): Json {
    Get(AsObj(j), k)
  }

  /** The string inside `(x or "")`; other values read as "". */
  function Text(j: Json): string {
    if j.JStr? then j.s else ""
  }

  /** The elements a `for x in v` loop visits when `v` is a list (else none). */
  function Elements(j: Json): seq<Json> {
    if j.JArr? then j.items else []
  }

  /** Python `obj is None`. */
  predicate IsNone(j: Json) {
    j == JNull
  }

  predicate IsDigit(c: char) {
    '0' <= c <= '9'
  }

  /** The ASCII characters Python's `str.isspace` accepts: space, `\t` to `\r`, and `\x1c` to `\x1f`. */
  predicate IsSpace(c: char) {
    c == ' ' || '\t' <= c <= '\r' || '\U{001C}' <= c <= '\U{001F}'
  }

  /** The value of a non-empty string of decimal digits. */
  function DigitsValue(s: string): nat
    requires forall i :: 0 <= i < |s| ==> IsDigit(s[i])
    decreases |s|
  {
    if s == [] then 0
    else
      var d := s[|s| - 1];
      assert IsDigit(d);
      DigitsValue(s[..|s| - 1]) * 10 + (d as int - '0' as int)
  }

  function TrimStart(s: string): string
    decreases |s|
  {
    if s != [] && IsSpace(s[0]) then TrimStart(s[1..]) else s
  }

  function TrimEnd(s: string): string
    decreases |s|
  {
    if s != [] && IsSpace(s[|s| - 1]) then TrimEnd(s[..|s| - 1]) else s
  }

  /** Python `s.strip()` over the ASCII whitespace of `IsSpace`. */
  function Strip(s: string): string {
    TrimEnd(TrimStart(s))
  }

  /** Stripping drops only leading whitespace and leaves none at the front. */
  lemma {:induction false} TrimStartSpec(s: string)
    ensures var r := TrimStart(s);
      |r| <= |s| && r == s[|s| - |r|..] && (r != [] ==> !IsSpace(r[0]))
      && forall i :: 0 <= i < |s| - |r| ==> IsSpace(s[i])
    decreases |s|
  {
    if s != [] && IsSpace(s[0]) {
      TrimStartSpec(s[1..]);
    }
  }

  /** Stripping drops only trailing whitespace and leaves none at the end. */
  lemma {:induction false} TrimEndSpec(s: string)
    ensures var r := TrimEnd(s);
      |r| <= |s| && r == s[..|r|] && (r != [] ==> !IsSpace(r[|r| - 1]))
      && forall i :: |r| <= i < |s| ==> IsSpace(s[i])
    decreases |s|
  {
    if s != [] && IsSpace(s[|s| - 1]) {
      TrimEndSpec(s[..|s| - 1]);
    }
  }

  /** Python `c.lower()` for an ASCII letter; other characters are kept. */
  function LowerChar(c: char): char {
    if 'A' <= c <= 'Z' then (c as int - 'A' as int + 'a' as int) as char else c
  }

  /** Python `s.lower()` over ASCII letters. */
  function Lower(s: string): (r: string)
    ensures |r| == |s|
    decreases |s|
  {
    if s == [] then [] else [LowerChar(s[0])] + Lower(s[1..])
  }

  /** Lowering maps every character on its own. */
  lemma {:induction false} LowerAt(s: string)
    ensures forall i :: 0 <= i < |s| ==> Lower(s)[i] == LowerChar(s[i])
    decreases |s|
  {
    if s != [] {
      LowerAt(s[1..]);
      assert forall i :: 1 <= i < |s| ==> Lower(s)[i] == Lower(s[1..])[i - 1] && s[1..][i - 1] == s[i];
    }
  }

  /** Python `int(s)` for a string: optional sign and decimal digits, surrounding whitespace allowed. */
  function ParseInt(s: string): Option<int> {
    var t := Strip(s);
    if t != [] && (t[0] == '-' || t[0] == '+') then
      var d := t[1..];
      if d != [] && forall i :: 0 <= i < |d| ==> IsDigit(d[i]) then
        var v: int := DigitsValue(d);
        Some(if t[0] == '-' then -v else v)
      else None
    else if t != [] && forall i :: 0 <= i < |t| ==> IsDigit(t[i]) then Some(DigitsValue(t))
    else None
  }

  /** Python `int(x)`: None where Python raises TypeError or ValueError. */
  function ToInt(j: Json): Option<int> {
    match j
    case JInt(n) => Some(n)
    case JBool(b) => Some(if b then 1 else 0)
    case JStr(s) => ParseInt(s)
    case _ => None
  }

  /** A number used in `+` or `>`: ints, and booleans as 0/1; anything else counts as 0. */
  function Num(j: Json): int {
    match j
    case JInt(n) => n
    case JBool(b) => if b then 1 else 0
    case _ => 0
  }

  function IntsToJson(xs: seq<int>): (r: seq<Json>)
    ensures |r| == |xs| && forall i :: 0 <= i < |xs| ==> r[i] == JInt(xs[i])
  {
    seq(|xs|, i requires 0 <= i < |xs| => JInt(xs[i]))
  }

  function Min(a: int, b: int): int {
    if a <= b then a else b
  }
}
