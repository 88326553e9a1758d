/**
 * The analysis report as the browser sees it: a closed JSON value, together
 * with the JavaScript notions the client code applies to it (truthiness,
 * `typeof x === 'object'`, `Object.keys`, property reads) and the decimal
 * rendering `String(n)` of a natural number.
 */
module JsonValue {
  import opened Wrappers

  /**
   * A JSON value as `JSON.parse` leaves it. Numbers are integers; an object
   * keeps its members in the order `Object.keys` lists them after parsing
   * (names that look like array indices first, in ascending numeric order,
   * then the others in the order they appear), one member per name. This is
   * not necessarily the order of the JSON text.
   */
  datatype Json =
    | JNull
    | JBool(b: bool)
    | JNum(n: int)
    | JStr(s: string)
    | JArr(items: seq<Json>)
    | JObj(members: seq<(string, Json)>)

  /** JavaScript falsiness restricted to JSON values: `null`, `false`, `0` and `""`. */
  predicate Falsy(v: Json) {
    v == JNull || v == JBool(false) || v == JNum(0) || v == JStr("")
  }

  /** `typeof v === 'object' && v !== null`: an array or an object. */
  predicate IsContainer(v: Json) {
    v.JArr? || v.JObj?
  }

  /** The decimal digit `d` as a character. */
  function DigitChar(d: nat): (c: char)
    requires d < 10
    ensures '0' <= c <= '9' && (c as int) - ('0' as int) == d
  {
    (('0' as int) + d) as char
  }

  /** `String(n)` for a natural number: its decimal digits, no leading zero. */
  function DecimalString(n: nat): (s: string)
    ensures |s| >= 1
    ensures forall i :: 0 <= i < |s| ==> '0' <= s[i] <= '9'
    ensures |s| > 1 ==> s[0] != '0'
  {
    if n < 10 then [DigitChar(n)] else DecimalString(n / 10) + [DigitChar(n % 10)]
  }

  /** The value of a string of decimal digits (the inverse of DecimalString). */
  function ParseDecimal(s: string): nat
  {
    if s == [] then 0
    else
      var c := s[|s| - 1];
      var d := if '0' <= c <= '9' then (c as int) - ('0' as int) else 0;
      ParseDecimal(s[..|s| - 1]) * 10 + d
  }

  /** Reading back the decimal string of `n` gives `n`. */
  lemma {:induction false} ParseDecimalString(n: nat)
    ensures ParseDecimal(DecimalString(n)) == n
  {
    var s := DecimalString(n);
    if n >= 10 {
      assert s[..|s| - 1] == DecimalString(n / 10);
      ParseDecimalString(n / 10);
    }
  }

  /** Distinct numbers have distinct decimal strings, so array index keys never clash. */
  lemma DecimalStringInjective(i: nat, j: nat)
    requires i != j
    ensures DecimalString(i) != DecimalString(j)
  {
    ParseDecimalString(i);
    ParseDecimalString(j);
  }

  /**
   * `Object.keys(v)`: the member names of an object, the indices of an
   * array or of a string's characters, nothing for other values.
   */
  function ObjectKeys(v: Json): (keys: seq<string>)
    ensures v.JObj? ==> |keys| == |v.members| && forall i :: 0 <= i < |keys| ==> keys[i] == v.members[i].0
    ensures v.JArr? ==> |keys| == |v.items| && forall i :: 0 <= i < |keys| ==> keys[i] == DecimalString(i)
    ensures v.JStr? ==> |keys| == |v.s| && forall i :: 0 <= i < |keys| ==> keys[i] == DecimalString(i)
    ensures !v.JObj? && !v.JArr? && !v.JStr? ==> keys == []
  {
    match v
    case JObj(ms) => seq(|ms|, i requires 0 <= i < |ms| => ms[i].0)
    case JArr(items) => seq(|items|, i requires 0 <= i < |items| => DecimalString(i))
    case JStr(s) => seq(|s|, i requires 0 <= i < |s| => DecimalString(i))
    case _ => []
  }

  /**
   * `v[key]` for a name that no prototype defines, such as `total_spots`:
   * the value of the member called `key` when `v` is an object (the last
   * one, as `JSON.parse` keeps the last of repeated keys), `None`
   * (JavaScript's `undefined`) otherwise.
   */
  function Member(v: Json, key: string): (r: Option<Json>)
    ensures r.Some? <==> v.JObj? && exists i :: 0 <= i < |v.members| && v.members[i].0 == key
  {
    match v
    case JObj(ms) => LastMember(ms, key)
    case _ => None
  }

  /** The value of the last member of `ms` named `key`, if any. */
  function LastMember(ms: seq<(string, Json)>, key: string): (r: Option<Json>)
    ensures r.Some? <==> exists i :: 0 <= i < |ms| && ms[i].0 == key
    ensures r.Some? ==>
      exists i :: 0 <= i < |ms| && ms[i] == (key, r.value) && forall j :: i < j < |ms| ==> ms[j].0 != key
  {
    if ms == [] then None
    else if ms[|ms| - 1].0 == key then Some(ms[|ms| - 1].1)
    else
      var r := LastMember(ms[..|ms| - 1], key);
      assert forall i :: 0 <= i < |ms| - 1 ==> ms[..|ms| - 1][i] == ms[i];
      r
  }
}
