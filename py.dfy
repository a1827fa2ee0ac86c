/** Python values and the handful of Python operations the agent orchestrators rely on.

  A decoded JSON document (what `response.json()` / `json.loads` yields, and what the
  orchestrators build with dict literals) is a `Json`.  A Python dict keeps insertion order,
  so an object is an association list.  Python raises where the orchestrators assume a dict
  and get something else (`.get` on a list, `x['k']` on a missing key, `'k' in 5`); those
  operations return an `Outcome` whose `Raised` case carries the exception's text.
*/
module Py {

  datatype Option<+T> = None | Some(value: T)

  /** Either a value, or an exception raised with the given text. */
  datatype Outcome<+T> = Value(value: T) | Raised(reason: string)

  datatype Json =
    | JNull
    | JBool(b: bool)
    | JInt(i: int)
    | JStr(s: string)
    | JList(items: seq<Json>)
    | JObject(fields: seq<(string, Json)>)

  /** The name Python gives the value's type in its error messages. */
  function TypeName(j: Json): string {
    match j
    case JNull => "NoneType"
    case JBool(_) => "bool"
    case JInt(_) => "int"
    case JStr(_) => "str"
    case JList(_) => "list"
    case JObject(_) => "dict"
  }

  function Keys(fields: seq<(string, Json)>): (ks: seq<string>)
    ensures |ks| == |fields|
    ensures forall i :: 0 <= i < |fields| ==> ks[i] == fields[i].0
  {
    if fields == [] then [] else [fields[0].0] + Keys(fields[1..])
  }

  /** The value stored under `key` (dict lookup). */
  function Lookup(fields: seq<(string, Json)>, key: string): (r: Option<Json>)
    ensures r.Some? <==> key in Keys(fields)
    ensures r.Some? ==> exists i :: 0 <= i < |fields| && fields[i] == (key, r.value)
  {
    if fields == [] then None
    else if fields[0].0 == key then Some(fields[0].1)
    else Lookup(fields[1..], key)
  }

  /** `d.get(key, default)` on a value known to be a dict. */
  function LookupOr(fields: seq<(string, Json)>, key: string, default: Json): (r: Json)
    ensures key !in Keys(fields) ==> r == default
    ensures key in Keys(fields) ==> Some(r) == Lookup(fields, key)
  {
    match Lookup(fields, key) case Some(v) => v case None => default
  }

  /** The text of the exception `json.loads` raises on input that is not JSON. */
  const DecodeError: string := "Expecting value: line 1 column 1 (char 0)"

  /** `json.loads(text)` (or `response.json()`); `decode` is the JSON parser. */
  function Loads(text: string, decode: string -> Option<Json>): (r: Outcome<Json>)
    ensures r.Value? <==> decode(text).Some?
    ensures r.Value? ==> r.value == decode(text).value
  {
    match decode(text) case Some(v) => Value(v) case None => Raised(DecodeError)
  }

  /** `json.loads(j)` on a value that may not be a str. */
  function LoadsValue(j: Json, decode: string -> Option<Json>): (r: Outcome<Json>)
    ensures r.Value? <==> j.JStr? && decode(j.s).Some?
    ensures r.Value? ==> r.value == decode(j.s).value
  {
    if j.JStr? then Loads(j.s, decode)
    else Raised("the JSON object must be str, bytes or bytearray, not " + TypeName(j))
  }

  /** A dict literal `{k: v, ...}` with one key. */
  function Obj1(k: string, v: Json): Json { JObject([(k, v)]) }

  /** `{"error": msg}`, the shape every remote failure is reported in. */
  function ErrorObj(msg: string): (r: Json)
    ensures IsError(r)
  {
    JObject([("error", JStr(msg))])
  }

  /** True of a dict holding an "error" key. */
  predicate IsError(j: Json) {
    j.JObject? && "error" in Keys(j.fields)
  }

  /** The entry at position i is found by a lookup of its key when no earlier entry has that
      key. */
  lemma {:induction false} LookupAt(fields: seq<(string, Json)>, i: nat)
    requires i < |fields|
    requires forall j :: 0 <= j < i ==> fields[j].0 != fields[i].0
    ensures Lookup(fields, fields[i].0) == Some(fields[i].1)
  {
    if i > 0 {
      LookupAt(fields[1..], i - 1);
    }
  }

  /** A dict none of whose keys is "error" is not an error report. */
  lemma NoErrorKey(fields: seq<(string, Json)>)
    requires forall i :: 0 <= i < |fields| ==> fields[i].0 != "error"
    ensures !IsError(JObject(fields))
  {
  }

  /** `obj.get(key, default)`: an AttributeError unless `obj` is a dict. */
  function Get(obj: Json, key: string, default: Json): (r: Outcome<Json>)
    ensures r.Raised? <==> !obj.JObject?
    ensures obj.JObject? && key !in Keys(obj.fields) ==> r == Value(default)
  {
    match obj
    case JObject(fields) =>
      (match Lookup(fields, key) case Some(v) => Value(v) case None => Value(default))
    case _ => Raised("'" + TypeName(obj) + "' object has no attribute 'get'")
  }

  /** `obj[key]` with a string key. */
  function Index(obj: Json, key: string): (r: Outcome<Json>)
    ensures r.Value? <==> obj.JObject? && key in Keys(obj.fields)
  {
    match obj
    case JObject(fields) =>
      (match Lookup(fields, key) case Some(v) => Value(v) case None => Raised("'" + key + "'"))
    case JList(_) => Raised("list indices must be integers or slices, not str")
    case JStr(_) => Raised("string indices must be integers, not 'str'")
    case _ => Raised("'" + TypeName(obj) + "' object is not subscriptable")
  }

  /** `key in obj` for a string `key`: a dict tests its keys, a list its elements, a str its
      substrings; anything else raises a TypeError. */
  function Contains(obj: Json, key: string): (r: Outcome<bool>)
    ensures obj.JObject? ==> r == Value(key in Keys(obj.fields))
    ensures r.Raised? <==> obj.JNull? || obj.JBool? || obj.JInt?
  {
    match obj
    case JObject(fields) => Value(key in Keys(fields))
    case JList(items) => Value(JStr(key) in items)
    case JStr(s) => Value(IsInfix(key, s))
    case _ => Raised("argument of type '" + TypeName(obj) + "' is not iterable")
  }

  /** `len(obj)`. */
  function Len(obj: Json): (r: Outcome<nat>)
    ensures obj.JStr? ==> r == Value(|obj.s|)
  {
    match obj
    case JStr(s) => Value(|s|)
    case JList(items) => Value(|items|)
    case JObject(fields) => Value(|fields|)
    case _ => Raised("object of type '" + TypeName(obj) + "' has no len()")
  }

  /** The elements a `for x in obj` loop visits. */
  function Iterate(obj: Json): (r: Outcome<seq<Json>>)
    ensures obj.JList? ==> r == Value(obj.items)
  {
    match obj
    case JList(items) => Value(items)
    case JObject(fields) => Value(seq(|fields|, i requires 0 <= i < |fields| => JStr(fields[i].0)))
    case JStr(s) => Value(seq(|s|, i requires 0 <= i < |s| => JStr([s[i]])))
    case _ => Raised("'" + TypeName(obj) + "' object is not iterable")
  }

  /** Python truthiness: None, False, 0 and empty containers are false. */
  predicate Truthy(j: Json) {
    match j
    case JNull => false
    case JBool(b) => b
    case JInt(i) => i != 0
    case JStr(s) => s != ""
    case JList(items) => items != []
    case JObject(fields) => fields != []
  }

  /** A str method (`lower`, `split`, ...) called on a value that may not be a str. */
  function AsStr(j: Json, attr: string): (r: Outcome<string>)
    ensures r.Value? <==> j.JStr?
    ensures j.JStr? ==> r == Value(j.s)
  {
    if j.JStr? then Value(j.s) else Raised("'" + TypeName(j) + "' object has no attribute '" + attr + "'")
  }

  // ---------------------------------------------------------------------------------------
  // Strings.  Characters are ASCII: case mapping and whitespace follow ASCII, not Unicode.

  predicate IsPrefix(p: string, s: string) {
    |p| <= |s| && s[..|p|] == p
  }

  /** `p in s` for strings. */
  predicate IsInfix(p: string, s: string) {
    exists i | 0 <= i <= |s| - |p| :: OccursAt(p, s, i)
  }

  predicate OccursAt(p: string, s: string, i: int) {
    0 <= i <= |s| - |p| && s[i..i + |p|] == p
  }

  function LowerChar(c: char): char {
    if 'A' <= c <= 'Z' then (c as int + 32) as char else c
  }

  function UpperChar(c: char): char {
    if 'a' <= c <= 'z' then (c as int - 32) as char else c
  }

  /** `s.lower()` */
  function Lower(s: string): (r: string)
    ensures |r| == |s|
    ensures forall i :: 0 <= i < |s| ==> r[i] == LowerChar(s[i])
  {
    seq(|s|, i requires 0 <= i < |s| => LowerChar(s[i]))
  }

  /** `s.upper()` */
  function Upper(s: string): (r: string)
    ensures |r| == |s|
    ensures forall i :: 0 <= i < |s| ==> r[i] == UpperChar(s[i])
  {
    seq(|s|, i requires 0 <= i < |s| => UpperChar(s[i]))
  }

  /** `s[:n]` for n >= 0 */
  function Take(s: string, n: nat): (r: string)
    ensures |r| == if |s| < n then |s| else n
    ensures IsPrefix(r, s)
  {
    if |s| <= n then s else s[..n]
  }

  /** The characters `str.strip()` removes: those for which `str.isspace()` holds. */
  predicate IsSpace(c: char) {
    || c == ' ' || ('\t' <= c <= '\r') || ('\U{1C}' <= c <= '\U{1F}') || c == '\U{85}' || c == '\U{A0}'
    || c == '\U{1680}' || ('\U{2000}' <= c <= '\U{200A}') || c == '\U{2028}' || c == '\U{2029}'
    || c == '\U{202F}' || c == '\U{205F}' || c == '\U{3000}'
  }

  function StripLeft(s: string): (r: string)
    ensures |r| <= |s| && r == s[|s| - |r|..]
    ensures r == [] || !IsSpace(r[0])
  {
    if s != [] && IsSpace(s[0]) then StripLeft(s[1..]) else s
  }

  function StripRight(s: string): (r: string)
    ensures |r| <= |s| && r == s[..|r|]
    ensures r == [] || !IsSpace(r[|r| - 1])
  {
    if s != [] && IsSpace(s[|s| - 1]) then StripRight(s[..|s| - 1]) else s
  }

  /** `s.strip()` */
  function Strip(s: string): (r: string)
    ensures r == [] || (!IsSpace(r[0]) && !IsSpace(r[|r| - 1]))
    ensures IsInfix(r, s)
  {
    var l := StripLeft(s);
    var r := StripRight(l);
    assert s[|s| - |l|..][..|r|] == s[|s| - |l|..|s| - |l| + |r|];
    assert OccursAt(r, s, |s| - |l|);
    r
  }

  /** `s.split(sep)` for a one-character separator. */
  function Split(s: string, sep: char): (parts: seq<string>)
    ensures |parts| >= 1
    ensures forall k :: 0 <= k < |parts| ==> sep !in parts[k]
    decreases |s|
  {
    if sep !in s then [s]
    else
      var i := FirstIndex(s, sep);
      [s[..i]] + Split(s[i + 1..], sep)
  }

  function FirstIndex(s: string, c: char): (i: nat)
    requires c in s
    ensures i < |s| && s[i] == c && c !in s[..i]
  {
    if s[0] == c then 0 else 1 + FirstIndex(s[1..], c)
  }

  /** `sep.join(parts)` for a one-character separator. */
  function Join(parts: seq<string>, sep: char): string
    requires |parts| >= 1
  {
    if |parts| == 1 then parts[0] else parts[0] + [sep] + Join(parts[1..], sep)
  }

  /** Splitting and joining on the same character gives the string back, so no character of
      the input is lost or invented by `split`. */
  lemma {:induction false} JoinSplit(s: string, sep: char)
    ensures Join(Split(s, sep), sep) == s
    decreases |s|
  {
    if sep in s {
      var i := FirstIndex(s, sep);
      JoinSplit(s[i + 1..], sep);
      assert s == s[..i] + [sep] + s[i + 1..];
    }
  }

  function DigitChar(d: nat): char
    requires d < 10
  {
    "0123456789"[d]
  }

  function NatToString(n: nat): (r: string)
    ensures |r| >= 1
    ensures forall k :: 0 <= k < |r| ==> '0' <= r[k] <= '9'
  {
    if n < 10 then [DigitChar(n)] else NatToString(n / 10) + [DigitChar(n % 10)]
  }

  /** `str(n)` for an int. */
  function IntToString(n: int): string {
    if n < 0 then "-" + NatToString(-n) else NatToString(n)
  }

  /** The decimal value of a string of digits. */
  function DigitsValue(r: string): nat
    requires forall k :: 0 <= k < |r| ==> '0' <= r[k] <= '9'
  {
    if r == [] then 0 else 10 * DigitsValue(r[..|r| - 1]) + (r[|r| - 1] as int - '0' as int)
  }

  /** `str(n)` is the decimal numeral of n: reading it back gives n. */
  lemma {:induction false} NatToStringValue(n: nat)
    ensures DigitsValue(NatToString(n)) == n
  {
    var r := NatToString(n);
    if n >= 10 {
      NatToStringValue(n / 10);
      assert r[..|r| - 1] == NatToString(n / 10);
    }
  }

  // ---------------------------------------------------------------------------------------
  // str() and repr() of a JSON value, as f-strings print them.  A string's repr is quoted
  // with ' (or with " when it holds a ' and no "), without escaping anything inside.

  function Str(j: Json): (r: string)
    ensures j.JStr? ==> r == j.s
  {
    if j.JStr? then j.s else Repr(j)
  }

  function QuoteStr(s: string): string {
    if '\'' in s && '"' !in s then "\"" + s + "\"" else "'" + s + "'"
  }

  function Repr(j: Json): string
    decreases j, 1
  {
    match j
    case JNull => "None"
    case JBool(b) => if b then "True" else "False"
    case JInt(i) => IntToString(i)
    case JStr(s) => QuoteStr(s)
    case JList(items) => "[" + ReprItems(j, 0) + "]"
    case JObject(fields) => "{" + ReprFields(j, 0) + "}"
  }

  /** The items of list `j` from position i on, separated by ", ". */
  function ReprItems(j: Json, i: nat): string
    requires j.JList?
    decreases j, 0, |j.items| - i
  {
    if i >= |j.items| then ""
    else
      assert j.items[i] in j.items;
      (if i == 0 then "" else ", ") + Repr(j.items[i]) + ReprItems(j, i + 1)
  }

  /** The entries of dict `j` from position i on, as `'key': value`, separated by ", ". */
  function ReprFields(j: Json, i: nat): string
    requires j.JObject?
    decreases j, 0, |j.fields| - i
  {
    if i >= |j.fields| then ""
    else
      assert j.fields[i] in j.fields;
      (if i == 0 then "" else ", ") + QuoteStr(j.fields[i].0) + ": " + Repr(j.fields[i].1) + ReprFields(j, i + 1)
  }
}
