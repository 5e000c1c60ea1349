/** JavaScript values as the client sees them after `response.json()`, and the
    few JavaScript operators the session and normalisation layer applies to
    them: truthiness, property access (`x.key`, `x?.key`), `||`, spread with
    one overridden key, `toLowerCase`, `trim` and `String(x)`. */
module Js {

  datatype Option<+T> = None | Some(value: T)

  /** A parsed JSON value. Object properties keep their insertion order, as a
      JavaScript object does; a key is looked up at its first occurrence.
      Numbers are integers: the core only tests them for zero, equality and
      order. */
  datatype Json =
    | JNull
    | JBool(b: bool)
    | JNum(n: int)
    | JStr(s: string)
    | JArr(items: seq<Json>)
    | JObj(props: seq<(string, Json)>)

  /** JavaScript truthiness: `null`, `false`, `0` and `""` are falsy (an absent
      property, `undefined`, is `None` and is falsy too); every array and every
      object, even an empty one, is truthy. */
  predicate Truthy(j: Json)
  {
    match j
    case JNull => false
    case JBool(b) => b
    case JNum(n) => n != 0
    case JStr(s) => s != ""
    case JArr(_) => true
    case JObj(_) => true
  }

  /** Truthiness of a value that may be `undefined`. */
  predicate Present(o: Option<Json>)
  {
    o.Some? && Truthy(o.value)
  }

  function Lookup(props: seq<(string, Json)>, key: string): (v: Option<Json>)
    ensures v.Some? <==> exists i :: 0 <= i < |props| && props[i].0 == key
    ensures v.Some? ==> exists i :: 0 <= i < |props| && props[i] == (key, v.value)
  {
    if props == [] then None
    else if props[0].0 == key then Some(props[0].1)
    else Lookup(props[1..], key)
  }

  /** `x.key` for a value that is not `null`, and `x?.key` for any value: only
      an object has the properties the core asks for; on an array, a string, a
      number or a boolean they are `undefined`. (On `null`, plain `x.key`
      throws; callers that can meet `null` model that themselves.) */
  function Get(j: Json, key: string): (v: Option<Json>)
    ensures v.Some? ==> j.JObj?
  {
    match j
    case JObj(props) => Lookup(props, key)
    case _ => None
  }

  /** `x?.a?.b`: property access through an intermediate value that may be
      missing. */
  function GetIn(j: Json, outer: string, inner: string): (v: Option<Json>)
    ensures v.Some? ==> Get(j, outer).Some? && Get(j, outer).value.JObj?
  {
    match Get(j, outer)
    case None => None
    case Some(o) => Get(o, inner)
  }

  /** `a || b`: the first operand when it is truthy, otherwise the second. */
  function Or(a: Option<Json>, b: Json): (r: Json)
    ensures Present(a) ==> r == a.value
    ensures !Present(a) ==> r == b
  {
    if Present(a) then a.value else b
  }

  /** `a || b` where `b` may itself be `undefined`. */
  function OrElse(a: Option<Json>, b: Option<Json>): (r: Option<Json>)
    ensures Present(a) ==> r == a
    ensures !Present(a) ==> r == b
  {
    if Present(a) then a else b
  }

  /** The properties of `{...props, key: v}`: an existing key keeps its place
      and takes the new value, a new key goes last. */
  function Put(props: seq<(string, Json)>, key: string, v: Json): (r: seq<(string, Json)>)
    ensures Lookup(r, key) == Some(v)
    ensures forall k :: k != key ==> Lookup(r, k) == Lookup(props, k)
  {
    if props == [] then [(key, v)]
    else if props[0].0 == key then [(key, v)] + props[1..]
    else [props[0]] + Put(props[1..], key, v)
  }

  /** The own enumerable string-keyed properties spread by `{...j}` that the
      core later reads: an object's properties; nothing for `null`, booleans
      and numbers. Arrays and strings spread their indices "0", "1", ..., which
      no reader in the core asks for, so they contribute nothing here. */
  function SpreadProps(j: Json): seq<(string, Json)>
  {
    if j.JObj? then j.props else []
  }

  // ---------------------------------------------------------------------------
  // String.prototype.toLowerCase

  /** Lower case of one character: ASCII `A`-`Z` and the Latin-1 capitals
      `À`-`Þ` (except the multiplication sign) map to their small letters; every
      other character is left as it is. */
  function LowerChar(c: char): (d: char)
    ensures 'A' <= c <= 'Z' ==> d as int == c as int + 32
    ensures !('A' <= c <= 'Z') && !('À' <= c <= 'Þ') ==> d == c
  {
    if 'A' <= c <= 'Z' || ('À' <= c <= 'Þ' && c != '×') then
      (c as int + 32) as char
    else c
  }

  function Lower(s: string): (r: string)
    ensures |r| == |s|
    ensures forall i :: 0 <= i < |s| ==> r[i] == LowerChar(s[i])
  {
    if s == [] then [] else [LowerChar(s[0])] + Lower(s[1..])
  }

  lemma LowerCharIdempotent(c: char)
    ensures LowerChar(LowerChar(c)) == LowerChar(c)
  {
  }

  /** Lower-casing twice is lower-casing once, so comparing lower-cased texts
      is insensitive to a second lower-casing. */
  lemma {:induction false} LowerIdempotent(s: string)
    ensures Lower(Lower(s)) == Lower(s)
  {
    var r := Lower(Lower(s));
    forall i | 0 <= i < |s|
      ensures r[i] == Lower(s)[i]
    {
      LowerCharIdempotent(s[i]);
    }
  }

  /** A text without capitals is its own lower case. */
  lemma LowerFixed(s: string)
    requires forall i :: 0 <= i < |s| ==> !('A' <= s[i] <= 'Z') && !('À' <= s[i] <= 'Þ')
    ensures Lower(s) == s
  {
    assert forall i :: 0 <= i < |s| ==> Lower(s)[i] == s[i];
  }

  // ---------------------------------------------------------------------------
  // String.prototype.trim

  /** The characters `trim` removes: the WhiteSpace and LineTerminator code
      points of the ECMAScript grammar. */
  predicate IsSpace(c: char)
  {
    c == '\t' || c == '\n' || c == '\U{B}' || c == '\U{C}' || c == '\r' || c == ' '
    || c == '\U{A0}' || c == '\U{1680}' || ('\U{2000}' <= c <= '\U{200A}')
    || c == '\U{2028}' || c == '\U{2029}' || c == '\U{202F}' || c == '\U{205F}'
    || c == '\U{3000}' || c == '\U{FEFF}'
  }

  /** The end of the run of white space that starts at `i`. */
  function SkipSpace(s: string, i: nat): (j: nat)
    requires i <= |s|
    ensures i <= j <= |s|
    ensures forall k :: i <= k < j ==> IsSpace(s[k])
    ensures j < |s| ==> !IsSpace(s[j])
    decreases |s| - i
  {
    if i < |s| && IsSpace(s[i]) then SkipSpace(s, i + 1) else i
  }

  /** The start of the run of white space that ends at `j`, going back no
      further than `lo`. */
  function BackSpace(s: string, lo: nat, j: nat): (e: nat)
    requires lo <= j <= |s|
    ensures lo <= e <= j
    ensures forall k :: e <= k < j ==> IsSpace(s[k])
    ensures e > lo ==> !IsSpace(s[e - 1])
    decreases j
  {
    if j > lo && IsSpace(s[j - 1]) then BackSpace(s, lo, j - 1) else j
  }

  /** `s.trim()`: `s` is the result framed by two runs of white space, and the
      result neither starts nor ends with white space. */
  function Trim(s: string): (r: string)
    ensures exists i, j :: 0 <= i <= j <= |s| && r == s[i..j]
                          && (forall k :: 0 <= k < i ==> IsSpace(s[k]))
                          && (forall k :: j <= k < |s| ==> IsSpace(s[k]))
    ensures r != [] ==> !IsSpace(r[0]) && !IsSpace(r[|r| - 1])
  {
    var i := SkipSpace(s, 0);
    var j := BackSpace(s, i, |s|);
    s[i..j]
  }

  /** Trimming a trimmed text changes nothing. */
  lemma TrimIdempotent(s: string)
    ensures Trim(Trim(s)) == Trim(s)
  {
    var r := Trim(s);
    if r != [] {
      assert SkipSpace(r, 0) == 0;
      assert BackSpace(r, 0, |r|) == |r|;
      assert r[0..|r|] == r;
    }
  }

  // ---------------------------------------------------------------------------
  // Number.prototype.toString and String(x)

  function DigitChar(d: nat): (c: char)
    requires d < 10
    ensures '0' <= c <= '9'
  {
    ('0' as int + d) as char
  }

  predicate IsDigit(c: char)
  {
    '0' <= c <= '9'
  }

  /** Decimal notation of a natural number, without leading zeros. */
  function NatText(n: nat): (s: string)
    ensures s != [] && forall i :: 0 <= i < |s| ==> IsDigit(s[i])
    ensures |s| > 1 ==> s[0] != '0'
    decreases n
  {
    if n < 10 then [DigitChar(n)] else NatText(n / 10) + [DigitChar(n % 10)]
  }

  /** `n.toString()` for an integer `n`. */
  function IntText(n: int): (s: string)
    ensures s != []
    ensures n >= 0 ==> s == NatText(n)
    ensures n < 0 ==> s == "-" + NatText(-n)
  {
    if n < 0 then "-" + NatText(-n) else NatText(n)
  }

  /** `String(j)`: how a value becomes text in a template literal or in
      URL query parameters. Elements of an array are joined with commas, with
      `null` elements written as nothing. */
  function ToText(j: Json): string
    decreases j
  {
    match j
    case JNull => "null"
    case JBool(b) => if b then "true" else "false"
    case JNum(n) => IntText(n)
    case JStr(s) => s
    case JArr(items) => JoinText(items)
    case JObj(_) => "[object Object]"
  }

  function JoinText(items: seq<Json>): string
    decreases items
  {
    if items == [] then ""
    else
      var head := if items[0].JNull? then "" else ToText(items[0]);
      if |items| == 1 then head else head + "," + JoinText(items[1..])
  }
}
