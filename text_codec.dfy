/** The text form of a value kept in the credential store. The client writes
    the user record with `JSON.stringify` and reads it back with `JSON.parse`,
    answering `null` when parsing fails. This module is a self-delimiting text
    format standing in for that pair: what the session layer relies on is that
    reading back what was written gives the same record. What is proved about
    other texts: a text that does not open like a value (the empty text among
    them) reads as nothing, and so does a written value followed by anything
    more.

      null -> n     true -> t     false -> f     number -> i<decimal>;
      string -> s<length>:<chars>
      array  -> [ <item> ... ]
      object -> { <length>:<key> <value> ... } */
module TextCodec {
  import opened Js

  function EncodeText(t: string): (s: string)
    ensures s != [] && IsDigit(s[0])
  {
    NatText(|t|) + ":" + t
  }

  function Encode(j: Json): (s: string)
    ensures s != [] && s[0] in "ntfis[{"
    decreases j
  {
    match j
    case JNull => "n"
    case JBool(b) => if b then "t" else "f"
    case JNum(n) => "i" + IntText(n) + ";"
    case JStr(t) => "s" + EncodeText(t)
    case JArr(items) => "[" + EncodeItems(items) + "]"
    case JObj(props) => "{" + EncodeProps(props) + "}"
  }

  function EncodeItems(items: seq<Json>): string
    decreases items
  {
    if items == [] then "" else Encode(items[0]) + EncodeItems(items[1..])
  }

  function EncodeProps(props: seq<(string, Json)>): string
    decreases props
  {
    if props == [] then ""
    else
      var p := props[0];
      assert p in props && p.1 < p;
      EncodeText(p.0) + Encode(p.1) + EncodeProps(props[1..])
  }

  // ---------------------------------------------------------------------------
  // Reading

  /** Number of leading decimal digits. */
  function DigitRun(s: string): (k: nat)
    ensures k <= |s|
    ensures forall i :: 0 <= i < k ==> IsDigit(s[i])
    ensures k < |s| ==> !IsDigit(s[k])
  {
    if s != [] && IsDigit(s[0]) then 1 + DigitRun(s[1..]) else 0
  }

  /** The number a run of digits denotes, read left to right. */
  function DigitsValue(ds: string): nat
    requires forall i :: 0 <= i < |ds| ==> IsDigit(ds[i])
    decreases |ds|
  {
    if ds == [] then 0
    else
      assert IsDigit(ds[|ds| - 1]);
      DigitsValue(ds[..|ds| - 1]) * 10 + (ds[|ds| - 1] as int - '0' as int)
  }

  /** A natural number in decimal at the front of `s`, and what follows it. */
  function ReadNat(s: string): (r: Option<(nat, string)>)
    ensures r.Some? ==> |r.value.1| < |s|
  {
    var k := DigitRun(s);
    if k == 0 then None else Some((DigitsValue(s[..k]), s[k..]))
  }

  /** A length-prefixed text at the front of `s`, and what follows it. */
  function ReadText(s: string): (r: Option<(string, string)>)
    ensures r.Some? ==> |r.value.1| < |s|
  {
    match ReadNat(s)
    case None => None
    case Some((n, rest)) =>
      if rest != [] && rest[0] == ':' && n <= |rest| - 1 then
        Some((rest[1..1 + n], rest[1 + n..]))
      else None
  }

  /** An integer `-?<digits>;` at the front of `s`, and what follows it. */
  function ReadInt(s: string): (r: Option<(int, string)>)
    ensures r.Some? ==> |r.value.1| < |s|
  {
    var neg := s != [] && s[0] == '-';
    var u := if neg then s[1..] else s;
    match ReadNat(u)
    case None => None
    case Some((v, rest)) =>
      if rest != [] && rest[0] == ';' then
        var n: int := if neg then 0 - v else v;
        Some((n, rest[1..]))
      else None
  }

  /** One encoded value at the front of `s`, and what follows it. */
  function DecodeValue(s: string): (r: Option<(Json, string)>)
    ensures r.Some? ==> |r.value.1| < |s|
    decreases |s|, 0
  {
    if s == [] then None
    else if s[0] == 'n' then Some((JNull, s[1..]))
    else if s[0] == 't' then Some((JBool(true), s[1..]))
    else if s[0] == 'f' then Some((JBool(false), s[1..]))
    else if s[0] == 'i' then
      match ReadInt(s[1..])
      case None => None
      case Some((n, rest)) => Some((JNum(n), rest))
    else if s[0] == 's' then
      match ReadText(s[1..])
      case None => None
      case Some((t, rest)) => Some((JStr(t), rest))
    else if s[0] == '[' then
      match DecodeItems(s[1..])
      case None => None
      case Some((items, rest)) => Some((JArr(items), rest))
    else if s[0] == '{' then
      match DecodeProps(s[1..])
      case None => None
      case Some((props, rest)) => Some((JObj(props), rest))
    else None
  }

  /** Array elements up to and including the closing `]`. */
  function DecodeItems(s: string): (r: Option<(seq<Json>, string)>)
    ensures r.Some? ==> |r.value.1| < |s|
    decreases |s|, 1
  {
    if s == [] then None
    else if s[0] == ']' then Some(([], s[1..]))
    else
      match DecodeValue(s)
      case None => None
      case Some((v, rest)) =>
        match DecodeItems(rest)
        case None => None
        case Some((more, rest')) => Some(([v] + more, rest'))
  }

  /** Object properties up to and including the closing `}`. */
  function DecodeProps(s: string): (r: Option<(seq<(string, Json)>, string)>)
    ensures r.Some? ==> |r.value.1| < |s|
    decreases |s|, 1
  {
    if s == [] then None
    else if s[0] == '}' then Some(([], s[1..]))
    else
      match ReadText(s)
      case None => None
      case Some((key, rest)) =>
        match DecodeValue(rest)
        case None => None
        case Some((v, rest')) =>
          match DecodeProps(rest')
          case None => None
          case Some((more, rest'')) => Some(([(key, v)] + more, rest''))
  }

  /** `JSON.parse`: a whole text holding exactly one value, or nothing. */
  function Decode(s: string): (r: Option<Json>)
    ensures r.Some? ==> s != [] && s[0] in "ntfis[{"
  {
    match DecodeValue(s)
    case None => None
    case Some((v, rest)) => if rest == [] then Some(v) else None
  }

  // ---------------------------------------------------------------------------
  // Round trip

  lemma {:induction false} NatTextValue(n: nat)
    ensures DigitsValue(NatText(n)) == n
    decreases n
  {
    if n >= 10 {
      var ds := NatText(n);
      assert ds[..|ds| - 1] == NatText(n / 10);
      NatTextValue(n / 10);
    }
  }

  lemma {:induction false} DigitRunPrefix(ds: string, t: string)
    requires forall i :: 0 <= i < |ds| ==> IsDigit(ds[i])
    requires t == [] || !IsDigit(t[0])
    ensures DigitRun(ds + t) == |ds|
    decreases |ds|
  {
    if ds != [] {
      assert (ds + t)[1..] == ds[1..] + t;
      DigitRunPrefix(ds[1..], t);
    }
  }

  lemma ReadNatText(n: nat, t: string)
    requires t == [] || !IsDigit(t[0])
    ensures ReadNat(NatText(n) + t) == Some((n, t))
  {
    var ds := NatText(n);
    DigitRunPrefix(ds, t);
    assert (ds + t)[..|ds|] == ds;
    assert (ds + t)[|ds|..] == t;
    NatTextValue(n);
  }

  /** `ReadInt` on a text without a leading minus sign reads a natural
      number followed by `;`. */
  lemma ReadIntUnsigned(ds: string, v: nat, t: string)
    requires ds != [] && ds[0] != '-' && ReadNat(ds + ";" + t) == Some((v, ";" + t))
    ensures ReadInt(ds + ";" + t) == Some((v, t))
  {
    var rest := ";" + t;
    assert rest[0] == ';' && rest[1..] == t;
  }

  /** `ReadInt` after a minus sign reads a natural number followed by `;`
      and negates it. */
  lemma ReadIntSigned(ds: string, v: nat, t: string)
    requires ReadNat(ds + ";" + t) == Some((v, ";" + t))
    ensures ReadInt("-" + ds + ";" + t) == Some((0 - v, t))
  {
    var s := "-" + ds + ";" + t;
    assert s[1..] == ds + ";" + t;
    var rest := ";" + t;
    assert rest[0] == ';' && rest[1..] == t;
  }

  lemma ReadIntText(n: int, t: string)
    ensures ReadInt(IntText(n) + ";" + t) == Some((n, t))
  {
    if n < 0 {
      var ds := NatText(-n);
      ReadNatText(-n, ";" + t);
      assert ds + ";" + t == ds + (";" + t);
      ReadIntSigned(ds, -n, t);
    } else {
      var ds := NatText(n);
      assert IsDigit(ds[0]);
      ReadNatText(n, ";" + t);
      assert ds + ";" + t == ds + (";" + t);
      ReadIntUnsigned(ds, n, t);
    }
  }

  lemma ReadTextEncoded(key: string, t: string)
    ensures ReadText(EncodeText(key) + t) == Some((key, t))
  {
    var s := EncodeText(key) + t;
    assert s == NatText(|key|) + (":" + key + t);
    ReadNatText(|key|, ":" + key + t);
    var rest := ":" + key + t;
    assert rest[1..1 + |key|] == key;
    assert rest[1 + |key|..] == t;
  }

  lemma {:induction false} DecodeValueEncode(j: Json, t: string)
    ensures DecodeValue(Encode(j) + t) == Some((j, t))
    decreases j, 1
  {
    match j
    case JNull =>
    case JBool(b) =>
    case JNum(n) => DecodeNumEncode(n, t);
    case JStr(x) => DecodeStrEncode(x, t);
    case JArr(_) => DecodeArrEncode(j, t);
    case JObj(_) => DecodeObjEncode(j, t);
  }

  lemma {:induction false} DecodeArrEncode(j: Json, t: string)
    requires j.JArr?
    ensures DecodeValue(Encode(j) + t) == Some((j, t))
    decreases j, 0
  {
    var body := EncodeItems(j.items) + "]" + t;
    assert Encode(j) + t == "[" + body;
    DecodeItemsEncode(j.items, t);
    DecodeArrayAt("[" + body, body);
  }

  lemma {:induction false} DecodeObjEncode(j: Json, t: string)
    requires j.JObj?
    ensures DecodeValue(Encode(j) + t) == Some((j, t))
    decreases j, 0
  {
    var body := EncodeProps(j.props) + "}" + t;
    assert Encode(j) + t == "{" + body;
    DecodePropsEncode(j.props, t);
    DecodeObjectAt("{" + body, body);
  }

  /** A text opening with `[` decodes as the array of the elements after it. */
  lemma DecodeArrayAt(s: string, body: string)
    requires s == "[" + body
    ensures DecodeItems(body).Some? ==>
              DecodeValue(s) == Some((JArr(DecodeItems(body).value.0), DecodeItems(body).value.1))
  {
    assert s[0] == '[' && s[1..] == body;
  }

  /** A text opening with `{` decodes as the object of the properties after
      it. */
  lemma DecodeObjectAt(s: string, body: string)
    requires s == "{" + body
    ensures DecodeProps(body).Some? ==>
              DecodeValue(s) == Some((JObj(DecodeProps(body).value.0), DecodeProps(body).value.1))
  {
    assert s[0] == '{' && s[1..] == body;
  }

  lemma DecodeNumEncode(n: int, t: string)
    ensures DecodeValue(Encode(JNum(n)) + t) == Some((JNum(n), t))
  {
    var s := Encode(JNum(n)) + t;
    assert s[0] == 'i' && s[1..] == IntText(n) + ";" + t;
    ReadIntText(n, t);
  }

  lemma DecodeStrEncode(x: string, t: string)
    ensures DecodeValue(Encode(JStr(x)) + t) == Some((JStr(x), t))
  {
    var s := Encode(JStr(x)) + t;
    assert s[0] == 's' && s[1..] == EncodeText(x) + t;
    ReadTextEncoded(x, t);
  }

  lemma {:induction false} DecodeItemsEncode(items: seq<Json>, t: string)
    ensures DecodeItems(EncodeItems(items) + "]" + t) == Some((items, t))
    decreases items
  {
    if items != [] {
      var rest := EncodeItems(items[1..]) + "]" + t;
      assert EncodeItems(items) + "]" + t == Encode(items[0]) + rest;
      DecodeValueEncode(items[0], rest);
      DecodeItemsEncode(items[1..], t);
      assert [items[0]] + items[1..] == items;
    }
  }

  lemma {:induction false} DecodePropsEncode(props: seq<(string, Json)>, t: string)
    ensures DecodeProps(EncodeProps(props) + "}" + t) == Some((props, t))
    decreases props
  {
    if props != [] {
      assert props[0] in props && props[0].1 < props[0];
      var rest' := EncodeProps(props[1..]) + "}" + t;
      var rest := Encode(props[0].1) + rest';
      assert EncodeProps(props) + "}" + t == EncodeText(props[0].0) + rest;
      ReadTextEncoded(props[0].0, rest);
      DecodeValueEncode(props[0].1, rest');
      DecodePropsEncode(props[1..], t);
      DecodePropsStep(EncodeProps(props) + "}" + t, props[0].0, rest, props[0].1, rest', props[1..], t);
      assert [(props[0].0, props[0].1)] + props[1..] == props;
    }
  }

  /** One property read off the front, then the rest of the object. */
  lemma DecodePropsStep(s: string, key: string, rest: string, v: Json, rest': string,
                        more: seq<(string, Json)>, tail: string)
    requires s == EncodeText(key) + rest
    requires ReadText(s) == Some((key, rest))
    requires DecodeValue(rest) == Some((v, rest'))
    requires DecodeProps(rest') == Some((more, tail))
    ensures DecodeProps(s) == Some(([(key, v)] + more, tail))
  {
    assert IsDigit(s[0]);
  }

  /** Reading back a written value gives that value. */
  lemma DecodeEncode(j: Json)
    ensures Decode(Encode(j)) == Some(j)
  {
    DecodeValueEncode(j, []);
    assert Encode(j) + [] == Encode(j);
  }

  /** A written value with anything after it is not one whole value. */
  lemma DecodeTrailing(j: Json, t: string)
    requires t != []
    ensures Decode(Encode(j) + t) == None
  {
    DecodeValueEncode(j, t);
  }
}
