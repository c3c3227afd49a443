/** How ids and natural identities are spelled as the keys of local overrides, and that the spellings can be
    read back. */
module Spelling {
  import opened Prelude
  import opened BundleNames
  import opened Records

  // ----- Numbers -----

  function Decimal(n: int): string {
    if n < 0 then "-" + Digits(-n, 10, 0)
    else if n == 0 then "0"
    else Digits(n, 10, 0)
  }

  predicate IsDigit(c: char) { '0' <= c <= '9' }

  function ParseDigits(s: string): Option<nat> {
    if s == "" then Some(0)
    else
      var n := |s| - 1;
      match ParseDigits(s[..n])
      case None => None
      case Some(v) => if IsDigit(s[n]) then Some(v * 10 + ((s[n] as int) - ('0' as int))) else None
  }

  /** Python's reading of a decimal: an optional sign, then digits. */
  function ParseDecimal(s: string): Option<int> {
    if s == "" then None
    else if s[0] == '-' then
      match ParseDigits(s[1..])
      case Some(v) => if |s| == 1 then None else Some(0 - v as int)
      case None => None
    else
      match ParseDigits(s)
      case Some(v) => Some(v)
      case None => None
  }

  lemma DigitValue(d: nat)
    requires d < 10
    ensures IsDigit(Digit(d)) && (Digit(d) as int) - ('0' as int) == d
  {
  }

  /** Printed digits are read back, and are digits. */
  lemma {:induction false} ParsePrinted(id: nat)
    ensures ParseDigits(Digits(id, 10, 0)) == Some(id)
    ensures Digits(id, 10, 0) == "" <==> id == 0
    ensures forall i :: 0 <= i < |Digits(id, 10, 0)| ==> IsDigit(Digits(id, 10, 0)[i])
    decreases id
  {
    if id != 0 {
      ParsePrinted(id / 10);
      var s, c := Digits(id / 10, 10, 0), Digit(id % 10);
      assert Digits(id, 10, 0) == s + [c] && (s + [c])[..|s|] == s;
      DigitValue(id % 10);
    }
  }

  /** The decimal spelling reads back as the number. */
  lemma DecimalReadsBack(n: int)
    ensures ParseDecimal(Decimal(n)) == Some(n)
  {
    hide Digits;
    if n == 0 {
      assert "0"[..0] == "" && ParseDigits("0") == Some(0);
    } else {
      ParsePrinted(if n < 0 then -n else n);
      assert n < 0 ==> Decimal(n)[1..] == Digits(-n, 10, 0);
    }
  }

  // ----- JSON -----

  /** A character inside a JSON string; only quotes, backslashes and control characters are escaped. */
  function Escaped(c: char): string {
    if c == '\"' then "\\\""
    else if c == '\\' then "\\\\"
    else if c == '\n' then "\\n"
    else if c == '\r' then "\\r"
    else if c == '\t' then "\\t"
    else if c as int == 8 then "\\b"
    else if c as int == 12 then "\\f"
    else if c as int < 32 then "\\u" + Digits(c as int, 16, 4)
    else [c]
  }

  function EscapedText(s: string): string {
    if s == "" then "" else Escaped(s[0]) + EscapedText(s[1..])
  }

  /** A part of an identity as JSON; lists and objects are never part of one. */
  function Json(v: Value): string {
    match v
    case Null => "null"
    case Flag(b) => if b then "true" else "false"
    case Num(n) => Decimal(n)
    case Text(s) => "\"" + EscapedText(s) + "\""
    case List(_) => "[]"
    case Obj(_) => "{}"
  }

  function JsonParts(vs: seq<Value>): string {
    if vs == [] then ""
    else if |vs| == 1 then Json(vs[0])
    else Json(vs[0]) + "," + JsonParts(vs[1..])
  }

  /** A value alone, as Python's `str` gives it. */
  function Plain(v: Value): string {
    match v
    case Null => "None"
    case Flag(b) => if b then "True" else "False"
    case Num(n) => Decimal(n)
    case Text(s) => s
    case List(_) => "[]"
    case Obj(_) => "{}"
  }

  /** The key under which a natural identity is looked up. */
  function IdentityText(identity: seq<Value>): string {
    if |identity| == 1 then Plain(identity[0]) else "[" + JsonParts(identity) + "]"
  }

  // ----- Reading JSON back -----

  predicate Scalar(v: Value) {
    v.Null? || v.Flag? || v.Num? || v.Text?
  }

  /** Where a text cannot be continued by another digit. */
  predicate Stops(rest: string) {
    rest == "" || !IsDigit(rest[0])
  }

  lemma {:induction false} SameStart(s: string, t: string, x: string, y: string)
    requires s + x == t + y && |s| == |t|
    ensures s == t && x == y
  {
    assert (s + x)[..|s|] == s && (t + y)[..|t|] == t;
    assert (s + x)[|s|..] == x && (t + y)[|t|..] == y;
  }

  lemma JoinedAt(s: string, x: string, i: int)
    ensures 0 <= i < |s| ==> (s + x)[i] == s[i]
    ensures x != "" ==> (s + x)[|s|] == x[0]
  {
  }

  lemma NoShorter(s: string, t: string, x: string, y: string)
    requires s + x == t + y && Stops(x)
    requires forall i :: 0 <= i < |t| ==> IsDigit(t[i])
    ensures |s| >= |t|
  {
    JoinedAt(s, x, 0);
    JoinedAt(t, y, |s|);
  }

  /** Two runs of digits that stop are equal where the texts are. */
  lemma SameDigits(s: string, t: string, x: string, y: string)
    requires s + x == t + y && Stops(x) && Stops(y)
    requires forall i :: 0 <= i < |s| ==> IsDigit(s[i])
    requires forall i :: 0 <= i < |t| ==> IsDigit(t[i])
    ensures s == t && x == y
  {
    NoShorter(s, t, x, y);
    NoShorter(t, s, y, x);
    SameStart(s, t, x, y);
  }

  lemma DecimalShape(n: int)
    ensures Decimal(n) != ""
    ensures n < 0 ==> Decimal(n)[0] == '-' && Decimal(n)[1..] == Digits(-n, 10, 0)
    ensures n >= 0 ==> forall i :: 0 <= i < |Decimal(n)| ==> IsDigit(Decimal(n)[i])
    ensures n < 0 ==> forall i :: 1 <= i < |Decimal(n)| ==> IsDigit(Decimal(n)[i])
  {
    hide Digits;
    if n < 0 {
      ParsePrinted(-n);
      assert forall i :: 1 <= i < |Decimal(n)| ==> Decimal(n)[i] == Digits(-n, 10, 0)[i - 1];
    } else {
      ParsePrinted(n);
    }
  }

  lemma SameDecimal(a: int, b: int, x: string, y: string)
    requires Decimal(a) + x == Decimal(b) + y && Stops(x) && Stops(y)
    ensures a == b && x == y
  {
    DecimalShape(a);
    DecimalShape(b);
    var s, t := Decimal(a), Decimal(b);
    assert (s + x)[0] == s[0] && (t + y)[0] == t[0];
    assert (a < 0) == (b < 0) by { assert !IsDigit('-'); }
    if a < 0 {
      assert (s + x)[1..] == s[1..] + x && (t + y)[1..] == t[1..] + y;
      SameDigits(s[1..], t[1..], x, y);
      assert s == [s[0]] + s[1..] && t == [t[0]] + t[1..];
    } else {
      SameDigits(s, t, x, y);
    }
    DecimalReadsBack(a);
    DecimalReadsBack(b);
  }

  lemma EscapeStarts(c: char)
    ensures Escaped(c) != "" && Escaped(c)[0] != '\"'
    ensures |Escaped(c)| == 1 <==> Escaped(c)[0] != '\\'
    ensures |Escaped(c)| == 1 ==> Escaped(c)[0] == c
    ensures |Escaped(c)| != 1 && Escaped(c)[1] != 'u' ==> |Escaped(c)| == 2
    ensures |Escaped(c)| != 1 && Escaped(c)[1] == 'u' ==>
      c as int < 32 && |Escaped(c)| == 6 && Escaped(c)[2..] == Digits(c as int, 16, 4)
  {
    if c as int < 32 {
      PowerOfHex();
      FixedWidth(c as int, 16, 4);
      var d := Digits(c as int, 16, 4);
      assert ("\\u" + d)[2..] == d;
    }
  }

  lemma PowerOfHex()
    ensures 32 < Power(16, 4)
  {
    assert Power(16, 1) == 16 * Power(16, 0);
    assert Power(16, 2) == 16 * Power(16, 1);
    assert Power(16, 3) == 16 * Power(16, 2);
  }

  lemma HexDiffers(c: nat, d: nat)
    requires d < 32
    ensures c < d ==> Digits(c, 16, 4) != Digits(d, 16, 4)
  {
    if c < d {
      PowerOfHex();
      DigitsSort(c, d, 16, 4);
      LessOnce(Digits(c, 16, 4), Digits(d, 16, 4));
    }
  }

  lemma SameHex(c: nat, d: nat)
    requires c < 32 && d < 32 && Digits(c, 16, 4) == Digits(d, 16, 4)
    ensures c == d
  {
    HexDiffers(c, d);
    HexDiffers(d, c);
  }

  /** Escapes are told apart by their second character. */
  lemma SameShortEscape(c: char, d: char)
    requires |Escaped(c)| == |Escaped(d)| == 2 && Escaped(c)[1] == Escaped(d)[1]
    ensures c == d
  {
    PowerOfHex();
    if c as int < 32 { FixedWidth(c as int, 16, 4); }
    if d as int < 32 { FixedWidth(d as int, 16, 4); }
  }

  lemma SameEscape(c: char, d: char, x: string, y: string)
    requires Escaped(c) + x == Escaped(d) + y
    ensures c == d && x == y
  {
    EscapeStarts(c);
    EscapeStarts(d);
    hide Escaped;
    var s, t := Escaped(c), Escaped(d);
    assert (s + x)[0] == s[0] && (t + y)[0] == t[0];
    if |s| != 1 {
      assert (s + x)[1] == s[1] && (t + y)[1] == t[1];
      SameStart(s, t, x, y);
      if s[1] == 'u' { SameHex(c as int, d as int); } else { SameShortEscape(c, d); }
    } else {
      SameStart(s, t, x, y);
    }
  }

  lemma Regroup(s: string, t: string, rest: string)
    ensures (s + t) + rest == s + (t + rest)
    ensures s != "" ==> (s + t + rest)[0] == s[0]
  {
  }

  /** A text continues with an escape, or ends with the quote. */
  lemma TextShape(s: string, rest: string)
    requires rest != "" && rest[0] == '\"'
    ensures s != "" ==> EscapedText(s) + rest == Escaped(s[0]) + (EscapedText(s[1..]) + rest)
    ensures s == "" <==> (EscapedText(s) + rest)[0] == '\"'
  {
    hide Escaped;
    if s != "" {
      EscapeStarts(s[0]);
      Regroup(Escaped(s[0]), EscapedText(s[1..]), rest);
    }
  }

  lemma {:induction false} SameText(s: string, t: string, x: string, y: string)
    requires x != "" && x[0] == '\"' && y != "" && y[0] == '\"'
    requires EscapedText(s) + x == EscapedText(t) + y
    ensures s == t && x == y
  {
    hide Escaped;
    TextShape(s, x);
    TextShape(t, y);
    if s != "" {
      SameEscape(s[0], t[0], EscapedText(s[1..]) + x, EscapedText(t[1..]) + y);
      SameText(s[1..], t[1..], x, y);
      assert s == [s[0]] + s[1..] && t == [t[0]] + t[1..];
    } else {
      assert EscapedText(s) + x == x && EscapedText(t) + y == y;
    }
  }

  /** The first character tells what kind of value follows. */
  function Start(v: Value): char
    requires Scalar(v)
  {
    match v
    case Null => 'n'
    case Flag(b) => if b then 't' else 'f'
    case Num(_) => '0'
    case Text(_) => '\"'
  }

  lemma JsonStarts(v: Value)
    requires Scalar(v)
    ensures Json(v) != ""
    ensures if v.Num? then IsDigit(Json(v)[0]) || Json(v)[0] == '-' else Json(v)[0] == Start(v)
  {
    if v.Num? { DecimalShape(v.num); }
  }

  /** What follows a part of an identity. */
  predicate Follows(rest: string) {
    rest != "" && (rest[0] == ',' || rest[0] == ']')
  }

  lemma Unquoted(e: string, x: string)
    ensures ("\"" + e + "\"" + x)[1..] == e + ("\"" + x)
  {
  }

  /** Inside a string the closing quote is found. */
  lemma SameQuoted(s: string, t: string, x: string, y: string)
    requires Json(Text(s)) + x == Json(Text(t)) + y
    ensures s == t && x == y
  {
    hide EscapedText;
    Unquoted(EscapedText(s), x);
    Unquoted(EscapedText(t), y);
    SameText(s, t, "\"" + x, "\"" + y);
    assert ("\"" + x)[1..] == x && ("\"" + y)[1..] == y;
  }

  lemma SameJson(v: Value, w: Value, x: string, y: string)
    requires Scalar(v) && Scalar(w) && Follows(x) && Follows(y) && Json(v) + x == Json(w) + y
    ensures v == w && x == y
  {
    JsonStarts(v);
    JsonStarts(w);
    hide EscapedText;
    assert (Json(v) + x)[0] == Json(v)[0] && (Json(w) + y)[0] == Json(w)[0];
    match v
    case Num(a) => SameDecimal(a, w.num, x, y);
    case Text(s) => SameQuoted(s, w.text, x, y);
    case _ => SameStart(Json(v), Json(w), x, y);
  }

  predicate Scalars(vs: seq<Value>) {
    forall i :: 0 <= i < |vs| ==> Scalar(vs[i])
  }

  lemma {:induction false} SameParts(vs: seq<Value>, ws: seq<Value>)
    requires Scalars(vs) && Scalars(ws) && vs != [] && ws != []
    requires JsonParts(vs) + "]" == JsonParts(ws) + "]"
    ensures vs == ws
    decreases |vs|
  {
    hide Json;
    var x := if |vs| == 1 then "]" else "," + (JsonParts(vs[1..]) + "]");
    var y := if |ws| == 1 then "]" else "," + (JsonParts(ws[1..]) + "]");
    assert JsonParts(vs) + "]" == Json(vs[0]) + x;
    assert JsonParts(ws) + "]" == Json(ws[0]) + y;
    SameJson(vs[0], ws[0], x, y);
    assert x[0] == y[0];
    if |vs| != 1 {
      assert x[1..] == JsonParts(vs[1..]) + "]" && y[1..] == JsonParts(ws[1..]) + "]";
      SameParts(vs[1..], ws[1..]);
      assert vs == [vs[0]] + vs[1..] && ws == [ws[0]] + ws[1..];
    }
  }

  /** Two different composite identities are spelled differently. */
  lemma CompositesDiffer(vs: seq<Value>, ws: seq<Value>)
    requires Scalars(vs) && Scalars(ws) && |vs| > 1 && |ws| > 1
    ensures IdentityText(vs) == IdentityText(ws) ==> vs == ws
  {
    if IdentityText(vs) == IdentityText(ws) {
      var s, t := JsonParts(vs) + "]", JsonParts(ws) + "]";
      assert IdentityText(vs) == "[" + s && IdentityText(ws) == "[" + t;
      assert ("[" + s)[1..] == s && ("[" + t)[1..] == t;
      SameParts(vs, ws);
    }
  }

  /** A text alone is its own spelling, a number's is its decimal, and anything else is spelled as Python spells it. */
  lemma SingleSpelling(v: Value)
    ensures v.Text? ==> IdentityText([v]) == v.text
    ensures v.Num? ==> ParseDecimal(IdentityText([v])) == Some(v.num)
    ensures v.Null? ==> IdentityText([v]) == "None"
    ensures v.Flag? ==> IdentityText([v]) == if v.flag then "True" else "False"
  {
    if v.Num? { DecimalReadsBack(v.num); }
  }
}
