/** File names of published bundles, and why sorting them as text sorts them by sequence number. */
module BundleNames {

  /** The order in which Python sorts strings. */
  predicate Less(s: string, t: string) {
    t != [] && (s == [] || s[0] < t[0] || (s[0] == t[0] && Less(s[1..], t[1..])))
  }

  lemma {:induction false} LessOnce(s: string, t: string)
    ensures !Less(s, s)
    ensures Less(s, t) ==> !Less(t, s)
    ensures Less(s, t) || s == t || Less(t, s)
  {
    if s != [] && t != [] && s[0] == t[0] {
      LessOnce(s[1..], t[1..]);
      assert s == [s[0]] + s[1..] && t == [t[0]] + t[1..];
    }
    if s != [] { LessOnce(s[1..], s[1..]); }
  }

  lemma {:induction false} LessTransitive(s: string, t: string, u: string)
    requires Less(s, t) && Less(t, u)
    ensures Less(s, u)
  {
    if s != [] && s[0] == t[0] == u[0] { LessTransitive(s[1..], t[1..], u[1..]); }
  }

  /** Texts of one length compare before what follows them. */
  lemma {:induction false} LessThenAny(s: string, t: string, x: string, y: string)
    requires |s| == |t| && Less(s, t)
    ensures Less(s + x, t + y)
  {
    assert (s + x)[1..] == s[1..] + x && (t + y)[1..] == t[1..] + y;
    if s[0] == t[0] { LessThenAny(s[1..], t[1..], x, y); }
  }

  lemma {:induction false} SamePrefix(p: string, x: string, y: string)
    ensures Less(p + x, p + y) <==> Less(x, y)
  {
    if p == [] {
      assert p + x == x && p + y == y;
    } else {
      SamePrefix(p[1..], x, y);
      assert (p + x)[1..] == p[1..] + x && (p + y)[1..] == p[1..] + y;
    }
  }

  // ----- Numbers as text -----

  function Power(base: nat, e: nat): nat {
    if e == 0 then 1 else base * Power(base, e - 1)
  }

  function Digit(d: nat): char
    requires d < 16
  {
    "0123456789abcdef"[d]
  }

  /** The digits of a number, with leading zeros up to a width. */
  function Digits(n: nat, base: nat, width: nat): string
    requires 2 <= base <= 16
    decreases n, width
  {
    if n == 0 && width == 0 then ""
    else Digits(n / base, base, if width == 0 then 0 else width - 1) + [Digit(n % base)]
  }

  lemma DivideBelow(n: nat, base: nat, p: nat)
    requires 2 <= base && n < base * p
    ensures n / base < p
  {
    if p <= n / base {
      assert base * p <= base * (n / base) by { MultiplyBelow(base, p, n / base); }
    }
  }

  lemma MultiplyBelow(a: nat, b: nat, c: nat)
    requires b <= c
    ensures a * b <= a * c
  {
  }

  lemma {:induction false} FixedWidth(n: nat, base: nat, width: nat)
    requires 2 <= base <= 16 && n < Power(base, width)
    ensures |Digits(n, base, width)| == width
    decreases width
  {
    if width != 0 {
      DivideBelow(n, base, Power(base, width - 1));
      FixedWidth(n / base, base, width - 1);
    }
  }

  lemma DivisionOrder(a: nat, b: nat, base: nat)
    requires 2 <= base && a < b
    ensures a / base < b / base || (a / base == b / base && a % base < b % base)
  {
    assert a == base * (a / base) + a % base && b == base * (b / base) + b % base;
    if b / base < a / base { MultiplyBelow(base, b / base + 1, a / base); }
  }

  /** Text that sorts by its first digits, or by its last one, sorts. */
  lemma AppendDigit(s: string, t: string, c: char, d: char)
    requires |s| == |t|
    requires Less(s, t) || (s == t && c < d)
    ensures Less(s + [c], t + [d])
  {
    if Less(s, t) {
      LessThenAny(s, t, [c], [d]);
    } else {
      SamePrefix(s, [c], [d]);
    }
  }

  lemma DigitOrder(c: nat, d: nat)
    requires c < d < 16
    ensures Digit(c) < Digit(d)
  {
  }

  lemma SplitDigits(n: nat, base: nat, width: nat)
    requires 2 <= base <= 16 && width != 0 && n < Power(base, width)
    ensures n / base < Power(base, width - 1)
    ensures n % base < base
    ensures |Digits(n / base, base, width - 1)| == width - 1
    ensures Digits(n, base, width) == Digits(n / base, base, width - 1) + [Digit(n % base)]
  {
    DivideBelow(n, base, Power(base, width - 1));
    FixedWidth(n / base, base, width - 1);
  }

  /** Text sorts by the digits before the last, if those differ, and otherwise by the last. */
  lemma LastDigitSorts(x: nat, c: nat, y: nat, d: nat, base: nat, width: nat)
    requires 2 <= base <= 16 && c < base && d < base
    requires |Digits(x, base, width)| == |Digits(y, base, width)|
    requires Less(Digits(x, base, width), Digits(y, base, width)) || (x == y && c < d)
    ensures Less(Digits(x, base, width) + [Digit(c)], Digits(y, base, width) + [Digit(d)])
  {
    if c < d { DigitOrder(c, d); }
    AppendDigit(Digits(x, base, width), Digits(y, base, width), Digit(c), Digit(d));
  }

  /** A number of some digits is one of one digit less, and a last digit. */
  lemma CutDigit(n: nat, base: nat, width: nat) returns (x: nat, c: nat)
    requires 2 <= base <= 16 && width != 0 && n < Power(base, width)
    ensures x == n / base && c == n % base && c < base && x < Power(base, width - 1)
    ensures |Digits(x, base, width - 1)| == width - 1
    ensures Digits(n, base, width) == Digits(x, base, width - 1) + [Digit(c)]
  {
    SplitDigits(n, base, width);
    x, c := n / base, n % base;
  }

  lemma CutOrder(a: nat, b: nat, base: nat, x: nat, c: nat, y: nat, d: nat)
    requires 2 <= base && a < b && x == a / base && c == a % base && y == b / base && d == b % base
    ensures x < y || (x == y && c < d)
  {
    DivisionOrder(a, b, base);
  }

  /** Numbers that fit the width sort as text. */
  lemma {:induction false} DigitsSort(a: nat, b: nat, base: nat, width: nat)
    requires 2 <= base <= 16 && a < b < Power(base, width)
    ensures Less(Digits(a, base, width), Digits(b, base, width))
    decreases width
  {
    if width != 0 {
      var x, c := CutDigit(a, base, width);
      var y, d := CutDigit(b, base, width);
      CutOrder(a, b, base, x, c, y, d);
      if x < y { DigitsSort(x, y, base, width - 1); }
      LastDigitSorts(x, c, y, d, base, width - 1);
    }
  }

  lemma {:induction false} FirstDigits(width: nat)
    requires 1 <= width
    ensures 1 <= Power(10, width)
    ensures var s, t := Digits(Power(10, width) - 1, 10, width), Digits(Power(10, width), 10, width);
      s != [] && t != [] && s[0] == '9' && t[0] == '1'
  {
    if width == 1 {
      assert Power(10, 1) == 10 * Power(10, 0);
      assert Digits(9, 10, 1) == Digits(0, 10, 0) + [Digit(9)];
      assert Digits(10, 10, 1) == Digits(1, 10, 0) + [Digit(0)];
      assert Digits(1, 10, 0) == Digits(0, 10, 0) + [Digit(1)];
    } else {
      FirstDigits(width - 1);
      var p := Power(10, width - 1);
      assert Power(10, width) == 10 * p;
      assert (10 * p - 1) / 10 == p - 1 && (10 * p) / 10 == p;
    }
  }

  // ----- Bundle names -----

  const SEQUENCE_WIDTH: nat := 20
  const DIGEST_WIDTH: nat := 64

  /** The first sequence number that does not fit its width. */
  function Limit(): nat { Power(10, SEQUENCE_WIDTH) }

  predicate IsDigest(d: nat) { d < Power(16, DIGEST_WIDTH) }

  function Padded(n: nat, width: nat, rest: string): string {
    "bundles/" + (Digits(n, 10, width) + rest)
  }

  function Tail(digest: nat): string {
    "-" + (Digits(digest, 16, DIGEST_WIDTH) + ".json")
  }

  function FileName(sequence: nat, digest: nat): string {
    Padded(sequence, SEQUENCE_WIDTH, Tail(digest))
  }

  /** Names of sequences that fit sort by sequence first and digest second. */
  lemma NamesSort(a: nat, d: nat, b: nat, e: nat)
    requires a < Limit() && b < Limit() && IsDigest(d) && IsDigest(e)
    ensures Less(FileName(a, d), FileName(b, e)) <==> a < b || (a == b && d < e)
    ensures FileName(a, d) == FileName(b, e) <==> a == b && d == e
  {
    NamesAscend(a, d, b, e);
    NamesAscend(b, e, a, d);
    LessOnce(FileName(a, d), FileName(b, e));
  }

  lemma NamesAscend(a: nat, d: nat, b: nat, e: nat)
    requires a < Limit() && b < Limit() && IsDigest(d) && IsDigest(e)
    ensures a < b || (a == b && d < e) ==> Less(FileName(a, d), FileName(b, e))
  {
    var x, y := Digits(a, 10, SEQUENCE_WIDTH), Digits(b, 10, SEQUENCE_WIDTH);
    var v, w := Digits(d, 16, DIGEST_WIDTH), Digits(e, 16, DIGEST_WIDTH);
    SamePrefix("bundles/", x + ("-" + (v + ".json")), y + ("-" + (w + ".json")));
    FixedWidth(a, 10, SEQUENCE_WIDTH);
    FixedWidth(b, 10, SEQUENCE_WIDTH);
    FixedWidth(d, 16, DIGEST_WIDTH);
    FixedWidth(e, 16, DIGEST_WIDTH);
    if a < b {
      DigitsSort(a, b, 10, SEQUENCE_WIDTH);
      LessThenAny(x, y, "-" + (v + ".json"), "-" + (w + ".json"));
    } else if a == b && d < e {
      DigitsSort(d, e, 16, DIGEST_WIDTH);
      LessThenAny(v, w, ".json", ".json");
      SamePrefix("-", v + ".json", w + ".json");
      SamePrefix(x, "-" + (v + ".json"), "-" + (w + ".json"));
    }
  }

  /** Names sort by number below a bound. */
  ghost predicate SortedBelow(n: nat) {
    forall a: nat, d: nat, b: nat, e: nat :: a < b < n && IsDigest(d) && IsDigest(e) ==>
      Less(FileName(a, d), FileName(b, e))
  }

  /** Names sort by number exactly as long as the sequence fits twenty digits. */
  lemma NamesSortExactly(n: nat)
    ensures SortedBelow(n) <==> n <= Limit()
  {
    if n <= Limit() {
      forall a: nat, d: nat, b: nat, e: nat | a < b < n && IsDigest(d) && IsDigest(e)
        ensures Less(FileName(a, d), FileName(b, e))
      {
        NamesAscend(a, d, b, e);
      }
    } else {
      var limit, width := Limit(), SEQUENCE_WIDTH;
      OverflowSortsFirst(limit, width, 0, 0);
      LessOnce(FileName(limit - 1, 0), FileName(limit, 0));
      PowerPositive(16, DIGEST_WIDTH);
      assert limit - 1 < limit < n && IsDigest(0);
    }
  }

  lemma {:induction false} PowerPositive(base: nat, e: nat)
    requires 1 <= base
    ensures 1 <= Power(base, e)
  {
    if e != 0 { PowerPositive(base, e - 1); }
  }

  /** One more digit sorts before the largest number of a width. */
  lemma Overflow(width: nat, v: string, w: string)
    requires 1 <= width
    ensures 1 <= Power(10, width)
    ensures Less(Padded(Power(10, width), width, v), Padded(Power(10, width) - 1, width, w))
  {
    FirstDigits(width);
    var s, t := Digits(Power(10, width), 10, width), Digits(Power(10, width) - 1, 10, width);
    assert (s + v)[0] == '1' && (t + w)[0] == '9';
    SamePrefix("bundles/", s + v, t + w);
  }

  /** The first name with twenty-one digits sorts before the last one with twenty. */
  lemma OverflowSortsFirst(limit: nat, width: nat, d: nat, e: nat)
    requires width == SEQUENCE_WIDTH && limit == Power(10, width)
    ensures 1 <= limit && Less(FileName(limit, d), FileName(limit - 1, e))
  {
    Overflow(width, Tail(d), Tail(e));
  }
}
