/** Decimal numbers, byte-wise string order and hexadecimal digests. */
module Text {
  import opened Prelude

  // ---- decimal ----

  predicate IsDigit(c: char) { '0' <= c <= '9' }

  function DigitOf(n: nat): (c: char)
    requires n < 10
    ensures IsDigit(c) && c as int - '0' as int == n
  {
    ((n + '0' as int) as char)
  }

  /** `%d` of a non-negative integer. */
  function PrintNat(n: nat): (s: string)
    ensures s != [] && forall c | c in s :: IsDigit(c)
    ensures s[0] == '0' ==> n == 0 && s == "0"
  {
    if n < 10 then [DigitOf(n)] else PrintNat(n / 10) + [DigitOf(n % 10)]
  }

  function PrintInt(n: int): string {
    if n < 0 then "-" + PrintNat(-n) else PrintNat(n)
  }

  predicate AllDigits(s: string) { forall c | c in s :: IsDigit(c) }

  function DigitsValue(s: string): nat
    requires AllDigits(s)
  {
    if s == [] then 0 else
      assert IsDigit(s[|s| - 1]);
      10 * DigitsValue(s[..|s| - 1]) + (s[|s| - 1] as int - '0' as int)
  }

  function ParseNat(s: string): Option<nat> {
    if s != [] && AllDigits(s) then Some(DigitsValue(s)) else None
  }

  lemma {:induction false} PrintedDigitsValue(n: nat)
    ensures DigitsValue(PrintNat(n)) == n
  {
    var s := PrintNat(n);
    if n < 10 {
      assert s[..|s| - 1] == [];
    } else {
      PrintedDigitsValue(n / 10);
      assert s[..|s| - 1] == PrintNat(n / 10);
    }
  }

  lemma ParseInvertsPrint(n: nat)
    ensures ParseNat(PrintNat(n)) == Some(n)
  {
    PrintedDigitsValue(n);
  }

  predicate Zeros(s: string) { forall c | c in s :: c == '0' }

  /** `s` writes `n` in decimal, perhaps with zeros in front. */
  ghost predicate Numeral(s: string, n: nat) {
    exists z :: Zeros(z) && s == z + PrintNat(n)
  }

  lemma {:induction false} ZerosAddNothing(z: string, s: string)
    requires Zeros(z) && AllDigits(s)
    ensures AllDigits(z + s) && DigitsValue(z + s) == DigitsValue(s)
    decreases |z| + |s|
  {
    if s != [] {
      ZerosAddNothing(z, s[..|s| - 1]);
      assert (z + s)[..|z + s| - 1] == z + s[..|s| - 1];
    } else if z != [] {
      var y := z[..|z| - 1];
      forall c | c in y ensures c == '0' { assert c in z; }
      ZerosAddNothing(y, []);
      assert y + [] == y && z + s == z && (z + s)[..|z + s| - 1] == y;
      assert z[|z| - 1] in z;
    }
  }

  lemma OneDigit(c: char)
    requires IsDigit(c)
    ensures Numeral([c], c as int - '0' as int)
  {
    var n := c as int - '0' as int;
    assert DigitOf(n) == c;
    assert Zeros("") && [c] == "" + PrintNat(n);
  }

  lemma OneDigitMore(s: string, n: nat, c: char)
    requires Numeral(s, n) && IsDigit(c)
    ensures Numeral(s + [c], 10 * n + (c as int - '0' as int))
  {
    var d := c as int - '0' as int;
    assert DigitOf(d) == c;
    var z :| Zeros(z) && s == z + PrintNat(n);
    if n == 0 {
      assert Zeros(z + "0") && s + [c] == (z + "0") + PrintNat(d);
    } else {
      var m := 10 * n + d;
      assert m / 10 == n && m % 10 == d;
      assert PrintNat(m) == PrintNat(n) + [c];
      assert s + [c] == z + PrintNat(m);
    }
  }

  lemma {:induction false} DigitsAreNumeral(s: string)
    requires s != [] && AllDigits(s)
    ensures Numeral(s, DigitsValue(s))
  {
    hide Numeral;
    var front, c := s[..|s| - 1], s[|s| - 1];
    assert c in s;
    if front == [] {
      OneDigit(c);
      assert s == [c];
    } else {
      DigitsAreNumeral(front);
      OneDigitMore(front, DigitsValue(front), c);
      assert s == front + [c];
    }
  }

  lemma ParseNatIff(s: string, n: nat)
    ensures ParseNat(s) == Some(n) <==> Numeral(s, n)
  {
    if s != [] && AllDigits(s) {
      DigitsAreNumeral(s);
    }
    if Numeral(s, n) {
      var z :| Zeros(z) && s == z + PrintNat(n);
      ZerosAddNothing(z, PrintNat(n));
      PrintedDigitsValue(n);
    }
  }

  const MAX_INT64 := 0x7fff_ffff_ffff_ffff

  /** strconv.Atoi on a 64-bit platform: optional sign, digits, no overflow. */
  function Atoi(s: string): Option<int> {
    var signed := s != [] && (s[0] == '+' || s[0] == '-');
    var digits := if signed then s[1..] else s;
    match ParseNat(digits)
    case None => None
    case Some(n) =>
      var magnitude: int := n;
      var value := if signed && s[0] == '-' then -magnitude else magnitude;
      if -MAX_INT64 - 1 <= value <= MAX_INT64 then Some(value) else None
  }

  /** `s` writes `v` as a signed decimal of 64 bits. */
  ghost predicate Writes(s: string, v: int) {
    && -9_223_372_036_854_775_808 <= v <= 9_223_372_036_854_775_807
    && (|| (v >= 0 && Numeral(s, v))
        || (v >= 0 && s != [] && s[0] == '+' && Numeral(s[1..], v))
        || (v <= 0 && s != [] && s[0] == '-' && Numeral(s[1..], -v)))
  }

  lemma NumeralHasNoSign(s: string, n: nat)
    requires Numeral(s, n)
    ensures s != [] && s[0] != '+' && s[0] != '-'
  {
    var z :| Zeros(z) && s == z + PrintNat(n);
    assert s[0] in z || s[0] in PrintNat(n);
  }

  /** Exactly the signed decimals of 64 bits are read, each as what it writes. */
  lemma AtoiIff(s: string, v: int)
    ensures Atoi(s) == Some(v) <==> Writes(s, v)
  {
    hide Numeral, PrintNat, ParseNat;
    if s != [] && (s[0] == '+' || s[0] == '-') {
      if v >= 0 {
        ParseNatIff(s[1..], v);
        if Numeral(s, v) { NumeralHasNoSign(s, v); }
      }
      if v <= 0 { ParseNatIff(s[1..], -v); }
    } else if v >= 0 {
      ParseNatIff(s, v);
    }
  }

  /** In particular the plain forms: bare, with a plus, with a minus. */
  lemma AtoiReads(s: string, n: nat)
    requires Numeral(s, n)
    ensures n <= 9_223_372_036_854_775_807 ==> Atoi(s) == Some(n) && Atoi(['+'] + s) == Some(n)
    ensures n <= 9_223_372_036_854_775_808 ==> Atoi(['-'] + s) == Some(-(n as int))
  {
    hide Atoi, Numeral;
    assert (['+'] + s)[1..] == s && (['-'] + s)[1..] == s;
    AtoiIff(s, n);
    AtoiIff(['+'] + s, n);
    AtoiIff(['-'] + s, -(n as int));
  }

  lemma PrintedIsNumeral(n: nat)
    ensures Numeral(PrintNat(n), n)
  {
    assert Zeros("") && PrintNat(n) == "" + PrintNat(n);
  }

  lemma AtoiInvertsPrint(n: int)
    requires -9_223_372_036_854_775_808 <= n <= 9_223_372_036_854_775_807
    ensures Atoi(PrintInt(n)) == Some(n)
  {
    hide Atoi, Numeral;
    var magnitude := if n < 0 then -n else n;
    PrintedIsNumeral(magnitude);
    AtoiReads(PrintNat(magnitude), magnitude);
    assert "-" == ['-'];
  }

  // ---- order ----

  /** Go's `<` on strings: byte-wise lexicographic. */
  predicate Less(a: string, b: string) {
    b != [] && (a == [] || a[0] < b[0] || (a[0] == b[0] && Less(a[1..], b[1..])))
  }

  /** The strings agree up to `n`, and there `a` ends or has the smaller byte. */
  predicate LessAt(a: string, b: string, n: nat) {
    n <= |a| && n < |b| && a[..n] == b[..n] && (n == |a| || a[n] < b[n])
  }

  lemma {:induction false} LessIff(a: string, b: string)
    ensures Less(a, b) <==> exists n: nat :: LessAt(a, b, n)
  {
    if a == [] || b == [] || a[0] != b[0] {
      if b != [] && (a == [] || a[0] < b[0]) {
        assert LessAt(a, b, 0);
      }
      forall n: nat | 0 < n <= |a| && n < |b| ensures a[..n] != b[..n] {
        assert a[..n][0] == a[0] && b[..n][0] == b[0];
      }
    } else {
      LessIff(a[1..], b[1..]);
      if n: nat :| LessAt(a[1..], b[1..], n) {
        assert a[..n + 1] == [a[0]] + a[1..][..n] && b[..n + 1] == [b[0]] + b[1..][..n];
        assert LessAt(a, b, n + 1);
      }
      if n: nat :| LessAt(a, b, n) {
        assert n > 0;
        assert a[1..][..n - 1] == a[..n][1..] && b[1..][..n - 1] == b[..n][1..];
        assert LessAt(a[1..], b[1..], n - 1);
      }
    }
  }

  lemma {:induction false} LessIsTotal(a: string, b: string)
    ensures a == b || Less(a, b) || Less(b, a)
    ensures !(Less(a, b) && Less(b, a)) && !Less(a, a)
  {
    if a != [] {
      LessIsTotal(a[1..], a[1..]);
      if b != [] {
        LessIsTotal(a[1..], b[1..]);
        if a[0] == b[0] && a[1..] == b[1..] {
          assert a == [a[0]] + a[1..] && b == [b[0]] + b[1..];
        }
      }
    }
  }

  lemma {:induction false} LessIsTransitive(a: string, b: string, c: string)
    requires Less(a, b) && Less(b, c)
    ensures Less(a, c)
  {
    if a != [] && a[0] == b[0] && b[0] == c[0] {
      LessIsTransitive(a[1..], b[1..], c[1..]);
    }
  }

  ghost predicate Ascending(s: seq<string>) {
    forall i, j | 0 <= i < j < |s| :: Less(s[i], s[j])
  }

  ghost function Elements(s: seq<string>): set<string> {
    set x | x in s
  }

  /** A set has at most one ascending listing. */
  lemma {:induction false} AscendingIsUnique(s: seq<string>, t: seq<string>)
    requires Ascending(s) && Ascending(t) && Elements(s) == Elements(t)
    ensures s == t
    decreases |s|
  {
    assert s != [] ==> s[0] in Elements(s);
    assert t != [] ==> t[0] in Elements(t);
    if s != [] {
      FirstIsLeast(s, t);
      FirstIsLeast(t, s);
      LessIsTotal(s[0], t[0]);
      TailElements(s);
      TailElements(t);
      AscendingIsUnique(s[1..], t[1..]);
      assert s == [s[0]] + s[1..] && t == [t[0]] + t[1..];
    }
  }

  lemma FirstIsLeast(s: seq<string>, t: seq<string>)
    requires s != [] && t != [] && Ascending(s) && Elements(s) == Elements(t)
    ensures s[0] == t[0] || Less(s[0], t[0])
  {
    assert t[0] in Elements(s);
    var i :| 0 <= i < |s| && s[i] == t[0];
  }

  lemma TailElements(s: seq<string>)
    requires s != [] && Ascending(s)
    ensures Elements(s[1..]) == Elements(s) - {s[0]}
  {
    LessIsTotal(s[0], s[0]);
    forall x ensures x in Elements(s[1..]) <==> x in Elements(s) - {s[0]} {
      if x in s[1..] {
        var i :| 0 <= i < |s| - 1 && s[1..][i] == x;
        assert s[i + 1] == x && Less(s[0], x);
      }
    }
  }

  function Insert(x: string, s: seq<string>): seq<string> {
    if s == [] || Less(x, s[0]) then [x] + s else [s[0]] + Insert(x, s[1..])
  }

  lemma {:induction false} InsertAscends(x: string, s: seq<string>)
    requires Ascending(s) && x !in s
    ensures Ascending(Insert(x, s)) && Elements(Insert(x, s)) == Elements(s) + {x}
  {
    if s == [] {
    } else if Less(x, s[0]) {
      forall j | 0 < j < |s| { LessIsTransitive(x, s[0], s[j]); }
    } else {
      LessIsTotal(x, s[0]);
      InsertAscends(x, s[1..]);
      var r := Insert(x, s[1..]);
      forall y | y in r ensures Less(s[0], y) {
        assert y in Elements(r);
        if y != x {
          var i :| 0 <= i < |s| - 1 && s[1..][i] == y;
        }
      }
      assert s == [s[0]] + s[1..];
    }
  }

  /** The ascending listing of a finite set of keys. */
  ghost function Sorted(keys: set<string>): (s: seq<string>)
    ensures Ascending(s) && Elements(s) == keys
  {
    if keys == {} then [] else
      var x :| x in keys;
      var rest := Sorted(keys - {x});
      assert x !in rest by { assert x !in Elements(rest); }
      InsertAscends(x, rest);
      Insert(x, rest)
  }

  // ---- hexadecimal ----

  type Byte = n: nat | n < 256

  function HexDigit(n: nat): (c: char)
    requires n < 16
  {
    "0123456789abcdef"[n]
  }

  /** `%x` of a byte string. */
  function Hex(bytes: seq<Byte>): (s: string)
    ensures |s| == 2 * |bytes|
  {
    if bytes == [] then "" else [HexDigit(bytes[0] / 16), HexDigit(bytes[0] % 16)] + Hex(bytes[1..])
  }

  lemma HexDigitInjective(a: nat, b: nat)
    requires a < 16 && b < 16 && HexDigit(a) == HexDigit(b)
    ensures a == b
  {
    var d := "0123456789abcdef";
    assert forall i, j | 0 <= i < j < 16 :: d[i] != d[j];
  }

  lemma {:induction false} HexInjective(a: seq<Byte>, b: seq<Byte>)
    requires Hex(a) == Hex(b)
    ensures a == b
  {
    if a != [] && b != [] {
      assert Hex(a)[0] == Hex(b)[0] && Hex(a)[1] == Hex(b)[1];
      HexDigitInjective(a[0] / 16, b[0] / 16);
      HexDigitInjective(a[0] % 16, b[0] % 16);
      assert Hex(a)[2..] == Hex(a[1..]) && Hex(b)[2..] == Hex(b[1..]);
      HexInjective(a[1..], b[1..]);
      assert a == [a[0]] + a[1..] && b == [b[0]] + b[1..];
    }
  }

  /** The value of a lower-case hexadecimal digit. */
  function HexValue(c: char): nat {
    if '0' <= c <= '9' then c as int - '0' as int
    else if 'a' <= c <= 'f' then c as int - 'a' as int + 10
    else 16
  }

  /** Each byte is written as two digits, the greater first. */
  lemma {:induction false} HexReadsBack(bytes: seq<Byte>, i: nat)
    requires i < |bytes|
    ensures HexValue(Hex(bytes)[2 * i]) < 16 && HexValue(Hex(bytes)[2 * i + 1]) < 16
    ensures 16 * HexValue(Hex(bytes)[2 * i]) + HexValue(Hex(bytes)[2 * i + 1]) == bytes[i]
  {
    if i == 0 {
      HexDigitHasValue(bytes[0] / 16);
      HexDigitHasValue(bytes[0] % 16);
    } else {
      HexReadsBack(bytes[1..], i - 1);
    }
  }

  lemma HexDigitHasValue(n: nat)
    requires n < 16
    ensures HexValue(HexDigit(n)) == n
  {
    var d := "0123456789abcdef";
    assert forall i | 0 <= i < 16 :: HexValue(d[i]) == i;
  }
}
