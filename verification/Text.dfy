/** Text conventions of the source: white space, decimal numerals, string order and UTF-8. */
module Text {
  import opened Common

  // ---------------------------------------------------------------------------------------------
  // White space
  // ---------------------------------------------------------------------------------------------

  /** The characters that `str::trim` removes. */
  predicate IsWhitespace(c: char) {
    var n := c as int;
    || 0x9 <= n <= 0xD || n == 0x20 || n == 0x85 || n == 0xA0 || n == 0x1680
    || 0x2000 <= n <= 0x200A || n == 0x2028 || n == 0x2029 || n == 0x202F || n == 0x205F || n == 0x3000
  }

  /** `s.trim().is_empty()`. */
  predicate Blank(s: string) {
    forall i :: 0 <= i < |s| ==> IsWhitespace(s[i])
  }

  function Trim(s: string): string {
    if s == [] then []
    else if IsWhitespace(s[0]) then Trim(s[1..])
    else if IsWhitespace(s[|s| - 1]) then Trim(s[..|s| - 1])
    else s
  }

  /** Text with a visible character at both ends is not changed by trimming. */
  lemma TrimNothing(s: string)
    requires s == [] || (!IsWhitespace(s[0]) && !IsWhitespace(s[|s| - 1]))
    ensures Trim(s) == s
  {
  }

  lemma {:induction false} TrimFront(pre: string, s: string)
    requires Blank(pre)
    ensures Trim(pre + s) == Trim(s)
  {
    if pre == [] {
      assert pre + s == s;
    } else {
      TrimFront(pre[1..], s);
      assert (pre + s)[0] == pre[0] && (pre + s)[1..] == pre[1..] + s;
    }
  }

  lemma {:induction false} TrimBack(s: string, post: string)
    requires Blank(post) && s != [] && !IsWhitespace(s[0])
    ensures Trim(s + post) == Trim(s)
  {
    if post == [] {
      assert s + post == s;
    } else {
      var n := |post| - 1;
      TrimBack(s, post[..n]);
      assert (s + post)[..|s + post| - 1] == s + post[..n] && (s + post)[|s + post| - 1] == post[n];
    }
  }

  lemma Regroup(a: string, b: string, c: string)
    ensures a + b + c == a + (b + c)
  {
  }

  /** White space around text that begins and ends visibly is removed. */
  lemma TrimAround(pre: string, s: string, post: string)
    requires Blank(pre) && Blank(post) && s != [] && !IsWhitespace(s[0]) && !IsWhitespace(s[|s| - 1])
    ensures Trim(pre + s + post) == s
  {
    calc {
      Trim(pre + s + post);
      { Regroup(pre, s, post); }
      Trim(pre + (s + post));
      { TrimFront(pre, s + post); }
      Trim(s + post);
      { TrimBack(s, post); }
      Trim(s);
      { TrimNothing(s); }
      s;
    }
  }

  // ---------------------------------------------------------------------------------------------
  // Decimal numerals
  // ---------------------------------------------------------------------------------------------

  const U64_MAX := 0xFFFF_FFFF_FFFF_FFFF

  predicate IsDigit(c: char) {
    '0' <= c <= '9'
  }

  function Digit(n: nat): char
    requires n < 10
  {
    "0123456789"[n]
  }

  function DigitValue(c: char): nat
    requires IsDigit(c)
  {
    c as int - '0' as int
  }

  function Decimal(n: nat): string {
    if n < 10 then [Digit(n)] else Decimal(n / 10) + [Digit(n % 10)]
  }

  predicate AllDigits(s: string) {
    forall i :: 0 <= i < |s| ==> IsDigit(s[i])
  }

  function Value(s: string): nat
    requires AllDigits(s)
  {
    if s == [] then 0
    else 10 * Value(s[..|s| - 1]) + DigitValue(s[|s| - 1])
  }

  /** `str::parse::<u64>()`: digits after an optional plus sign, at least one, in range. */
  function ParseU64(s: string): Option<nat> {
    var digits := if s != [] && s[0] == '+' then s[1..] else s;
    if digits == [] || !AllDigits(digits) || Value(digits) > U64_MAX then None
    else Some(Value(digits))
  }

  /** A numeral of `n`: at least one digit, leading zeros and one plus sign allowed. */
  predicate IsNumeral(s: string, n: nat) {
    || (s != [] && AllDigits(s) && Value(s) == n)
    || (|s| > 1 && s[0] == '+' && AllDigits(s[1..]) && Value(s[1..]) == n)
  }

  /** What parses as a u64: both directions. */
  lemma ParseU64Exactly(s: string, n: nat)
    ensures ParseU64(s) == Some(n) <==> n <= U64_MAX && IsNumeral(s, n)
  {
    if s != [] && s[0] == '+' {
      assert !AllDigits(s) by {
        assert !IsDigit(s[0]);
      }
    }
  }

  lemma {:induction false} DecimalFacts(n: nat)
    ensures Decimal(n) != [] && AllDigits(Decimal(n)) && Value(Decimal(n)) == n
  {
    if n >= 10 {
      DecimalFacts(n / 10);
      assert Decimal(n)[..|Decimal(n)| - 1] == Decimal(n / 10);
      assert DigitValue(Digit(n % 10)) == n % 10;
    } else {
      assert Decimal(n)[..0] == [];
      assert DigitValue(Digit(n)) == n;
    }
  }

  /** A printed numeral has no leading zero. */
  lemma {:induction false} DecimalIsCanonical(n: nat)
    ensures Decimal(n) != [] && (Decimal(n)[0] == '0' <==> n == 0) && (n == 0 ==> Decimal(n) == "0")
  {
    if n >= 10 {
      DecimalIsCanonical(n / 10);
    }
  }

  lemma ParseDecimal(n: nat)
    ensures ParseU64(Decimal(n)) == if n <= U64_MAX then Some(n) else None
  {
    DecimalFacts(n);
    assert IsDigit(Decimal(n)[0]);
  }

  // ---------------------------------------------------------------------------------------------
  // String order
  // ---------------------------------------------------------------------------------------------

  /** The order in which worker ids are sorted. */
  predicate Leq(a: string, b: string) {
    a == [] || (b != [] && (a[0] < b[0] || (a[0] == b[0] && Leq(a[1..], b[1..]))))
  }

  lemma {:induction false} LeqTotal(a: string, b: string)
    ensures Leq(a, b) || Leq(b, a)
  {
    if a != [] && b != [] {
      LeqTotal(a[1..], b[1..]);
    }
  }

  lemma {:induction false} LeqAntisymmetric(a: string, b: string)
    requires Leq(a, b) && Leq(b, a)
    ensures a == b
  {
    if a != [] {
      LeqAntisymmetric(a[1..], b[1..]);
      assert a == [a[0]] + a[1..] && b == [b[0]] + b[1..];
    }
  }

  lemma {:induction false} LeqTransitive(a: string, b: string, c: string)
    requires Leq(a, b) && Leq(b, c)
    ensures Leq(a, c)
  {
    if a != [] && a[0] == b[0] == c[0] {
      LeqTransitive(a[1..], b[1..], c[1..]);
    }
  }

  predicate StrictlySorted(s: seq<string>) {
    forall i, j :: 0 <= i < j < |s| ==> s[i] != s[j] && Leq(s[i], s[j])
  }

  /** A sorted list without repeats is determined by its elements. */
  lemma {:induction false} SortedIsUnique(s: seq<string>, t: seq<string>)
    requires StrictlySorted(s) && StrictlySorted(t) && Elements(s) == Elements(t)
    ensures s == t
  {
    NoElements(s);
    NoElements(t);
    if s != [] {
      SameHead(s, t);
      assert Elements(s[1..]) == Elements(s) - {s[0]};
      assert Elements(t[1..]) == Elements(t) - {t[0]};
      SortedIsUnique(s[1..], t[1..]);
      assert s == [s[0]] + s[1..] && t == [t[0]] + t[1..];
    }
  }

  lemma NoElements<T>(s: seq<T>)
    ensures s == [] <==> Elements(s) == {}
  {
    if s != [] {
      assert s[0] in Elements(s);
    }
  }

  lemma SameHead(s: seq<string>, t: seq<string>)
    requires s != [] && t != [] && StrictlySorted(s) && StrictlySorted(t) && Elements(s) == Elements(t)
    ensures s[0] == t[0]
  {
    assert s[0] in Elements(t) && t[0] in Elements(s);
    var i :| 0 <= i < |t| && t[i] == s[0];
    var j :| 0 <= j < |s| && s[j] == t[0];
    if i > 0 && j > 0 {
      LeqAntisymmetric(s[0], t[0]);
    }
  }

  function Insert(x: string, s: seq<string>): seq<string> {
    if s == [] then [x]
    else if x == s[0] then s
    else if Leq(x, s[0]) then [x] + s
    else [s[0]] + Insert(x, s[1..])
  }

  lemma InsertFirst(x: string, s: seq<string>)
    requires s != [] && StrictlySorted(s) && Leq(x, s[0]) && x != s[0]
    ensures StrictlySorted([x] + s) && Elements([x] + s) == Elements(s) + {x}
  {
    forall j | 0 <= j < |s| ensures Leq(x, s[j]) && x != s[j] {
      if j > 0 {
        LeqTransitive(x, s[0], s[j]);
        if x == s[j] {
          LeqAntisymmetric(x, s[0]);
        }
      }
    }
  }

  lemma ElementsCons<T>(h: T, s: seq<T>)
    ensures Elements([h] + s) == {h} + Elements(s)
  {
    forall x ensures x in Elements([h] + s) <==> x in {h} + Elements(s) {
      assert x in [h] + s <==> x == h || x in s;
    }
  }

  lemma SortedCons(h: string, s: seq<string>)
    requires StrictlySorted(s) && forall x :: x in s ==> Leq(h, x) && h != x
    ensures StrictlySorted([h] + s)
  {
    forall i, j | 0 <= i < j < |[h] + s|
      ensures ([h] + s)[i] != ([h] + s)[j] && Leq(([h] + s)[i], ([h] + s)[j])
    {
      assert s[j - 1] in s;
    }
  }

  lemma KeepFirst(h: string, x: string, s: seq<string>, t: seq<string>)
    requires StrictlySorted([h] + s) && StrictlySorted(t) && Elements(t) == Elements(s) + {x}
    requires Leq(h, x) && h != x
    ensures StrictlySorted([h] + t) && Elements([h] + t) == Elements([h] + s) + {x}
  {
    forall y | y in t ensures Leq(h, y) && h != y {
      assert y in Elements(t);
      if y != x {
        var k :| 0 <= k < |s| && s[k] == y;
        assert ([h] + s)[0] == h && ([h] + s)[k + 1] == y;
      }
    }
    SortedCons(h, t);
    ElementsCons(h, s);
    ElementsCons(h, t);
  }

  lemma {:induction false} InsertSorted(x: string, s: seq<string>)
    requires StrictlySorted(s)
    ensures StrictlySorted(Insert(x, s)) && Elements(Insert(x, s)) == Elements(s) + {x}
  {
    if s == [] || x == s[0] {
    } else if Leq(x, s[0]) {
      InsertFirst(x, s);
    } else {
      InsertSorted(x, s[1..]);
      LeqTotal(x, s[0]);
      assert s == [s[0]] + s[1..];
      KeepFirst(s[0], x, s[1..], Insert(x, s[1..]));
    }
  }

  /** The sorted list of a set of ids. */
  ghost function Sorted(ids: set<string>): (s: seq<string>)
    ensures StrictlySorted(s) && Elements(s) == ids
  {
    if ids == {} then []
    else
      var x :| x in ids;
      InsertSorted(x, Sorted(ids - {x}));
      Insert(x, Sorted(ids - {x}))
  }

  // ---------------------------------------------------------------------------------------------
  // UTF-8 (RFC 3629, section 3)
  // ---------------------------------------------------------------------------------------------

  type Byte = n: nat | n < 256

  function EncodeChar(c: char): seq<Byte> {
    var n := c as int;
    if n < 0x80 then [n]
    else if n < 0x800 then [0xC0 + n / 0x40, 0x80 + n % 0x40]
    else if n < 0x10000 then [0xE0 + n / 0x1000, 0x80 + n / 0x40 % 0x40, 0x80 + n % 0x40]
    else [0xF0 + n / 0x40000, 0x80 + n / 0x1000 % 0x40, 0x80 + n / 0x40 % 0x40, 0x80 + n % 0x40]
  }

  function Encode(s: string): seq<Byte> {
    if s == [] then [] else EncodeChar(s[0]) + Encode(s[1..])
  }

  /** `str::len()`. */
  function ByteLen(s: string): nat {
    |Encode(s)|
  }

  lemma {:induction false} EncodeConcat(s: string, t: string)
    ensures Encode(s + t) == Encode(s) + Encode(t)
  {
    if s == [] {
      assert s + t == t;
    } else {
      EncodeConcat(s[1..], t);
      assert (s + t)[0] == s[0] && (s + t)[1..] == s[1..] + t;
      var h, u, v := EncodeChar(s[0]), Encode(s[1..]), Encode(t);
      assert h + (u + v) == (h + u) + v;
    }
  }

  /** The first byte tells how many bytes follow. */
  lemma LeadByte(c: char)
    ensures var x := EncodeChar(c);
      |x| == if x[0] < 0x80 then 1 else if x[0] < 0xE0 then 2 else if x[0] < 0xF0 then 3 else 4
  {
  }

  /** The scalar value that a character's bytes stand for. */
  function Scalar(x: seq<int>): int
    requires 1 <= |x| <= 4
  {
    if |x| == 1 then x[0]
    else if |x| == 2 then (x[0] - 0xC0) * 0x40 + (x[1] - 0x80)
    else if |x| == 3 then (x[0] - 0xE0) * 0x1000 + (x[1] - 0x80) * 0x40 + (x[2] - 0x80)
    else (x[0] - 0xF0) * 0x40000 + (x[1] - 0x80) * 0x1000 + (x[2] - 0x80) * 0x40 + (x[3] - 0x80)
  }

  lemma ScalarOfCode(c: char)
    ensures Scalar(EncodeChar(c)) == c as int
  {
    var n := c as int;
    assert n / 0x1000 == n / 0x40 / 0x40;
    assert n / 0x40000 == n / 0x40 / 0x40 / 0x40;
  }

  /** No character's encoding is a proper prefix of another's. */
  lemma CharCodesArePrefixFree(c: char, d: char, rest: seq<Byte>)
    requires IsPrefix(EncodeChar(c), EncodeChar(d) + rest)
    ensures c == d
  {
    var x, y := EncodeChar(c), EncodeChar(d);
    LeadByte(c);
    LeadByte(d);
    assert x[0] == (y + rest)[..|x|][0] == y[0];
    assert x == (y + rest)[..|y|] == y;
    ScalarOfCode(c);
    ScalarOfCode(d);
  }

  /** Byte prefixes of encoded text are the encodings of text prefixes. */
  lemma {:induction false} EncodePrefix(p: string, s: string)
    ensures IsPrefix(Encode(p), Encode(s)) <==> IsPrefix(p, s)
  {
    if IsPrefix(p, s) {
      assert s == p + s[|p|..];
      EncodeConcat(p, s[|p|..]);
    }
    if p != [] && IsPrefix(Encode(p), Encode(s)) {
      PrefixFromBytes(p, s);
    }
  }

  lemma {:induction false} PrefixFromBytes(p: string, s: string)
    requires IsPrefix(Encode(p), Encode(s))
    ensures IsPrefix(p, s)
  {
    if p != [] {
      var c := EncodeChar(p[0]);
      assert Encode(p)[..|c|] == c;
      if s != [] {
        assert IsPrefix(c, EncodeChar(s[0]) + Encode(s[1..])) by {
          assert Encode(s)[..|c|] == Encode(s)[..|Encode(p)|][..|c|];
        }
        CharCodesArePrefixFree(p[0], s[0], Encode(s[1..]));
        var k := |Encode(p[1..])|;
        assert Encode(s[1..])[..k] == Encode(s)[..|Encode(p)|][|c|..];
        assert Encode(p[1..]) == Encode(p)[|c|..];
        PrefixFromBytes(p[1..], s[1..]);
        assert p == [p[0]] + p[1..] && s == [s[0]] + s[1..];
        assert s[..|p|] == [s[0]] + s[1..][..|p| - 1];
      }
    }
  }
}
