/**
 The SCAN pattern of the worker registry (src/worker_registry.rs): escaping a key prefix into a Redis glob
 pattern. Patterns and keys are matched as bytes.
 */
module GlobPattern {
  import opened Common
  import opened Text

  // ---------------------------------------------------------------------------------------------
  // Escaping
  // ---------------------------------------------------------------------------------------------

  /** `str::replace` of one character. */
  function Replace(s: string, c: char, with: string): string {
    if s == [] then []
    else (if s[0] == c then with else [s[0]]) + Replace(s[1..], c, with)
  }

  /** The four replacements, in the order of the source. */
  function Escape(s: string): string {
    Replace(Replace(Replace(Replace(s, '\\', "\\\\"), '*', "\\*"), '?', "\\?"), '[', "\\[")
  }

  predicate Special(c: char) {
    c == '\\' || c == '*' || c == '?' || c == '['
  }

  function EscapeChar(c: char): string {
    if Special(c) then ['\\', c] else [c]
  }

  /** Escaping one character at a time. */
  function EscapeEach(s: string): string {
    if s == [] then [] else EscapeChar(s[0]) + EscapeEach(s[1..])
  }

  lemma {:induction false} ReplaceConcat(s: string, t: string, c: char, with: string)
    ensures Replace(s + t, c, with) == Replace(s, c, with) + Replace(t, c, with)
  {
    if s == [] {
      assert s + t == t;
    } else {
      ReplaceConcat(s[1..], t, c, with);
      assert (s + t)[0] == s[0] && (s + t)[1..] == s[1..] + t;
      var h, u, v := if s[0] == c then with else [s[0]], Replace(s[1..], c, with), Replace(t, c, with);
      assert h + (u + v) == (h + u) + v;
    }
  }

  lemma EscapeConcat(s: string, t: string)
    ensures Escape(s + t) == Escape(s) + Escape(t)
  {
    ReplaceConcat(s, t, '\\', "\\\\");
    var s1, t1 := Replace(s, '\\', "\\\\"), Replace(t, '\\', "\\\\");
    ReplaceConcat(s1, t1, '*', "\\*");
    var s2, t2 := Replace(s1, '*', "\\*"), Replace(t1, '*', "\\*");
    ReplaceConcat(s2, t2, '?', "\\?");
    ReplaceConcat(Replace(s2, '?', "\\?"), Replace(t2, '?', "\\?"), '[', "\\[");
  }

  lemma ReplaceOne(x: char, c: char, with: string)
    ensures Replace([x], c, with) == if x == c then with else [x]
  {
    assert [x][1..] == [];
    assert with + [] == with;
  }

  lemma ReplaceTwo(x: char, y: char, c: char, with: string)
    requires x != c
    ensures Replace([x, y], c, with) == [x] + (if y == c then with else [y])
  {
    assert [x, y] == [x] + [y];
    ReplaceConcat([x], [y], c, with);
    ReplaceOne(x, c, with);
    ReplaceOne(y, c, with);
  }

  lemma EscapeOne(c: char)
    ensures Escape([c]) == EscapeChar(c)
  {
    ReplaceOne(c, '\\', "\\\\");
    ReplaceOne(c, '*', "\\*");
    ReplaceOne(c, '?', "\\?");
    ReplaceOne(c, '[', "\\[");
    ReplaceTwo('\\', c, '*', "\\*");
    ReplaceTwo('\\', c, '?', "\\?");
    ReplaceTwo('\\', c, '[', "\\[");
  }

  /** The order of the replacements does no harm: they amount to escaping each character once. */
  lemma {:induction false} SequentialEscapeIsPerCharacter(s: string)
    ensures Escape(s) == EscapeEach(s)
  {
    if s != [] {
      assert s == [s[0]] + s[1..];
      EscapeConcat([s[0]], s[1..]);
      EscapeOne(s[0]);
      SequentialEscapeIsPerCharacter(s[1..]);
    }
  }

  // ---------------------------------------------------------------------------------------------
  // Redis glob matching
  // ---------------------------------------------------------------------------------------------

  const STAR: Byte := 0x2A
  const QUESTION: Byte := 0x3F
  const OPEN: Byte := 0x5B
  const CLOSE: Byte := 0x5D
  const CARET: Byte := 0x5E
  const DASH: Byte := 0x2D
  const BACKSLASH: Byte := 0x5C

  /** The body of a character class: whether it lists `b`, and the pattern after the closing bracket. */
  function ClassLists(p: seq<Byte>, b: Byte): (r: (bool, seq<Byte>))
    ensures |r.1| <= |p|
  {
    if p == [] then (false, [])
    else if p[0] == BACKSLASH && |p| >= 2 then
      var (found, rest) := ClassLists(p[2..], b);
      (found || p[1] == b, rest)
    else if p[0] == CLOSE then (false, p[1..])
    else if |p| >= 3 && p[1] == DASH then
      var (found, rest) := ClassLists(p[3..], b);
      (found || p[0] <= b <= p[2] || p[2] <= b <= p[0], rest)
    else
      var (found, rest) := ClassLists(p[1..], b);
      (found || p[0] == b, rest)
  }

  /** Whether pattern `p` matches the whole of `k`. */
  predicate Match(p: seq<Byte>, k: seq<Byte>)
    decreases |p| + |k|
  {
    if p == [] then k == []
    else if p[0] == STAR then Match(p[1..], k) || (k != [] && Match(p, k[1..]))
    else if k == [] then false
    else if p[0] == QUESTION then Match(p[1..], k[1..])
    else if p[0] == OPEN then
      var negated := |p| >= 2 && p[1] == CARET;
      var (found, rest) := ClassLists(if negated then p[2..] else p[1..], k[0]);
      found != negated && Match(rest, k[1..])
    else if p[0] == BACKSLASH && |p| >= 2 then p[1] == k[0] && Match(p[2..], k[1..])
    else p[0] == k[0] && Match(p[1..], k[1..])
  }

  lemma {:induction false} StarMatchesAll(k: seq<Byte>)
    ensures Match([STAR], k)
  {
    if k == [] {
      assert [STAR][1..] == [];
    } else {
      StarMatchesAll(k[1..]);
    }
  }

  predicate SpecialByte(b: Byte) {
    b == BACKSLASH || b == STAR || b == QUESTION || b == OPEN
  }

  function EscapeByte(b: Byte): seq<Byte> {
    if SpecialByte(b) then [BACKSLASH, b] else [b]
  }

  function EscapeBytes(s: seq<Byte>): seq<Byte> {
    if s == [] then [] else EscapeByte(s[0]) + EscapeBytes(s[1..])
  }

  /** One escaped byte matches that byte alone. */
  lemma EscapedByteMatches(b: Byte, p: seq<Byte>, k: seq<Byte>)
    ensures Match(EscapeByte(b) + p, k) <==> k != [] && k[0] == b && Match(p, k[1..])
  {
    var q := EscapeByte(b) + p;
    assert q[|EscapeByte(b)|..] == p;
  }

  lemma PrefixStep(s: seq<Byte>, k: seq<Byte>)
    requires s != [] && k != []
    ensures IsPrefix(s, k) <==> s[0] == k[0] && IsPrefix(s[1..], k[1..])
  {
    assert s == [s[0]] + s[1..] && k == [k[0]] + k[1..];
    assert |s| <= |k| ==> k[..|s|] == [k[0]] + k[1..][..|s| - 1];
  }

  /** An escaped literal matches itself and then leaves the rest of the key to the rest of the pattern. */
  lemma {:induction false} LiteralThen(s: seq<Byte>, p: seq<Byte>, k: seq<Byte>)
    ensures Match(EscapeBytes(s) + p, k) <==> IsPrefix(s, k) && Match(p, k[|s|..])
  {
    if s == [] {
      assert EscapeBytes(s) + p == p;
    } else {
      var tail := EscapeBytes(s[1..]) + p;
      assert EscapeBytes(s) + p == EscapeByte(s[0]) + tail;
      EscapedByteMatches(s[0], tail, k);
      if k != [] {
        PrefixStep(s, k);
        LiteralThen(s[1..], p, k[1..]);
      }
    }
  }

  lemma EscapedCharIsAscii(c: char)
    ensures Special(c) ==> EncodeChar(c) == [c as int] && SpecialByte(c as int)
    ensures !Special(c) ==> forall i :: 0 <= i < |EncodeChar(c)| ==> !SpecialByte(EncodeChar(c)[i])
  {
  }

  lemma {:induction false} EscapePlainBytes(x: seq<Byte>, s: seq<Byte>)
    requires forall i :: 0 <= i < |x| ==> !SpecialByte(x[i])
    ensures EscapeBytes(x + s) == x + EscapeBytes(s)
  {
    if x == [] {
      assert x + s == s;
    } else {
      EscapePlainBytes(x[1..], s);
      assert (x + s)[1..] == x[1..] + s;
      assert x == [x[0]] + x[1..];
    }
  }

  /** Escaping characters and then encoding is escaping the encoded bytes. */
  lemma {:induction false} EscapeCommutesWithEncoding(s: string)
    ensures Encode(EscapeEach(s)) == EscapeBytes(Encode(s))
  {
    if s != [] {
      var c := s[0];
      EscapeCommutesWithEncoding(s[1..]);
      EncodeConcat(EscapeChar(c), EscapeEach(s[1..]));
      EscapedCharIsAscii(c);
      if Special(c) {
        assert Encode(['\\', c]) == EncodeChar('\\') + Encode([c]);
        assert Encode([c]) == EncodeChar(c) + Encode([]);
        assert Encode(s) == [c as int] + Encode(s[1..]);
        assert Encode(s)[1..] == Encode(s[1..]);
      } else {
        assert [c][1..] == [];
        assert Encode([c]) == EncodeChar(c) + Encode([]);
        EscapePlainBytes(EncodeChar(c), Encode(s[1..]));
      }
    }
  }

  const MARK := ":worker:"

  function Pattern(prefix: string): string {
    Escape(prefix) + MARK + "*"
  }

  lemma {:induction false} PlainText(s: string)
    requires forall i :: 0 <= i < |s| ==> !Special(s[i])
    ensures EscapeEach(s) == s
  {
    if s != [] {
      PlainText(s[1..]);
      assert s == [s[0]] + s[1..];
    }
  }

  lemma {:induction false} EscapeEachConcat(s: string, t: string)
    ensures EscapeEach(s + t) == EscapeEach(s) + EscapeEach(t)
  {
    if s == [] {
      assert s + t == t;
    } else {
      EscapeEachConcat(s[1..], t);
      assert (s + t)[0] == s[0] && (s + t)[1..] == s[1..] + t;
      var h, u, v := EscapeChar(s[0]), EscapeEach(s[1..]), EscapeEach(t);
      assert h + (u + v) == (h + u) + v;
    }
  }

  lemma EncodeAscii(c: char)
    requires c as int < 0x80
    ensures Encode([c]) == [c as int]
  {
    assert [c][1..] == [];
    assert Encode([c]) == EncodeChar(c) + Encode([]);
  }

  lemma PatternBytes(prefix: string, mark: string)
    requires EscapeEach(mark) == mark
    ensures Encode(Escape(prefix) + mark + "*") == EscapeBytes(Encode(prefix + mark)) + [STAR]
  {
    SequentialEscapeIsPerCharacter(prefix);
    EscapeEachConcat(prefix, mark);
    EncodeConcat(EscapeEach(prefix + mark), "*");
    EscapeCommutesWithEncoding(prefix + mark);
    EncodeAscii('*');
  }

  lemma EscapedThenStar(literal: seq<Byte>, key: seq<Byte>)
    ensures Match(EscapeBytes(literal) + [STAR], key) <==> IsPrefix(literal, key)
  {
    LiteralThen(literal, [STAR], key);
    if IsPrefix(literal, key) {
      StarMatchesAll(key[|literal|..]);
    }
  }

  lemma PatternMatchesMarked(prefix: string, mark: string, key: seq<Byte>)
    requires EscapeEach(mark) == mark
    ensures Match(Encode(Escape(prefix) + mark + "*"), key) <==> IsPrefix(Encode(prefix + mark), key)
  {
    PatternBytes(prefix, mark);
    EscapedThenStar(Encode(prefix + mark), key);
  }

  /** The SCAN pattern matches exactly the keys that start with the literal prefix, as bytes. */
  lemma PatternMatchesPrefix(prefix: string, key: seq<Byte>)
    ensures Match(Encode(Pattern(prefix)), key) <==> IsPrefix(Encode(prefix + MARK), key)
  {
    PlainText(MARK);
    PatternMatchesMarked(prefix, MARK, key);
  }

  /** The same for keys that are text. */
  lemma PatternMatchesTextPrefix(prefix: string, key: string)
    ensures Match(Encode(Pattern(prefix)), Encode(key)) <==> IsPrefix(prefix + MARK, key)
  {
    PatternMatchesPrefix(prefix, Encode(key));
    EncodePrefix(prefix + MARK, key);
  }

  // ---------------------------------------------------------------------------------------------
  // When escaping is needed
  // ---------------------------------------------------------------------------------------------

  predicate IsSuffix(rest: seq<Byte>, p: seq<Byte>) {
    |rest| <= |p| && rest == p[|p| - |rest|..]
  }

  lemma LongerSuffix(rest: seq<Byte>, p: seq<Byte>, n: nat)
    requires n <= |p| && IsSuffix(rest, p[n..])
    ensures IsSuffix(rest, p)
  {
  }

  /** How much of the pattern the first entry of a character class takes. */
  function EntrySize(p: seq<Byte>): (n: nat)
    requires p != []
    ensures 1 <= n <= |p|
  {
    if p[0] == BACKSLASH && |p| >= 2 then 2
    else if p[0] != CLOSE && |p| >= 3 && p[1] == DASH then 3
    else 1
  }

  lemma ClassStep(p: seq<Byte>, b: Byte)
    requires p != []
    ensures ClassLists(p, b).1 == if p[0] == CLOSE then p[1..] else ClassLists(p[EntrySize(p)..], b).1
  {
  }

  /** What follows a character class is a proper rest of the pattern. */
  lemma {:induction false} ClassRest(p: seq<Byte>, b: Byte)
    requires p != []
    ensures |ClassLists(p, b).1| < |p| && IsSuffix(ClassLists(p, b).1, p)
  {
    ClassStep(p, b);
    var n := EntrySize(p);
    if p[0] != CLOSE {
      if p[n..] != [] {
        ClassRest(p[n..], b);
      }
      LongerSuffix(ClassLists(p, b).1, p, n);
    }
  }

  predicate EndsInStar(p: seq<Byte>) {
    p != [] && p[|p| - 1] == STAR
  }

  /** A byte that stands for fewer bytes of the key than it takes in the pattern. */
  predicate Shortens(b: Byte) {
    SpecialByte(b) && b != QUESTION
  }

  /** The pattern after its first item, which matches `k[0]`. */
  function AfterItem(p: seq<Byte>, k: seq<Byte>): seq<Byte>
    requires p != [] && p[0] != STAR && k != []
  {
    if p[0] == OPEN then ClassLists(if |p| >= 2 && p[1] == CARET then p[2..] else p[1..], k[0]).1
    else if p[0] == BACKSLASH && |p| >= 2 then p[2..]
    else p[1..]
  }

  lemma AfterItemIsRest(p: seq<Byte>, k: seq<Byte>)
    requires EndsInStar(p) && p[0] != STAR && k != []
    ensures var rest := AfterItem(p, k);
      && (rest == [] || EndsInStar(rest)) && |rest| < |p|
      && (Shortens(p[0]) && |p| >= 3 ==> |rest| <= |p| - 2)
      && (rest == [] ==> |p| >= 2)
  {
    var body := if |p| >= 2 && p[1] == CARET then p[2..] else p[1..];
    if p[0] == OPEN && body != [] {
      ClassRest(body, k[0]);
    }
  }

  lemma ItemMatches(p: seq<Byte>, k: seq<Byte>, tail: seq<Byte>)
    requires p != [] && p[0] != STAR && Match(p, k)
    ensures k != [] && Match(AfterItem(p, k), k[1..])
    ensures Match(AfterItem(p, k), tail) ==> Match(p, [k[0]] + tail)
  {
    assert ([k[0]] + tail)[1..] == tail;
  }

  /** A pattern that ends in a star and matches at all matches a key shorter than itself. */
  lemma {:induction false} ShortMatch(p: seq<Byte>, k: seq<Byte>) returns (b: seq<Byte>)
    requires EndsInStar(p) && Match(p, k)
    ensures Match(p, b) && |b| < |p|
    ensures Shortens(p[0]) && |p| >= 3 ==> |b| <= |p| - 2
    decreases |p| + |k|
  {
    if p[0] != STAR {
      ItemMatches(p, k, []);
      AfterItemIsRest(p, k);
      var rest := AfterItem(p, k);
      var tail := [];
      if rest != [] {
        tail := ShortMatch(rest, k[1..]);
      }
      ItemMatches(p, k, tail);
      b := [k[0]] + tail;
    } else if |p| == 1 {
      b := [];
    } else if Match(p[1..], k) {
      b := ShortMatch(p[1..], k);
    } else {
      b := ShortMatch(p, k[1..]);
    }
  }

  /** A special byte left unescaped makes the pattern wrong about some key. */
  lemma UnescapedIsWrong(s: seq<Byte>, i: nat, mark: seq<Byte>) returns (k: seq<Byte>)
    requires i < |s| && SpecialByte(s[i]) && mark != []
    requires forall j :: 0 <= j < i ==> !SpecialByte(s[j])
    ensures Match(s + mark + [STAR], k) <==> !IsPrefix(s + mark, k)
  {
    var u, q := s[..i], s[i..] + mark + [STAR];
    var literal := s + mark;
    assert s + mark + [STAR] == u + q && literal == u + literal[i..];
    k := literal;
    if Match(u + q, literal) {
      PlainThen(u, q, literal[i..]);
      var b := literal[i..];
      if s[i] == QUESTION {
        b := [0] + b[1..];
        assert b[1..] == literal[i..][1..];
        k := u + b;
        assert k[i] == 0 && literal[i] == QUESTION;
      } else {
        b := ShortMatch(q, b);
        k := u + b;
      }
      PlainThen(u, q, b);
    }
  }

  lemma PlainThen(u: seq<Byte>, q: seq<Byte>, b: seq<Byte>)
    requires forall j :: 0 <= j < |u| ==> !SpecialByte(u[j])
    ensures Match(u + q, u + b) <==> Match(q, b)
  {
    EscapePlainBytes(u, []);
    assert u + [] == u;
    LiteralThen(u, q, u + b);
    assert (u + b)[|u|..] == b && (u + b)[..|u|] == u;
  }

  /** The first special character of a text is the first special byte of its encoding. */
  lemma {:induction false} FirstSpecial(s: string, n: nat) returns (i: nat)
    requires n < |s| && Special(s[n])
    ensures i < |Encode(s)| && SpecialByte(Encode(s)[i])
    ensures forall j :: 0 <= j < i ==> !SpecialByte(Encode(s)[j])
  {
    EscapedCharIsAscii(s[0]);
    i := 0;
    if !Special(s[0]) {
      var k := FirstSpecial(s[1..], n - 1);
      i := |EncodeChar(s[0])| + k;
    }
  }

  lemma MarkedBytes(prefix: string, mark: string)
    ensures Encode(prefix + mark + "*") == Encode(prefix) + Encode(mark) + [STAR]
    ensures Encode(prefix + mark) == Encode(prefix) + Encode(mark)
  {
    EncodeConcat(prefix + mark, "*");
    EncodeConcat(prefix, mark);
    EncodeAscii('*');
  }

  lemma UnescapedIsWrongOnText(prefix: string, n: nat, mark: string) returns (key: seq<Byte>)
    requires n < |prefix| && Special(prefix[n]) && mark != []
    ensures Match(Encode(prefix + mark + "*"), key) <==> !IsPrefix(Encode(prefix + mark), key)
  {
    MarkedBytes(prefix, mark);
    var i := FirstSpecial(prefix, n);
    assert |EncodeChar(mark[0])| > 0;
    key := UnescapedIsWrong(Encode(prefix), i, Encode(mark));
  }

  /** The prefix could go into the pattern as it is exactly when it holds no special character. */
  lemma EscapingIsNeededExactlyWhen(prefix: string)
    ensures (forall key :: Match(Encode(prefix + MARK + "*"), key) <==> IsPrefix(Encode(prefix + MARK), key)) <==>
      (forall n :: 0 <= n < |prefix| ==> !Special(prefix[n]))
  {
    if n :| 0 <= n < |prefix| && Special(prefix[n]) {
      var key := UnescapedIsWrongOnText(prefix, n, MARK);
      assert !(Match(Encode(prefix + MARK + "*"), key) <==> IsPrefix(Encode(prefix + MARK), key));
    } else {
      PlainText(prefix);
      SequentialEscapeIsPerCharacter(prefix);
      forall key ensures Match(Encode(prefix + MARK + "*"), key) <==> IsPrefix(Encode(prefix + MARK), key) {
        PatternMatchesPrefix(prefix, key);
      }
    }
  }
}
