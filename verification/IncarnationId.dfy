/**
 Worker incarnation ids (src/worker_registry.rs): the byte length of the worker id, a colon, then the worker
 id and the generation without a separator.
 */
module IncarnationId {
  import opened Common
  import opened Text

  function Print(worker: string, generation: string): string {
    Decimal(ByteLen(worker)) + ":" + worker + generation
  }

  /** `str::split_once(':')`. */
  function SplitOnce(s: string): Option<(string, string)> {
    if s == [] then None
    else if s[0] == ':' then Some(([], s[1..]))
    else match SplitOnce(s[1..])
      case None => None
      case Some((left, right)) => Some(([s[0]] + left, right))
  }

  /** `str::split_at` at a byte offset, or `None` where that is not a character boundary. */
  function SplitAtByte(s: string, n: nat): Option<(string, string)> {
    if n == 0 then Some(([], s))
    else if s == [] || n < |EncodeChar(s[0])| then None
    else match SplitAtByte(s[1..], n - |EncodeChar(s[0])|)
      case None => None
      case Some((left, right)) => Some(([s[0]] + left, right))
  }

  function Parse(id: string): Option<(string, string)> {
    match SplitOnce(id)
    case None => None
    case Some((length, identity)) =>
      match ParseU64(length)
      case None => None
      case Some(n) =>
        if n == 0 || n >= ByteLen(identity) then None
        else match SplitAtByte(identity, n)
          case None => None
          case Some((worker, generation)) => if generation == [] then None else Some((worker, generation))
  }

  // ---------------------------------------------------------------------------------------------
  // Splitting
  // ---------------------------------------------------------------------------------------------

  lemma {:induction false} SplitOnceExactly(s: string, left: string, right: string)
    ensures SplitOnce(s) == Some((left, right)) <==> s == left + ":" + right && ':' !in left
  {
    if s != [] && s[0] != ':' {
      if left == [] {
        assert (left + ":" + right)[0] == ':';
      } else {
        SplitOnceExactly(s[1..], left[1..], right);
        assert left == [left[0]] + left[1..];
        assert s == [s[0]] + s[1..];
        assert left + ":" + right == [left[0]] + (left[1..] + ":" + right);
      }
    } else if s != [] {
      assert s == [':'] + s[1..];
      if left != [] {
        assert (left + ":" + right)[0] == left[0] && left[0] in left;
      } else {
        assert (left + ":" + right)[1..] == right;
      }
    }
  }

  lemma {:induction false} SplitAtByteExactly(s: string, n: nat, left: string, right: string)
    ensures SplitAtByte(s, n) == Some((left, right)) <==> s == left + right && ByteLen(left) == n
  {
    PositiveByteLen(left);
    if n == 0 {
      assert left == [] ==> left + right == right;
    } else if s != [] && n >= |EncodeChar(s[0])| {
      if left != [] {
        SplitAtByteExactly(s[1..], n - |EncodeChar(s[0])|, left[1..], right);
        assert left == [left[0]] + left[1..] && s == [s[0]] + s[1..];
        assert left + right == [left[0]] + (left[1..] + right);
      }
    } else if s != [] && left != [] && s == left + right {
      assert s[0] == left[0];
    }
  }

  // ---------------------------------------------------------------------------------------------
  // Printing and parsing
  // ---------------------------------------------------------------------------------------------

  /** `length` is a numeral for the byte length of `worker`; leading zeros and a plus sign are tolerated. */
  predicate Announces(length: string, worker: string) {
    ':' !in length && ParseU64(length) == Some(ByteLen(worker))
  }

  lemma ByteLenConcat(s: string, t: string)
    ensures ByteLen(s + t) == ByteLen(s) + ByteLen(t)
  {
    EncodeConcat(s, t);
  }

  lemma PositiveByteLen(s: string)
    ensures s == [] <==> ByteLen(s) == 0
  {
    if s != [] {
      assert |EncodeChar(s[0])| > 0;
    }
  }

  /** What parses, and to what: both directions. */
  lemma ParseExactly(id: string, worker: string, generation: string)
    ensures Parse(id) == Some((worker, generation)) <==>
      && worker != [] && generation != []
      && exists length :: Announces(length, worker) && id == length + ":" + worker + generation
  {
    ByteLenConcat(worker, generation);
    PositiveByteLen(worker);
    PositiveByteLen(generation);
    if Parse(id) == Some((worker, generation)) {
      var (length, identity) := SplitOnce(id).value;
      SplitOnceExactly(id, length, identity);
      SplitAtByteExactly(identity, ParseU64(length).value, worker, generation);
      assert Announces(length, worker) && id == length + ":" + worker + generation;
    }
    if worker != [] && generation != [] {
      forall length | Announces(length, worker) && id == length + ":" + worker + generation
        ensures Parse(id) == Some((worker, generation))
      {
        assert id == length + ":" + (worker + generation);
        SplitOnceExactly(id, length, worker + generation);
        SplitAtByteExactly(worker + generation, ByteLen(worker), worker, generation);
      }
    }
  }

  lemma DecimalAnnounces(worker: string)
    requires ByteLen(worker) <= U64_MAX
    ensures Announces(Decimal(ByteLen(worker)), worker)
  {
    DecimalFacts(ByteLen(worker));
    ParseDecimal(ByteLen(worker));
  }

  /** A printed id is the byte length of the worker id without leading zeros, a colon, and the two parts. */
  lemma PrintIsCanonical(worker: string, generation: string)
    ensures exists length ::
      && Print(worker, generation) == length + ":" + worker + generation
      && length != [] && AllDigits(length) && Value(length) == ByteLen(worker)
      && (length[0] == '0' ==> worker == [] && length == "0")
  {
    var n := ByteLen(worker);
    DecimalFacts(n);
    DecimalIsCanonical(n);
    PositiveByteLen(worker);
    assert Print(worker, generation) == Decimal(n) + ":" + worker + generation;
  }

  /** Parsing a printed id gives the worker id and generation back, whatever characters they contain. */
  lemma RoundTrip(worker: string, generation: string)
    requires worker != [] && generation != [] && ByteLen(worker) <= U64_MAX
    ensures Parse(Print(worker, generation)) == Some((worker, generation))
  {
    DecimalAnnounces(worker);
    ParseExactly(Print(worker, generation), worker, generation);
  }

  /** Different incarnations never print alike, empty parts included. */
  lemma PrintIsInjective(worker: string, generation: string, worker': string, generation': string)
    requires Print(worker, generation) == Print(worker', generation')
    ensures worker == worker' && generation == generation'
  {
    var n, n' := ByteLen(worker), ByteLen(worker');
    var id := Print(worker, generation);
    DecimalFacts(n);
    DecimalFacts(n');
    assert id == Decimal(n) + ":" + (worker + generation);
    assert id == Decimal(n') + ":" + (worker' + generation');
    SplitOnceExactly(id, Decimal(n), worker + generation);
    SplitOnceExactly(id, Decimal(n'), worker' + generation');
    SplitAtByteExactly(worker + generation, n, worker, generation);
    SplitAtByteExactly(worker + generation, n, worker', generation');
  }
}
