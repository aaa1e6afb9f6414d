/**
 Connection ids: twelve symbols drawn by rejection sampling from random bytes, which are
 fetched 64 at a time into a buffer that outlives each call. The random source is an
 arbitrary stream; the buffer is shown to be invisible against reading that stream directly.
 */
module IdGenerator {
  const LETTERS := "ABCDEFGHJKMNPRTUVWXY"
  const DIGITS := "0123456789"

  const PATTERN: seq<string> := [LETTERS, LETTERS, LETTERS, LETTERS,
                                 DIGITS, DIGITS, DIGITS, DIGITS,
                                 LETTERS, LETTERS, LETTERS, LETTERS]

  const BUF_SIZE := 64

  type byte = b: int | 0 <= b < 256
  type Stream = nat -> byte

  // ---- Masking ----

  /** The low four or five bits of a byte, by the size of the alphabet. */
  function Masked(b: byte, alphabet: string): nat {
    if |alphabet| <= 16 then b % 16 else b % 32
  }

  /** The remainder is the bitwise mask of the code. */
  lemma MaskIsRemainder(b: bv8)
    ensures (b & 15) as int == b as int % 16
    ensures (b & 31) as int == b as int % 32
    ensures Masked(b as int, DIGITS) == (b & 15) as int && Masked(b as int, LETTERS) == (b & 31) as int
  {
    assert b & 15 == b % 16;
    assert b & 31 == b % 32;
  }

  predicate Accepts(alphabet: string, b: byte) {
    Masked(b, alphabet) < |alphabet|
  }

  function Symbol(alphabet: string, b: byte): (c: char)
    requires Accepts(alphabet, b)
    ensures c in alphabet
  {
    alphabet[Masked(b, alphabet)]
  }

  /** Five bits choose one of twenty letters, four bits one of ten digits; other bytes are rejected. */
  lemma SymbolOfByte(b: byte)
    ensures Accepts(LETTERS, b) <==> b % 32 < 20
    ensures Accepts(LETTERS, b) ==> Symbol(LETTERS, b) == "ABCDEFGHJKMNPRTUVWXY"[b % 32]
    ensures Accepts(DIGITS, b) <==> b % 16 < 10
    ensures Accepts(DIGITS, b) ==> Symbol(DIGITS, b) == "0123456789"[b % 16]
  {
  }

  predicate IsLetter(c: char) {
    c in "ABCDEFGHJKMNPRTUVWXY"
  }

  predicate IsDigit(c: char) {
    c in "0123456789"
  }

  /** Four letters, four digits, four letters. */
  predicate IsId(s: string) {
    |s| == 12 && forall p | 0 <= p < 12 :: if 4 <= p < 8 then IsDigit(s[p]) else IsLetter(s[p])
  }

  /** An id fits a pattern when each symbol belongs to the alphabet of its position. */
  predicate Fits(pattern: seq<string>, id: string) {
    |id| == |pattern| && forall p | 0 <= p < |pattern| :: id[p] in pattern[p]
  }

  lemma FittingIsId(id: string)
    ensures Fits(PATTERN, id) <==> IsId(id)
  {
  }

  // ---- Reading the stream without a buffer ----

  /** From every position on, some later byte is accepted; without this no call ends. */
  ghost predicate NeverStarves(source: Stream, alphabet: string) {
    forall n: nat :: SomeAccepted(source, alphabet, n)
  }

  ghost predicate SomeAccepted(source: Stream, alphabet: string, from: nat) {
    exists k: nat :: from <= k && Accepts(alphabet, source(k))
  }

  ghost predicate Feeds(source: Stream, pattern: seq<string>) {
    forall p | 0 <= p < |pattern| :: NeverStarves(source, pattern[p])
  }

  /** Position k is the first one from `from` on with an accepted byte. */
  ghost predicate IsNextAccepted(source: Stream, alphabet: string, from: nat, k: nat) {
    from <= k && Accepts(alphabet, source(k)) && forall m: nat | from <= m < k :: !Accepts(alphabet, source(m))
  }

  ghost function NextAccepted(source: Stream, alphabet: string, from: nat): (k: nat)
    requires NeverStarves(source, alphabet)
    ensures IsNextAccepted(source, alphabet, from, k)
  {
    assert SomeAccepted(source, alphabet, from);
    var k: nat :| from <= k && Accepts(alphabet, source(k));
    FirstUpTo(source, alphabet, from, k)
  }

  /** The first accepted position, given that one at most `bound` exists. */
  function FirstUpTo(source: Stream, alphabet: string, from: nat, bound: nat): (k: nat)
    requires from <= bound && Accepts(alphabet, source(bound))
    ensures IsNextAccepted(source, alphabet, from, k)
    decreases bound - from
  {
    if Accepts(alphabet, source(from)) then from else FirstUpTo(source, alphabet, from + 1, bound)
  }

  lemma NextIsUnique(source: Stream, alphabet: string, from: nat, k1: nat, k2: nat)
    requires IsNextAccepted(source, alphabet, from, k1) && IsNextAccepted(source, alphabet, from, k2)
    ensures k1 == k2
  {
    assert Accepts(alphabet, source(k1)) && Accepts(alphabet, source(k2));
  }

  /** A symbol string together with the stream position behind its last byte. */
  datatype Reading = Reading(text: string, end: nat)

  /** One id read from the unbuffered stream: per pattern position, the first accepted byte. */
  ghost function Read(source: Stream, pattern: seq<string>, from: nat): (r: Reading)
    requires Feeds(source, pattern)
    ensures |r.text| == |pattern|
    ensures from + |pattern| <= r.end
    decreases |pattern|
  {
    if pattern == [] then Reading("", from)
    else
      var n := |pattern| - 1;
      var front := Read(source, pattern[..n], from);
      var k := NextAccepted(source, pattern[n], front.end);
      Reading(front.text + [Symbol(pattern[n], source(k))], k + 1)
  }

  // ---- The buffered generator ----

  /** Everything that a number of consecutive calls return, read from the unbuffered stream. */
  datatype Transcript = Transcript(ids: seq<string>, end: nat)

  ghost function ReadMany(source: Stream, pattern: seq<string>, calls: nat): (t: Transcript)
    requires Feeds(source, pattern)
    ensures |t.ids| == calls
  {
    if calls == 0 then Transcript([], 0)
    else
      var before := ReadMany(source, pattern, calls - 1);
      var r := Read(source, pattern, before.end);
      Transcript(before.ids + [r.text], r.end)
  }

  lemma ReadManyStep(source: Stream, pattern: seq<string>, calls: nat)
    requires Feeds(source, pattern)
    ensures var before := ReadMany(source, pattern, calls);
            var r := Read(source, pattern, before.end);
            ReadMany(source, pattern, calls + 1) == Transcript(before.ids + [r.text], r.end)
  {
  }

  lemma {:induction false} ReadFits(source: Stream, pattern: seq<string>, from: nat)
    requires Feeds(source, pattern)
    ensures Fits(pattern, Read(source, pattern, from).text)
  {
    hide Accepts, IsNextAccepted;
    if pattern != [] {
      var n := |pattern| - 1;
      ReadFits(source, pattern[..n], from);
      assert pattern == pattern[..n] + [pattern[n]];
    }
  }

  lemma ReadIsId(source: Stream, from: nat)
    requires Feeds(source, PATTERN)
    ensures IsId(Read(source, PATTERN, from).text)
  {
    hide Feeds, Read;
    ReadFits(source, PATTERN, from);
    FittingIsId(Read(source, PATTERN, from).text);
  }

  class Generator {
    const source: Stream
    var buf: array<byte>
    var bufPos: nat
    var drawn: nat // how far the random source has been read
    ghost var issued: seq<string>

    /** The unread part of the buffer is the latest stretch of the stream. */
    ghost predicate BufferFresh()
      reads this, buf
    {
      && buf.Length == BUF_SIZE
      && bufPos <= BUF_SIZE
      && BUF_SIZE - bufPos <= drawn
      && forall m | bufPos <= m < BUF_SIZE :: buf[m] == source(drawn - BUF_SIZE + m)
    }

    /** Stream position of the next byte to be consumed. */
    ghost function Next(): nat
      reads this, buf
      requires BufferFresh()
    {
      drawn - (BUF_SIZE - bufPos)
    }

    /** After any number of calls, the ids issued are those of as many unbuffered readings. */
    ghost predicate Valid()
      reads this, buf
    {
      && BufferFresh()
      && Feeds(source, PATTERN)
      && Transcript(issued, Next()) == ReadMany(source, PATTERN, |issued|)
    }

    constructor (source: Stream)
      requires Feeds(source, PATTERN)
      ensures Valid() && fresh(buf) && issued == [] && this.source == source
    {
      this.source := source;
      buf := new byte[BUF_SIZE](_ => 0);
      bufPos := BUF_SIZE;
      drawn := 0;
      issued := [];
    }

    /** One byte, refilling the whole buffer of 64 first when it is used up. */
    method TakeByte() returns (b: byte)
      requires BufferFresh()
      modifies this`bufPos, this`drawn, buf
      ensures BufferFresh() && buf == old(buf)
      ensures b == source(old(Next()))
      ensures Next() == old(Next()) + 1
      ensures drawn == old(drawn) + if old(bufPos) == 64 then 64 else 0
    {
      if bufPos >= BUF_SIZE {
        forall m | 0 <= m < BUF_SIZE {
          buf[m] := source(drawn + m);
        }
        drawn := drawn + BUF_SIZE;
        bufPos := 0;
      }
      b := buf[bufPos];
      bufPos := bufPos + 1;
    }

    /** The inner loop: bytes are drawn until one is accepted. */
    method DrawAccepted(alphabet: string) returns (b: byte)
      requires BufferFresh() && NeverStarves(source, alphabet)
      modifies this`bufPos, this`drawn, buf
      ensures BufferFresh() && buf == old(buf)
      ensures Next() == NextAccepted(source, alphabet, old(Next())) + 1
      ensures b == source(Next() - 1) && Accepts(alphabet, b)
    {
      ghost var from := Next();
      ghost var k := NextAccepted(source, alphabet, from);
      b := TakeByte();
      while Masked(b, alphabet) >= |alphabet|
        invariant BufferFresh() && buf == old(buf)
        invariant from < Next() <= k + 1
        invariant b == source(Next() - 1)
        decreases k + 1 - Next()
      {
        b := TakeByte();
      }
    }

    /** The outer loop: one accepted byte per alphabet. */
    method FillPattern(pattern: seq<string>) returns (out: string)
      requires BufferFresh() && Feeds(source, pattern)
      modifies this`bufPos, this`drawn, buf
      ensures BufferFresh() && buf == old(buf)
      ensures Reading(out, Next()) == Read(source, pattern, old(Next()))
    {
      hide Accepts, NeverStarves;
      out := "";
      var p := 0;
      ghost var start := Next();
      while p < |pattern|
        invariant 0 <= p <= |pattern|
        invariant BufferFresh() && buf == old(buf)
        invariant Reading(out, Next()) == Read(source, pattern[..p], start)
      {
        var alphabet := pattern[p];
        var b := DrawAccepted(alphabet);
        out := out + [Symbol(alphabet, b)];
        p := p + 1;
        assert pattern[..p][..p - 1] == pattern[..p - 1];
      }
      assert pattern[..p] == pattern;
    }

    /**
     One id. The refills leave no trace: the text is the one read from the bare stream at the
     position where the previous call stopped, and the next call starts where this one stopped.
     */
    method GenerateId() returns (out: string)
      requires Valid()
      modifies this`bufPos, this`drawn, this`issued, buf
      ensures Valid() && buf == old(buf)
      ensures Reading(out, Next()) == Read(source, PATTERN, old(Next()))
      ensures issued == old(issued) + [out]
      ensures IsId(out)
    {
      hide Feeds, Read, ReadMany, IsId;
      out := FillPattern(PATTERN);
      ReadIsId(source, old(Next()));
      issued := issued + [out];
      ReadManyStep(source, PATTERN, |issued| - 1);
    }
  }

  // ---- What an id is, position by position ----

  /** Where the search for the byte of a pattern position starts. */
  function StartOf(from: nat, used: seq<nat>, p: nat): nat
    requires p <= |used|
  {
    if p == 0 then from else used[p - 1] + 1
  }

  /** Symbol c comes from the first accepted byte at or after `start`, which is at position k. */
  ghost predicate DrawnAt(source: Stream, alphabet: string, start: nat, k: nat, c: char) {
    IsNextAccepted(source, alphabet, start, k) && c == Symbol(alphabet, source(k))
  }

  lemma DrawnOnce(source: Stream, alphabet: string, start: nat, k1: nat, c1: char, k2: nat, c2: char)
    requires DrawnAt(source, alphabet, start, k1, c1) && DrawnAt(source, alphabet, start, k2, c2)
    ensures k1 == k2 && c1 == c2
  {
    hide Symbol;
    NextIsUnique(source, alphabet, start, k1, k2);
  }

  /** The increasing positions of the bytes that an id was made from. */
  ghost predicate MadeFrom(source: Stream, pattern: seq<string>, from: nat, r: Reading, used: seq<nat>) {
    && |used| == |pattern| == |r.text|
    && (forall p | 0 <= p < |pattern| ::
          DrawnAt(source, pattern[p], StartOf(from, used, p), used[p], r.text[p]))
    && r.end == StartOf(from, used, |used|)
  }

  /** Bytes are consumed in order, each at most once, and none is skipped but the rejected ones. */
  lemma {:induction false} ReadMeaning(source: Stream, pattern: seq<string>, from: nat) returns (used: seq<nat>)
    requires Feeds(source, pattern)
    ensures MadeFrom(source, pattern, from, Read(source, pattern, from), used)
  {
    if pattern == [] {
      used := [];
    } else {
      var n := |pattern| - 1;
      var front := ReadMeaning(source, pattern[..n], from);
      var start := Read(source, pattern[..n], from);
      var k := NextAccepted(source, pattern[n], start.end);
      used := front + [k];
      OneMoreDrawn(source, pattern, from, start, front, k, Symbol(pattern[n], source(k)));
    }
  }

  lemma OneMoreDrawn(source: Stream, pattern: seq<string>, from: nat, r: Reading, used: seq<nat>, k: nat, c: char)
    requires pattern != []
    requires MadeFrom(source, pattern[..|pattern| - 1], from, r, used)
    requires DrawnAt(source, pattern[|pattern| - 1], r.end, k, c)
    ensures MadeFrom(source, pattern, from, Reading(r.text + [c], k + 1), used + [k])
  {
    hide DrawnAt, StartOf;
    var n, more, text := |pattern| - 1, used + [k], r.text + [c];
    StartsAgree(from, used, k);
    forall p | 0 <= p < |pattern|
      ensures DrawnAt(source, pattern[p], StartOf(from, more, p), more[p], text[p])
    {
      if p < n {
        assert pattern[..n][p] == pattern[p];
        assert DrawnAt(source, pattern[..n][p], StartOf(from, used, p), used[p], r.text[p]);
      }
    }
  }

  lemma StartsAgree(from: nat, used: seq<nat>, k: nat)
    ensures forall p | 0 <= p <= |used| :: StartOf(from, used + [k], p) == StartOf(from, used, p)
    ensures StartOf(from, used + [k], |used| + 1) == k + 1
  {
  }

  /** Nothing else could have been read: the positions and the text are determined. */
  lemma {:induction false} MadeFromIsUnique(source: Stream, pattern: seq<string>, from: nat,
                                            r1: Reading, used1: seq<nat>, r2: Reading, used2: seq<nat>)
    requires MadeFrom(source, pattern, from, r1, used1)
    requires MadeFrom(source, pattern, from, r2, used2)
    ensures r1 == r2 && used1 == used2
  {
    hide DrawnAt;
    forall p | 0 <= p < |pattern|
      ensures used1[p] == used2[p] && r1.text[p] == r2.text[p]
    {
      SamePosition(source, pattern, from, r1, used1, r2, used2, p);
    }
  }

  lemma {:induction false} SamePosition(source: Stream, pattern: seq<string>, from: nat,
                                        r1: Reading, used1: seq<nat>, r2: Reading, used2: seq<nat>, p: nat)
    requires MadeFrom(source, pattern, from, r1, used1)
    requires MadeFrom(source, pattern, from, r2, used2)
    requires p < |pattern|
    ensures used1[p] == used2[p] && r1.text[p] == r2.text[p]
    decreases p
  {
    hide IsNextAccepted, Symbol;
    if p > 0 {
      SamePosition(source, pattern, from, r1, used1, r2, used2, p - 1);
    }
    var start := StartOf(from, used1, p);
    assert StartOf(from, used2, p) == start;
    DrawnOnce(source, pattern[p], start, used1[p], r1.text[p], used2[p], r2.text[p]);
  }

  // ---- No id is likelier than another ----

  /** The bytes that yield a symbol. */
  function Preimages(alphabet: string, c: char): set<byte> {
    set b: byte | 0 <= b < 256 && Accepts(alphabet, b) && Symbol(alphabet, b) == c
  }

  /** The byte strings, one byte per pattern position and none rejected, that spell an id. */
  function Spellings(pattern: seq<string>, id: string): set<seq<byte>>
    requires |id| == |pattern|
  {
    if pattern == [] then {[]}
    else AllPrefixed(Preimages(pattern[0], id[0]), Spellings(pattern[1..], id[1..]))
  }

  predicate Spells(pattern: seq<string>, bytes: seq<byte>, id: string) {
    && |bytes| == |id| == |pattern|
    && forall p | 0 <= p < |pattern| :: Accepts(pattern[p], bytes[p]) && Symbol(pattern[p], bytes[p]) == id[p]
  }

  lemma {:induction false} SpellingsMeaning(pattern: seq<string>, id: string, bytes: seq<byte>)
    requires |id| == |pattern|
    ensures bytes in Spellings(pattern, id) <==> Spells(pattern, bytes, id)
  {
    if pattern != [] {
      AllPrefixedMember(Preimages(pattern[0], id[0]), Spellings(pattern[1..], id[1..]), bytes);
      if bytes != [] {
        SpellingsMeaning(pattern[1..], id[1..], bytes[1..]);
        if Spells(pattern[1..], bytes[1..], id[1..]) {
          assert forall p | 1 <= p < |pattern| ::
              pattern[p] == pattern[1..][p - 1] && id[p] == id[1..][p - 1] && bytes[p] == bytes[1..][p - 1];
        }
      }
    }
  }

  lemma NextIsHere(source: Stream, alphabet: string, from: nat)
    requires NeverStarves(source, alphabet) && Accepts(alphabet, source(from))
    ensures NextAccepted(source, alphabet, from) == from
  {
    NextIsUnique(source, alphabet, from, NextAccepted(source, alphabet, from), from);
  }

  /** The bytes of the stream from one position on. */
  function Stretch(source: Stream, from: nat, count: nat): (bytes: seq<byte>)
    ensures |bytes| == count
    ensures forall n | 0 <= n < count :: bytes[n] == source(from + n)
  {
    seq(count, n requires n >= 0 => source(from + n))
  }

  /** The next byte is accepted: the reading goes on by its symbol. */
  lemma ReadGoesOn(source: Stream, pattern: seq<string>, from: nat)
    requires Feeds(source, pattern) && pattern != []
    requires var n := |pattern| - 1;
             NeverStarves(source, pattern[n]) && Accepts(pattern[n], source(Read(source, pattern[..n], from).end))
    ensures var n := |pattern| - 1;
            var front := Read(source, pattern[..n], from);
            Read(source, pattern, from) == Reading(front.text + [Symbol(pattern[n], source(front.end))], front.end + 1)
  {
    var n := |pattern| - 1;
    var front := Read(source, pattern[..n], from);
    hide Accepts, Symbol, NeverStarves;
    NextIsHere(source, pattern[n], front.end);
  }

  /** Where no byte is rejected, the generator reads exactly the id that the bytes spell. */
  lemma {:induction false} SpelledIsRead(source: Stream, pattern: seq<string>, from: nat, id: string)
    requires Feeds(source, pattern)
    requires Spells(pattern, Stretch(source, from, |pattern|), id)
    ensures Read(source, pattern, from) == Reading(id, from + |pattern|)
  {
    hide Accepts, Stretch, NeverStarves, Symbol;
    if pattern == [] {
      assert id == "";
      assert Read(source, pattern, from) == Reading("", from);
    } else {
      var n := |pattern| - 1;
      SpellsFront(source, pattern, from, id);
      SpellsLast(source, pattern, from, id);
      FeedsParts(source, pattern);
      hide Spells, Read, Feeds;
      SpelledIsRead(source, pattern[..n], from, id[..n]);
      ReadGoesOn(source, pattern, from);
      assert id == id[..n] + [id[n]];
    }
  }

  lemma FeedsParts(source: Stream, pattern: seq<string>)
    requires Feeds(source, pattern) && pattern != []
    ensures Feeds(source, pattern[..|pattern| - 1]) && NeverStarves(source, pattern[|pattern| - 1])
  {
    hide NeverStarves;
  }

  lemma SpellsFront(source: Stream, pattern: seq<string>, from: nat, id: string)
    requires pattern != [] && Spells(pattern, Stretch(source, from, |pattern|), id)
    ensures Spells(pattern[..|pattern| - 1], Stretch(source, from, |pattern| - 1), id[..|pattern| - 1])
  {
    hide Accepts, Symbol, Stretch;
    var n := |pattern| - 1;
    assert forall p | 0 <= p < n :: Stretch(source, from, n)[p] == Stretch(source, from, |pattern|)[p];
  }

  lemma SpellsLast(source: Stream, pattern: seq<string>, from: nat, id: string)
    requires pattern != [] && Spells(pattern, Stretch(source, from, |pattern|), id)
    ensures var n := |pattern| - 1;
            |id| == n + 1 && Accepts(pattern[n], source(from + n)) && Symbol(pattern[n], source(from + n)) == id[n]
  {
    hide Accepts, Symbol, Stretch;
    var n := |pattern| - 1;
    assert Stretch(source, from, |pattern|)[n] == source(from + n);
  }

  lemma {:induction false} ResidueCount(n: nat, m: nat, i: nat)
    requires i < m
    ensures |(set b | 0 <= b < n * m && b % m == i)| == n
  {
    var all := set b | 0 <= b < n * m && b % m == i;
    if n == 0 {
      assert all == {};
    } else {
      var fewer := set b | 0 <= b < (n - 1) * m && b % m == i;
      var last := (n - 1) * m + i;
      ResidueCount(n - 1, m, i);
      assert n * m == (n - 1) * m + m;
      forall b | (n - 1) * m <= b < n * m
        ensures b % m == b - (n - 1) * m
      {
        RemainderOf(b, n - 1, m);
      }
      assert all == fewer + {last};
    }
  }

  lemma RemainderOf(b: nat, q: nat, m: nat)
    requires m > 0 && q * m <= b < q * m + m
    ensures b % m == b - q * m
  {
    var r := b - q * m;
    assert b == q * m + r && 0 <= r < m;
    var d := b / m - q;
    assert d * m == r - b % m;
    MultipleBelow(d, m);
  }

  /** A multiple of m strictly between -m and m is zero. */
  lemma MultipleBelow(d: int, m: nat)
    requires -(m as int) < d * m < m
    ensures d == 0
  {
  }

  lemma LetterPreimages(i: nat)
    requires i < |LETTERS|
    ensures |Preimages(LETTERS, LETTERS[i])| == 8
  {
    forall b: byte
      ensures b in Preimages(LETTERS, LETTERS[i]) <==> b % 32 == i
    {
      DistinctLetters(b % 32, i);
    }
    ResidueCount(8, 32, i);
    assert Preimages(LETTERS, LETTERS[i]) == set b | 0 <= b < 8 * 32 && b % 32 == i;
  }

  lemma DigitPreimages(i: nat)
    requires i < |DIGITS|
    ensures |Preimages(DIGITS, DIGITS[i])| == 16
  {
    forall b: byte
      ensures b in Preimages(DIGITS, DIGITS[i]) <==> b % 16 == i
    {
      DistinctDigits(b % 16, i);
    }
    ResidueCount(16, 16, i);
    assert Preimages(DIGITS, DIGITS[i]) == set b | 0 <= b < 16 * 16 && b % 16 == i;
  }

  lemma DistinctLetters(i: nat, j: nat)
    requires j < |LETTERS|
    ensures i < |LETTERS| && LETTERS[i] == LETTERS[j] <==> i == j
  {
  }

  lemma DistinctDigits(i: nat, j: nat)
    requires j < |DIGITS|
    ensures i < |DIGITS| && DIGITS[i] == DIGITS[j] <==> i == j
  {
  }

  /** One byte before every member of a set. */
  function Prefixed(b: byte, tails: set<seq<byte>>): set<seq<byte>> {
    set rest | rest in tails :: [b] + rest
  }

  /** Every byte of one set before every member of another. */
  function AllPrefixed(heads: set<byte>, tails: set<seq<byte>>): set<seq<byte>> {
    set b, rest | b in heads && rest in tails :: [b] + rest
  }

  lemma PrefixedMember(b: byte, tails: set<seq<byte>>, s: seq<byte>)
    ensures s in Prefixed(b, tails) <==> s != [] && s[0] == b && s[1..] in tails
  {
    if s != [] {
      assert s == [s[0]] + s[1..];
    }
  }

  lemma AllPrefixedMember(heads: set<byte>, tails: set<seq<byte>>, s: seq<byte>)
    ensures s in AllPrefixed(heads, tails) <==> s != [] && s[0] in heads && s[1..] in tails
  {
    if s != [] {
      assert s == [s[0]] + s[1..];
    }
  }

  lemma {:induction false} PrefixedSize(b: byte, tails: set<seq<byte>>)
    ensures |Prefixed(b, tails)| == |tails|
    decreases tails
  {
    if tails == {} {
      assert Prefixed(b, tails) == {};
    } else {
      var t :| t in tails;
      PrefixedSize(b, tails - {t});
      forall s
        ensures s in Prefixed(b, tails) <==> s in Prefixed(b, tails - {t}) + {[b] + t}
        ensures [b] + t !in Prefixed(b, tails - {t})
      {
        PrefixedMember(b, tails, s);
        PrefixedMember(b, tails - {t}, s);
        PrefixedMember(b, tails - {t}, [b] + t);
      }
      assert Prefixed(b, tails) == Prefixed(b, tails - {t}) + {[b] + t};
    }
  }

  lemma {:induction false} AllPrefixedSize(heads: set<byte>, tails: set<seq<byte>>)
    ensures |AllPrefixed(heads, tails)| == |heads| * |tails|
    decreases heads
  {
    if heads == {} {
      assert AllPrefixed(heads, tails) == {};
    } else {
      hide AllPrefixed;
      var b :| b in heads;
      var fewer := heads - {b};
      assert heads == fewer + {b};
      AllPrefixedSize(fewer, tails);
      AllPrefixedGrows(fewer, b, tails);
      OneFactorMore(|fewer|, |tails|);
    }
  }

  lemma AllPrefixedGrows(heads: set<byte>, b: byte, tails: set<seq<byte>>)
    requires b !in heads
    ensures |AllPrefixed(heads + {b}, tails)| == |AllPrefixed(heads, tails)| + |tails|
  {
    AllPrefixedSplits(heads, b, tails);
    PrefixedSize(b, tails);
    hide AllPrefixed, Prefixed;
  }

  lemma AllPrefixedSplits(heads: set<byte>, b: byte, tails: set<seq<byte>>)
    requires b !in heads
    ensures AllPrefixed(heads + {b}, tails) == AllPrefixed(heads, tails) + Prefixed(b, tails)
    ensures AllPrefixed(heads, tails) !! Prefixed(b, tails)
  {
    forall s
      ensures s in AllPrefixed(heads + {b}, tails) <==> s in AllPrefixed(heads, tails) || s in Prefixed(b, tails)
      ensures !(s in AllPrefixed(heads, tails) && s in Prefixed(b, tails))
    {
      AllPrefixedMember(heads + {b}, tails, s);
      AllPrefixedMember(heads, tails, s);
      PrefixedMember(b, tails, s);
    }
  }

  lemma OneFactorMore(m: nat, n: nat)
    ensures (m + 1) * n == m * n + n
  {
  }

  /** The number of byte strings per id, as a product over the pattern. */
  function Weight(pattern: seq<string>): nat {
    if pattern == [] then 1 else (if |pattern[0]| == |DIGITS| then 16 else 8) * Weight(pattern[1..])
  }

  predicate IsPatternOfIds(pattern: seq<string>) {
    forall p | 0 <= p < |pattern| :: pattern[p] == LETTERS || pattern[p] == DIGITS
  }

  lemma PreimagesCount(alphabet: string, c: char)
    requires alphabet == LETTERS || alphabet == DIGITS
    requires c in alphabet
    ensures |Preimages(alphabet, c)| == if |alphabet| == |DIGITS| then 16 else 8
  {
    var i :| 0 <= i < |alphabet| && alphabet[i] == c;
    if alphabet == LETTERS {
      LetterPreimages(i);
    } else {
      DigitPreimages(i);
    }
  }

  lemma {:induction false} SpellingsCount(pattern: seq<string>, id: string)
    requires IsPatternOfIds(pattern) && Fits(pattern, id)
    ensures |Spellings(pattern, id)| == Weight(pattern)
  {
    hide Preimages;
    if pattern != [] {
      assert forall p | 1 <= p < |pattern| :: pattern[1..][p - 1] == pattern[p] && id[1..][p - 1] == id[p];
      SpellingsCount(pattern[1..], id[1..]);
      PreimagesCount(pattern[0], id[0]);
      AllPrefixedSize(Preimages(pattern[0], id[0]), Spellings(pattern[1..], id[1..]));
    }
  }

  /**
   Every possible id has the same number of rejection-free inputs: eight to the eighth times sixteen to
   the fourth.
   */
  lemma IdsAreUnbiased(id: string)
    requires IsId(id)
    ensures |Spellings(PATTERN, id)| == 0x100_0000 * 0x1_0000
  {
    FittingIsId(id);
    hide Fits, IsId;
    SpellingsCount(PATTERN, id);
    WeightOfPattern();
  }

  lemma WeightOfPattern()
    ensures Weight(PATTERN) == 0x100_0000 * 0x1_0000
  {
    LettersThenRest([]);
    var tail := [LETTERS, LETTERS, LETTERS, LETTERS];
    assert tail + [] == tail;
    DigitsThenRest(tail);
    LettersThenRest([DIGITS, DIGITS, DIGITS, DIGITS] + tail);
    assert [LETTERS, LETTERS, LETTERS, LETTERS] + ([DIGITS, DIGITS, DIGITS, DIGITS] + tail) == PATTERN;
  }

  lemma LettersThenRest(rest: seq<string>)
    ensures Weight([LETTERS, LETTERS, LETTERS, LETTERS] + rest) == 0x1000 * Weight(rest)
  {
    OneMore(LETTERS, rest);
    OneMore(LETTERS, [LETTERS] + rest);
    OneMore(LETTERS, [LETTERS] + ([LETTERS] + rest));
    OneMore(LETTERS, [LETTERS] + ([LETTERS] + ([LETTERS] + rest)));
    assert [LETTERS, LETTERS, LETTERS, LETTERS] + rest
        == [LETTERS] + ([LETTERS] + ([LETTERS] + ([LETTERS] + rest)));
  }

  lemma DigitsThenRest(rest: seq<string>)
    ensures Weight([DIGITS, DIGITS, DIGITS, DIGITS] + rest) == 0x1_0000 * Weight(rest)
  {
    OneMore(DIGITS, rest);
    OneMore(DIGITS, [DIGITS] + rest);
    OneMore(DIGITS, [DIGITS] + ([DIGITS] + rest));
    OneMore(DIGITS, [DIGITS] + ([DIGITS] + ([DIGITS] + rest)));
    assert [DIGITS, DIGITS, DIGITS, DIGITS] + rest
        == [DIGITS] + ([DIGITS] + ([DIGITS] + ([DIGITS] + rest)));
  }

  lemma OneMore(alphabet: string, rest: seq<string>)
    ensures Weight([alphabet] + rest) == (if |alphabet| == |DIGITS| then 16 else 8) * Weight(rest)
  {
    assert ([alphabet] + rest)[1..] == rest;
  }

  // ---- The readable form ----

  /** JavaScript's slice on in-range bounds clamps to the length. */
  function Slice(s: string, low: nat, high: nat): string
    requires low <= high
  {
    if |s| <= low then "" else if |s| <= high then s[low..] else s[low..high]
  }

  function FormatId(id: string): string {
    Slice(id, 0, 4) + "-" + Slice(id, 4, 8) + "-" + if |id| <= 8 then "" else id[8..]
  }

  /** An id is shown as four letters, a dash, four digits, a dash and four letters. */
  lemma FormattedId(id: string)
    requires IsId(id)
    ensures var s := FormatId(id);
            && |s| == 14 && s[4] == '-' && s[9] == '-'
            && (forall p | 0 <= p < 4 || 10 <= p < 14 :: IsLetter(s[p]))
            && (forall p | 5 <= p < 9 :: IsDigit(s[p]))
            && s[..4] + s[5..9] + s[10..] == id
  {
    hide IsLetter, IsDigit;
    var s := FormatId(id);
    assert s[..4] == id[..4] && s[5..9] == id[4..8] && s[10..] == id[8..];
    assert forall p | 0 <= p < 4 :: s[p] == id[p];
    assert forall p | 5 <= p < 9 :: s[p] == id[p - 1];
    assert forall p | 10 <= p < 14 :: s[p] == id[p - 2];
  }

  /** Undoing the dashes of a formatted id. */
  function Unformat(s: string): string {
    var n := |s| - 2;
    if n < 0 then ""
    else if n <= 4 then s[..n]
    else if n <= 8 then s[..4] + s[5..n + 1]
    else s[..4] + s[5..9] + s[10..]
  }

  /** Formatting loses nothing, for a string of any length. */
  lemma FormatKeepsId(id: string)
    ensures Unformat(FormatId(id)) == id
  {
    var s := FormatId(id);
    assert |s| == |id| + 2;
    if |id| > 8 {
      assert s[..4] == id[..4] && s[5..9] == id[4..8] && s[10..] == id[8..];
    } else if |id| > 4 {
      assert s[..4] == id[..4] && s[5..|id| + 1] == id[4..];
    } else {
      assert s[..|id|] == id;
    }
  }
}
