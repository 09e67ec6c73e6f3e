/** From a key to a worker: 64-bit FNV-1a over feed, separator and symbol. */
module Shard {
  import opened Options
  import opened PowerOfTwo

  /** 64-bit words and bytes, as numbers. */
  const WORDS: int := 0x1_0000_0000_0000_0000
  type Word = x: int | 0 <= x < WORDS
  type Byte = x: int | 0 <= x < 256

  /** A C string without its terminator; None is the null pointer. */
  type Text = seq<Byte>

  const OFFSET: Word := 14695981039346656037
  const PRIME: int := 1099511628211
  const SEPARATOR: Byte := 0x1F

  function TextOf(o: Option<Text>): Text { if o.None? then [] else o.value }

  function Encode(feed: Text, symbol: Text): Text { feed + [SEPARATOR] + symbol }

  // ---- the hash ---------------------------------------------------------------

  lemma Word64()
    ensures Pow2(64) == WORDS
  {
    assert Pow2(8) == 0x100;
    assert Pow2(16) == 0x1_0000;
    assert Pow2(24) == 0x100_0000;
    assert Pow2(32) == 0x1_0000_0000;
    assert Pow2(40) == 0x100_0000_0000;
    assert Pow2(48) == 0x1_0000_0000_0000;
    assert Pow2(56) == 0x100_0000_0000_0000;
  }

  lemma XorFits(h: Word, b: Byte)
    ensures Xor(h, b) < WORDS
  {
    Word64();
    XorBound(h, b, 64);
  }

  /** `h ^= b`, which stays within 64 bits. */
  function XorByte(h: Word, b: Byte): Word
  {
    XorFits(h, b);
    Xor(h, b)
  }

  /** `h *= prime` modulo 2^64. */
  function TimesPrime(x: Word): Word { x * PRIME % WORDS }

  function Mix(h: Word, b: Byte): Word { TimesPrime(XorByte(h, b)) }

  /** FNV-1a of a byte sequence, continued from state h. */
  function Fnv(h: Word, s: Text): Word
  {
    if s == [] then h else Mix(Fnv(h, s[..|s| - 1]), s[|s| - 1])
  }

  method HashKey(feed: Option<Text>, symbol: Option<Text>) returns (h: Word)
    ensures h == Fnv(OFFSET, Encode(TextOf(feed), TextOf(symbol)))
  {
    hide TimesPrime, XorByte;
    var f, y := TextOf(feed), TextOf(symbol);
    h := OFFSET;
    var i := 0;
    while i < |f|
      invariant 0 <= i <= |f| && h == Fnv(OFFSET, f[..i])
    {
      assert f[..i + 1][..i] == f[..i];
      h := XorByte(h, f[i]);
      h := TimesPrime(h);
      i := i + 1;
    }
    assert f[..|f|] == f && (f + [SEPARATOR])[..|f|] == f;
    h := XorByte(h, SEPARATOR);
    h := TimesPrime(h);
    i := 0;
    assert f + [SEPARATOR] + y[..0] == f + [SEPARATOR];
    while i < |y|
      invariant 0 <= i <= |y| && h == Fnv(OFFSET, f + [SEPARATOR] + y[..i])
    {
      var s := f + [SEPARATOR] + y[..i + 1];
      assert s[..|s| - 1] == f + [SEPARATOR] + y[..i];
      h := XorByte(h, y[i]);
      h := TimesPrime(h);
      i := i + 1;
    }
    assert y[..|y|] == y;
  }

  // ---- one step is a bijection ------------------------------------------------

  /** The inverse of PRIME modulo 2^64. */
  const INVERSE: int := 0xCE96_5057_AFF6_957B

  function OverPrime(x: Word): Word { x * INVERSE % WORDS }

  function Unmix(h: Word, b: Byte): Word { XorByte(OverPrime(h), b) }

  /** Multiplying by one factor and then by the other adds a multiple of 2^64. */
  lemma BackAgain(x: int, q: int)
    ensures (x * 1099511628211 - q * 0x1_0000_0000_0000_0000) * 0xCE96_5057_AFF6_957B ==
      x + (887285111055 * x - q * 0xCE96_5057_AFF6_957B) * 0x1_0000_0000_0000_0000
    ensures (x * 0xCE96_5057_AFF6_957B - q * 0x1_0000_0000_0000_0000) * 1099511628211 ==
      x + (887285111055 * x - q * 1099511628211) * 0x1_0000_0000_0000_0000
  {
  }

  lemma RestIs(x: Word, z: int)
    ensures (x + z * 0x1_0000_0000_0000_0000) % 0x1_0000_0000_0000_0000 == x
  {
  }

  lemma PrimeInverts(x: Word)
    ensures OverPrime(TimesPrime(x)) == x && TimesPrime(OverPrime(x)) == x
  {
    var q := x * 1099511628211 / 0x1_0000_0000_0000_0000;
    assert TimesPrime(x) == x * 1099511628211 - q * 0x1_0000_0000_0000_0000;
    BackAgain(x, q);
    RestIs(x, 887285111055 * x - q * 0xCE96_5057_AFF6_957B);
    var p := x * 0xCE96_5057_AFF6_957B / 0x1_0000_0000_0000_0000;
    assert OverPrime(x) == x * 0xCE96_5057_AFF6_957B - p * 0x1_0000_0000_0000_0000;
    BackAgain(x, p);
    RestIs(x, 887285111055 * x - p * 1099511628211);
  }

  /** One step can be undone, on either side: it permutes the 64-bit states. */
  lemma MixBijective(h: Word, b: Byte)
    ensures Unmix(Mix(h, b), b) == h && Mix(Unmix(h, b), b) == h
  {
    PrimeInverts(XorByte(h, b));
    PrimeInverts(h);
    XorUndoes(h, b);
    XorUndoes(OverPrime(h), b);
    hide TimesPrime, OverPrime, Xor;
  }

  /** Different bytes take one state to different states. */
  lemma MixSeparates(h: Word, b: Byte, c: Byte)
    requires b != c
    ensures Mix(h, b) != Mix(h, c)
  {
    PrimeInverts(XorByte(h, b));
    PrimeInverts(XorByte(h, c));
    XorUndoes(h, b);
    XorUndoes(h, c);
    hide TimesPrime, OverPrime, Xor;
  }

  /** Different states stay different under equal bytes. */
  lemma {:induction false} SuffixKeepsApart(h: Word, g: Word, s: Text)
    requires h != g
    ensures Fnv(h, s) != Fnv(g, s)
    decreases |s|
  {
    hide Mix, Unmix;
    if s != [] {
      var n := |s| - 1;
      SuffixKeepsApart(h, g, s[..n]);
      MixBijective(Fnv(h, s[..n]), s[n]);
      MixBijective(Fnv(g, s[..n]), s[n]);
    }
  }

  lemma {:induction false} FnvConcat(h: Word, s: Text, t: Text)
    ensures Fnv(h, s + t) == Fnv(Fnv(h, s), t)
    decreases |t|
  {
    hide Mix;
    if t == [] {
      assert s + t == s;
    } else {
      var n := |t| - 1;
      FnvConcat(h, s, t[..n]);
      assert (s + t)[..|s + t| - 1] == s + t[..n];
    }
  }

  /** Keys whose encodings differ in exactly one byte never share a hash. */
  lemma OneByteApart(s: Text, t: Text, i: nat)
    requires |s| == |t| && i < |s| && s[i] != t[i]
    requires forall j :: 0 <= j < |s| && j != i ==> s[j] == t[j]
    ensures Fnv(OFFSET, s) != Fnv(OFFSET, t)
  {
    hide Mix;
    var h := Fnv(OFFSET, s[..i]);
    assert s[..i] == t[..i] && s[i + 1..] == t[i + 1..];
    assert s == s[..i + 1] + s[i + 1..] && t == t[..i + 1] + t[i + 1..];
    assert s[..i + 1][..i] == s[..i] && t[..i + 1][..i] == t[..i];
    FnvConcat(OFFSET, s[..i + 1], s[i + 1..]);
    FnvConcat(OFFSET, t[..i + 1], t[i + 1..]);
    MixSeparates(h, s[i], t[i]);
    SuffixKeepsApart(Mix(h, s[i]), Mix(h, t[i]), s[i + 1..]);
  }

  // ---- the encoding -----------------------------------------------------------

  /** No other key is encoded as this one. */
  ghost predicate EncodedAlone(feed: Text, symbol: Text)
  {
    forall f, y :: Encode(f, y) == Encode(feed, symbol) ==> f == feed && y == symbol
  }

  /** A key shares its encoding with no other if and only if it does not contain the separator. */
  lemma EncodedAloneIff(feed: Text, symbol: Text)
    ensures EncodedAlone(feed, symbol) <==> SEPARATOR !in feed && SEPARATOR !in symbol
  {
    if SEPARATOR !in feed && SEPARATOR !in symbol {
      forall f, y | Encode(f, y) == Encode(feed, symbol)
        ensures f == feed && y == symbol
      {
        SeparatorAt(feed, symbol, f, y);
      }
    } else if SEPARATOR in feed {
      var k :| 0 <= k < |feed| && feed[k] == SEPARATOR;
      Regroup(feed[..k], feed[k + 1..], symbol);
      assert feed == Encode(feed[..k], feed[k + 1..]);
      assert |feed[..k]| != |feed|;
    } else {
      var k :| 0 <= k < |symbol| && symbol[k] == SEPARATOR;
      Regroup(feed, symbol[..k], symbol[k + 1..]);
      assert symbol == Encode(symbol[..k], symbol[k + 1..]);
      assert |Encode(feed, symbol[..k])| != |feed|;
    }
  }

  /** With two separators the key may be split at either. */
  lemma Regroup(a: Text, b: Text, c: Text)
    ensures Encode(Encode(a, b), c) == Encode(a, Encode(b, c))
  {
  }

  lemma SeparatorAt(feed: Text, symbol: Text, f: Text, y: Text)
    requires Encode(f, y) == Encode(feed, symbol) && SEPARATOR !in feed && SEPARATOR !in symbol
    ensures f == feed && y == symbol
  {
    var e := Encode(feed, symbol);
    assert e[|f|] == SEPARATOR;
    OneSeparator(feed, symbol, |f|);
    assert f == e[..|feed|] == feed;
    assert y == e[|feed| + 1..] == symbol;
  }

  lemma OneSeparator(feed: Text, symbol: Text, k: nat)
    requires SEPARATOR !in feed && SEPARATOR !in symbol && k < |Encode(feed, symbol)|
    requires Encode(feed, symbol)[k] == SEPARATOR
    ensures k == |feed|
  {
  }

  // ---- routing ----------------------------------------------------------------

  /** awp_pool_create keeps at least one worker for sharded traffic. */
  datatype Routing = Routing(workers: nat, broadcasters: nat, feeds: seq<Option<Text>>)

  predicate Accepted(c: Routing) { c.broadcasters < c.workers }

  type Routes = c: Routing | Accepted(c) witness Routing(1, 0, [])

  /** What a submit is routed by: feed, symbol and the broadcast flag. */
  datatype Key = Key(feed: Option<Text>, symbol: Option<Text>, flag: bool)

  predicate IsBroadcast(c: Routing, feed: Option<Text>, flag: bool)
  {
    flag || (feed.Some? && feed in c.feeds)
  }

  method FeedIsBroadcast(c: Routing, feed: Option<Text>) returns (r: bool)
    ensures r <==> IsBroadcast(c, feed, false)
  {
    if feed.None? || |c.feeds| == 0 {
      return false;
    }
    for i := 0 to |c.feeds|
      invariant feed !in c.feeds[..i]
    {
      if c.feeds[i].Some? && c.feeds[i].value == feed.value {
        return true;
      }
    }
    assert c.feeds[..|c.feeds|] == c.feeds;
    return false;
  }

  function HashOf(feed: Option<Text>, symbol: Option<Text>): Word
  {
    Fnv(OFFSET, Encode(TextOf(feed), TextOf(symbol)))
  }

  /**
    The worker a key belongs to, always an existing one. With dedicated broadcast workers, broadcast
    traffic goes to those and all other traffic to the rest.
   */
  function ShardOf(c: Routes, k: Key): (w: nat)
    ensures w < c.workers
    ensures c.broadcasters > 0 ==> (w < c.broadcasters <==> IsBroadcast(c, k.feed, k.flag))
  {
    if IsBroadcast(c, k.feed, k.flag) && c.broadcasters > 0 then HashOf(k.feed, Some([])) % c.broadcasters
    else c.broadcasters + HashOf(k.feed, k.symbol) % (c.workers - c.broadcasters)
  }

  method ComputeShard(c: Routes, feed: Option<Text>, symbol: Option<Text>, flag: bool) returns (w: nat)
    ensures w < c.workers
    ensures c.broadcasters > 0 ==> (w < c.broadcasters <==> IsBroadcast(c, feed, flag))
    ensures w == ShardOf(c, Key(feed, symbol, flag))
  {
    var bc := flag;
    if !bc {
      bc := FeedIsBroadcast(c, feed);
    }
    if bc && c.broadcasters > 0 {
      var h := HashKey(feed, Some([]));
      return h % c.broadcasters;
    }
    var h := HashKey(feed, symbol);
    return c.broadcasters + h % (c.workers - c.broadcasters);
  }
}
