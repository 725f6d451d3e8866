/** The cache of tokens that name no Recipient: two generations, rotated whole. */
module SharedTokens {
  import opened Prelude

  /** The size at which a generation counts as full. */
  const GENERATION: nat := 1024

  datatype Cache<K, T> = Cache(live: map<K, T>, prev: map<K, T>)

  function Empty<K, T>(): Cache<K, T> {
    Cache(map[], map[])
  }

  /** The cache with one more token: a full live generation becomes the previous one
      and the token starts a new one. */
  function Stored<K, T>(c: Cache<K, T>, key: K, token: T): Cache<K, T> {
    if |c.live| >= GENERATION then Cache(map[key := token], c.live) else c.(live := c.live[key := token])
  }

  /** One request for a key, and what minting would yield if it came to that. */
  datatype Request<K, T> = Request(key: K, mint: Result<T, string>)

  datatype Answer<K, T> = Answer(cache: Cache<K, T>, token: Result<T, string>, minted: bool)

  function Answered<K, T>(c: Cache<K, T>, r: Request<K, T>): Answer<K, T> {
    if r.key in c.live then Answer(c, Ok(c.live[r.key]), false)
    else if r.key in c.prev then Answer(Stored(c, r.key, c.prev[r.key]), Ok(c.prev[r.key]), false)
    else if r.mint.Err? then Answer(c, r.mint, true)
    else Answer(Stored(c, r.key, r.mint.value), r.mint, true)
  }

  class SharedTokens<K(==), T> {
    var live: map<K, T>
    var prev: map<K, T>

    function Contents(): Cache<K, T>
      reads this
    {
      Cache(live, prev)
    }

    constructor ()
      ensures Contents() == Empty()
    {
      live, prev := map[], map[];
    }

    /** Answers a request, promoting what the previous generation still has and
        keeping nothing of a mint that fails. */
    method Reuse(key: K, mint: Result<T, string>) returns (token: Result<T, string>, minted: bool)
      modifies this
      ensures Answer(Contents(), token, minted) == Answered(old(Contents()), Request(key, mint))
    {
      if key in live {
        return Ok(live[key]), false;
      }
      if key in prev {
        token := Ok(prev[key]);
        Put(key, prev[key]);
        return token, false;
      }
      if mint.Ok? {
        Put(key, mint.value);
      }
      return mint, true;
    }

    method Put(key: K, token: T)
      modifies this
      ensures Contents() == Stored(old(Contents()), key, token)
    {
      if |live| >= GENERATION {
        prev, live := live, map[];
      }
      live := live[key := token];
    }
  }

  /** The cache after a sequence of requests. The lock makes any history of the
      process one such sequence. */
  function After<K, T>(c: Cache<K, T>, rs: seq<Request<K, T>>): Cache<K, T> {
    if |rs| == 0 then c else Answered(After(c, rs[..|rs| - 1]), rs[|rs| - 1]).cache
  }

  /** The answer to the i-th request. */
  function AnswerTo<K, T>(c: Cache<K, T>, rs: seq<Request<K, T>>, i: nat): Answer<K, T>
    requires i < |rs|
  {
    Answered(After(c, rs[..i]), rs[i])
  }

  lemma {:induction false} AfterConcat<K, T>(c: Cache<K, T>, a: seq<Request<K, T>>, b: seq<Request<K, T>>)
    ensures After(c, a + b) == After(After(c, a), b)
    decreases |b|
  {
    if |b| == 0 {
      assert a + b == a;
    } else {
      assert (a + b)[..|a + b| - 1] == a + b[..|b| - 1];
      AfterConcat(c, a, b[..|b| - 1]);
    }
  }

  // ---- What the cache always is ----

  /** Neither generation is over-full, they agree wherever they overlap, and every
      token was minted by a request for exactly its key. */
  ghost predicate Sound<K, T>(c: Cache<K, T>, rs: seq<Request<K, T>>) {
    && |c.live| <= GENERATION && |c.prev| <= GENERATION
    && (forall k :: k in c.live && k in c.prev ==> c.live[k] == c.prev[k])
    && (forall k :: k in c.live ==> Request(k, Ok(c.live[k])) in rs)
    && (forall k :: k in c.prev ==> Request(k, Ok(c.prev[k])) in rs)
  }

  lemma RequestKeepsSound<K, T>(c: Cache<K, T>, rs: seq<Request<K, T>>, r: Request<K, T>)
    requires Sound(c, rs)
    ensures Sound(Answered(c, r).cache, rs + [r])
  {
    assert forall q :: q in rs + [r] <==> q in rs || q == r;
    RequestKeepsSize(c, r);
  }

  lemma {:induction false} CacheIsSound<K, T>(rs: seq<Request<K, T>>)
    ensures Sound(After(Empty(), rs), rs)
    ensures |After(Empty<K, T>(), rs).live| + |After(Empty<K, T>(), rs).prev| <= 2048
  {
    hide Answered;
    if |rs| > 0 {
      var before, r := rs[..|rs| - 1], rs[|rs| - 1];
      CacheIsSound(before);
      RequestKeepsSound(After(Empty(), before), before, r);
      assert rs == before + [r];
    }
  }

  /** Every token handed out was minted for exactly the key it was asked for. */
  lemma TokensAreMintedForTheirKey<K, T>(rs: seq<Request<K, T>>, i: nat)
    requires i < |rs|
    requires AnswerTo(Empty(), rs, i).token.Ok?
    ensures Request(rs[i].key, AnswerTo(Empty(), rs, i).token) in rs[..i + 1]
  {
    CacheIsSound(rs[..i]);
    assert rs[..i + 1] == rs[..i] + [rs[i]];
  }

  // ---- The working set ----

  /** The keys other than k requested in rs. */
  ghost function OtherKeys<K, T>(rs: seq<Request<K, T>>, k: K): set<K> {
    set r | r in rs && r.key != k :: r.key
  }

  /** k's token survives: it is live, or it is in the previous generation and the
      live one holds only what was requested since. */
  ghost predicate Held<K, T>(c: Cache<K, T>, k: K, token: T, since: set<K>) {
    || (k in c.live && c.live[k] == token)
    || (k in c.prev && c.prev[k] == token && c.live.Keys <= since)
  }

  lemma RequestKeepsHeld<K, T>(c: Cache<K, T>, k: K, token: T, r: Request<K, T>, since: set<K>)
    requires Held(c, k, token, since)
    requires k !in since && (r.key == k || r.key in since)
    requires |since| <= GENERATION && |c.live| <= GENERATION
    ensures Held(Answered(c, r).cache, k, token, since)
  {
    if r.key !in c.live && c.live.Keys + {r.key} <= since {
      assert |c.live.Keys + {r.key}| == |c.live| + 1;
      Fewer(c.live.Keys + {r.key}, since);
    }
  }

  lemma HeldSinceMore<K, T>(c: Cache<K, T>, k: K, token: T, since: set<K>, more: set<K>)
    requires Held(c, k, token, since) && since <= more
    ensures Held(c, k, token, more)
  {
  }

  lemma RequestKeepsSize<K, T>(c: Cache<K, T>, r: Request<K, T>)
    requires |c.live| <= GENERATION
    ensures |Answered(c, r).cache.live| <= GENERATION
  {
  }

  lemma {:induction false} StaysHeld<K, T>(c: Cache<K, T>, k: K, token: T, rs: seq<Request<K, T>>)
    requires k in c.live && c.live[k] == token && |c.live| <= GENERATION
    requires |OtherKeys(rs, k)| <= GENERATION
    ensures Held(After(c, rs), k, token, OtherKeys(rs, k)) && |After(c, rs).live| <= GENERATION
    decreases |rs|
  {
    if |rs| > 0 {
      hide Answered, Held;
      var before, r := rs[..|rs| - 1], rs[|rs| - 1];
      assert rs == before + [r];
      assert OtherKeys(rs, k) == OtherKeys(before, k) + if r.key == k then {} else {r.key};
      Fewer(OtherKeys(before, k), OtherKeys(rs, k));
      StaysHeld(c, k, token, before);
      HeldSinceMore(After(c, before), k, token, OtherKeys(before, k), OtherKeys(rs, k));
      RequestKeepsHeld(After(c, before), k, token, r, OtherKeys(rs, k));
      RequestKeepsSize(After(c, before), r);
    }
  }

  lemma Fewer<K>(a: set<K>, b: set<K>)
    requires a <= b
    ensures |a| <= |b|
  {
    assert b == a + (b - a);
  }

  lemma AfterOneMore<K, T>(c: Cache<K, T>, rs: seq<Request<K, T>>, i: nat)
    requires i < |rs|
    ensures After(c, rs[..i + 1]) == AnswerTo(c, rs, i).cache
  {
    assert rs[..i + 1][..i] == rs[..i];
  }

  /** A token just handed out is live. */
  lemma HandedOutIsLive<K, T>(c: Cache<K, T>, r: Request<K, T>)
    requires Answered(c, r).token.Ok?
    ensures var a := Answered(c, r); r.key in a.cache.live && a.cache.live[r.key] == a.token.value
  {
  }

  lemma HeldIsHandedOut<K, T>(c: Cache<K, T>, r: Request<K, T>, token: T, since: set<K>)
    requires Held(c, r.key, token, since) && r.key !in since
    ensures Answered(c, r).token == Ok(token) && !Answered(c, r).minted
  {
  }

  /** Between two requests for a key, with at most 1024 distinct other keys asked
      for, the second gets the token the first got and nothing is minted. */
  lemma WorkingSet<K, T>(rs: seq<Request<K, T>>, i: nat, j: nat)
    requires i < j < |rs| && rs[i].key == rs[j].key
    requires AnswerTo(Empty(), rs, i).token.Ok?
    requires |OtherKeys(rs[i + 1..j], rs[i].key)| <= 1024
    ensures AnswerTo(Empty(), rs, j).token == AnswerTo(Empty(), rs, i).token
    ensures !AnswerTo(Empty(), rs, j).minted
  {
    hide Answered, Held;
    var k, first := rs[i].key, AnswerTo(Empty(), rs, i);
    AfterOneMore(Empty(), rs, i);
    HandedOutIsLive(After(Empty(), rs[..i]), rs[i]);
    CacheIsSound(rs[..i + 1]);
    StaysHeld(first.cache, k, first.token.value, rs[i + 1..j]);
    assert rs[..j] == rs[..i + 1] + rs[i + 1..j];
    AfterConcat(Empty(), rs[..i + 1], rs[i + 1..j]);
    HeldIsHandedOut(After(Empty(), rs[..j]), rs[j], first.token.value, OtherKeys(rs[i + 1..j], k));
  }

  // ---- The bound is exact ----

  /** Requests for the keys a, a + 1, ..., b - 1, each of which could mint. */
  function Fresh(a: nat, b: nat): seq<Request<nat, nat>>
    requires a <= b
  {
    seq(b - a, i requires 0 <= i < b - a => Request(a + i, Ok(a + i)))
  }

  function Upto(a: nat, b: nat): (m: map<nat, nat>)
    ensures forall k :: k in m <==> a <= k < b
  {
    if a >= b then map[] else Upto(a, b - 1)[b - 1 := b - 1]
  }

  lemma {:induction false} UptoSize(a: nat, b: nat)
    requires a <= b
    ensures |Upto(a, b)| == b - a
  {
    if a < b {
      UptoSize(a, b - 1);
    }
  }

  /** New keys fill the live generation in place while there is room. */
  lemma {:induction false} Fills(prev: map<nat, nat>, from: nat, a: nat, b: nat)
    requires from <= a <= b && b - from <= GENERATION
    requires forall k :: k in prev ==> k < a
    ensures After(Cache(Upto(from, a), prev), Fresh(a, b)) == Cache(Upto(from, b), prev)
    decreases b - a
  {
    hide Answered;
    if a < b {
      Fills(prev, from, a, b - 1);
      var rs := Fresh(a, b);
      assert rs[..|rs| - 1] == Fresh(a, b - 1);
      assert rs[|rs| - 1] == Request(b - 1, Ok(b - 1));
      UptoSize(from, b - 1);
      Appends(Cache(Upto(from, b - 1), prev), b - 1);
    }
  }

  lemma Appends(c: Cache<nat, nat>, k: nat)
    requires k !in c.live && k !in c.prev && |c.live| < GENERATION
    ensures Answered(c, Request(k, Ok(k))).cache == c.(live := c.live[k := k])
  {
  }

  /** One key more than the guarantee allows: 1025 distinct other keys between two
      requests for key 0, and the second mints a different token. */
  lemma OneKeyTooMany()
    ensures var others := Fresh(GENERATION, 2 * GENERATION + 1);
      var rs := Fresh(0, GENERATION) + others + [Request(0, Ok(7))];
      && |OtherKeys(others, 0)| == 1025
      && AnswerTo(Empty(), rs, 0).token == Ok(0)
      && AnswerTo(Empty(), rs, |rs| - 1) == Answer(After(Empty(), rs), Ok(7), true)
  {
    var g := GENERATION;
    var first, others := Fresh(0, g), Fresh(g, 2 * g + 1);
    var rs := first + others + [Request(0, Ok(7))];
    assert rs[..|rs| - 1] == first + others;
    Fills(map[], 0, 0, g);
    assert Upto(0, 0) == map[];
    AfterConcat(Empty(), first, others);
    // Key g rotates, 1023 more fill the new generation, and key 2g rotates again.
    assert others == Fresh(g, g + 1) + Fresh(g + 1, 2 * g) + Fresh(2 * g, 2 * g + 1);
    UptoSize(0, g);
    Rotates(Cache(Upto(0, g), map[]), g);
    Fills(Upto(0, g), g, g + 1, 2 * g);
    UptoSize(g, 2 * g);
    Rotates(Cache(Upto(g, 2 * g), Upto(0, g)), 2 * g);
    AfterConcat(Cache(Upto(0, g), map[]), Fresh(g, g + 1), Fresh(g + 1, 2 * g));
    AfterConcat(Cache(Upto(0, g), map[]), Fresh(g, g + 1) + Fresh(g + 1, 2 * g), Fresh(2 * g, 2 * g + 1));
    OthersAre(g, 2 * g + 1);
    assert rs[0] == Request(0, Ok(0)) && rs[..0] == [];
  }

  lemma Rotates(c: Cache<nat, nat>, k: nat)
    requires |c.live| == GENERATION && k !in c.live && k !in c.prev
    ensures After(c, Fresh(k, k + 1)) == Cache(Upto(k, k + 1), c.live)
  {
    assert Fresh(k, k + 1)[..0] == [];
    assert Upto(k, k + 1) == map[k := k];
  }

  lemma OthersAre(a: nat, b: nat)
    requires 0 < a <= b
    ensures |OtherKeys(Fresh(a, b), 0)| == b - a
  {
    var rs := Fresh(a, b);
    forall k | a <= k < b ensures k in OtherKeys(rs, 0) {
      assert rs[k - a] == Request(k, Ok(k));
    }
    assert OtherKeys(rs, 0) == Upto(a, b).Keys;
    UptoSize(a, b);
  }
}
