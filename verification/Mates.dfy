/** Channel pairs are unique, and an event on one pair leaves every other pair alone. */
module Mates {
  import opened Types
  import opened SessionConfig
  import opened Envelope
  import opened Channel
  import opened Endpoint
  import opened Flight
  import opened Direction
  import opened Network
  import opened Links

  ghost predicate Linked(x: Endpoint, y: Endpoint, f: seq<Msg>, g: seq<Msg>) {
    MatesOk(x, y) && MatesOk(y, x) && AnnounceOk(x, y, f) && AnnounceOk(y, x, g)
  }

  /** A channel that knows its peer has no other mate, and its peer has no other mate. */
  lemma MateUnique(x: Endpoint, y: Endpoint, f: seq<Msg>, g: seq<Msg>, c: nat, q: nat, d: nat, p: nat)
    requires Linked(x, y, f, g)
    requires c < |x.chans| && x.chans[c].peer == Some(q)
    requires Mated(x, y, d, p)
    ensures d == c <==> p == q
  {
    assert MateOk(x, y, c);
    if !y.chans[p].opener && y.chans[p].peer == Some(d) && y.chans[p].slot != NoSlot {
      assert MateOk(y, x, p);
    } else {
      assert MateOk(x, y, d);
      if p == q {
        assert Count(g, Announces(q)) + CountPeer(x.chans, q) <= Announced(y, q);
        PeerUnique(x.chans, c, d, q);
      }
    }
  }

  /** Directions f and f' differ at most in what they carry to channel q. */
  ghost predicate OnlyFor(f: seq<Msg>, f': seq<Msg>, q: nat) {
    forall p: nat :: p != q ==>
      && Stream(f', p) == Stream(f, p)
      && Adjusts(f', p) == Adjusts(f, p)
      && Asks(f', Some(p)) == Asks(f, Some(p))
      && Replies(f', Some(p)) == Replies(f, Some(p))
  }

  lemma GrewOnly(f: seq<Msg>, f': seq<Msg>, m: Msg)
    requires Grew(f, f', m) && Addressed(m)
    ensures OnlyFor(f, f', m.to)
  {
    forall p: nat | p != m.to
      ensures Stream(f', p) == Stream(f, p) && Adjusts(f', p) == Adjusts(f, p)
      ensures Asks(f', Some(p)) == Asks(f, Some(p)) && Replies(f', Some(p)) == Replies(f, Some(p))
    {
      GrewPast(f, f', m, p);
    }
  }

  lemma GrewPast(f: seq<Msg>, f': seq<Msg>, m: Msg, p: nat)
    requires Grew(f, f', m) && (Addressed(m) ==> m.to != p)
    ensures Stream(f', p) == Stream(f, p) && Adjusts(f', p) == Adjusts(f, p)
    ensures Asks(f', Some(p)) == Asks(f, Some(p)) && Replies(f', Some(p)) == Replies(f, Some(p))
  {
    Untouched(m, p, Stream(f, p), Stream(f', p), Asks(f, Some(p)), Asks(f', Some(p)), Replies(f, Some(p)), Replies(f', Some(p)));
  }

  /** A message that is not for channel p adds nothing there. */
  lemma Untouched(m: Msg, p: nat, s: seq<Item>, s': seq<Item>, a: multiset<nat>, a': multiset<nat>, r: multiset<nat>, r': multiset<nat>)
    requires Addressed(m) ==> m.to != p
    requires s' == s + StreamOf(m, p) && a' == a + AskOf(m, Some(p)) && r' == r + ReplyOf(m, Some(p))
    ensures s' == s && a' == a && r' == r && AdjustOf(m, p) == 0
  {
  }

  lemma LostOnly(f: seq<Msg>, f': seq<Msg>, m: Msg)
    requires Lost(f, f', m) && Addressed(m)
    ensures OnlyFor(f, f', m.to)
  {
    forall p: nat | p != m.to
      ensures Stream(f', p) == Stream(f, p) && Adjusts(f', p) == Adjusts(f, p)
      ensures Asks(f', Some(p)) == Asks(f, Some(p)) && Replies(f', Some(p)) == Replies(f, Some(p))
    {
      LoseAt(f, f', m, p);
      LostPast(f, f', m, p);
    }
  }

  lemma LostPast(f: seq<Msg>, f': seq<Msg>, m: Msg, p: nat)
    requires LostAt(f, f', m, p) && (Addressed(m) ==> m.to != p)
    ensures Stream(f', p) == Stream(f, p) && Adjusts(f', p) == Adjusts(f, p)
    ensures Asks(f', Some(p)) == Asks(f, Some(p)) && Replies(f', Some(p)) == Replies(f, Some(p))
  {
    assert StreamOf(m, p) == [] && AskOf(m, Some(p)) == multiset{} && ReplyOf(m, Some(p)) == multiset{};
    NoCut(Stream(f, p), Stream(f', p));
  }

  lemma PoppedOnly(g: seq<Msg>, g': seq<Msg>, m: Msg)
    requires Popped(g, g', m) && Addressed(m)
    ensures OnlyFor(g, g', m.to)
  {
    forall p: nat | p != m.to
      ensures Stream(g', p) == Stream(g, p) && Adjusts(g', p) == Adjusts(g, p)
      ensures Asks(g', Some(p)) == Asks(g, Some(p)) && Replies(g', Some(p)) == Replies(g, Some(p))
    {
      PopAt(g, g', m, p);
      PoppedPast(g, g', m, p);
    }
  }

  lemma PoppedPast(g: seq<Msg>, g': seq<Msg>, m: Msg, p: nat)
    requires PoppedAt(g, g', m, p) && (Addressed(m) ==> m.to != p)
    ensures Stream(g', p) == Stream(g, p) && Adjusts(g', p) == Adjusts(g, p)
    ensures Asks(g', Some(p)) == Asks(g, Some(p)) && Replies(g', Some(p)) == Replies(g, Some(p))
  {
    assert StreamOf(m, p) == [] && AskOf(m, Some(p)) == multiset{} && ReplyOf(m, Some(p)) == multiset{};
  }

  lemma SameOnly(f: seq<Msg>, f': seq<Msg>, q: nat)
    requires Same(f, f')
    ensures OnlyFor(f, f', q)
  {
  }

  /** Endpoint x changed channel c only, without gaining a claim on a mate. */
  ghost predicate OnlyChan(x: Endpoint, x': Endpoint, c: nat) {
    && |x'.chans| == |x.chans|
    && c < |x.chans|
    && (forall d :: 0 <= d < |x.chans| && d != c ==> x'.chans[d] == x.chans[d])
    && x'.chans[c].opener == x.chans[c].opener
    && x'.chans[c].peer == x.chans[c].peer
    && (x.chans[c].spoiled ==> x'.chans[c].spoiled)
    && (x.chans[c].slot == NoSlot ==> x'.chans[c].slot == NoSlot)
  }

  /** If the pair of c and q comes out right, all pairs do. */
  lemma PairsFrame(cfg: Config, x: Endpoint, x': Endpoint, y: Endpoint,
                   f: seq<Msg>, f': seq<Msg>, g: seq<Msg>, g': seq<Msg>, c: nat, q: nat)
    requires PairsOk(cfg, x, y, f, g) && Linked(x, y, f, g)
    requires OnlyChan(x, x', c) && x.chans[c].peer == Some(q)
    requires OnlyFor(f, f', q) && OnlyFor(g, g', c)
    requires Mated(x', y, c, q) ==> PairOk(cfg, x', y, f', g', c, q)
    ensures PairsOk(cfg, x', y, f', g')
  {
    forall d: nat, p: nat | Mated(x', y, d, p) ensures PairOk(cfg, x', y, f', g', d, p) {
      assert Mated(x, y, d, p);
      MateUnique(x, y, f, g, c, q, d, p);
      if d != c {
        assert PairOk(cfg, x, y, f, g, d, p);
        assert ViewOf(x'.chans[d], y.chans[p], d, p, f', g') == ViewOf(x.chans[d], y.chans[p], d, p, f, g);
        assert ViewOf(y.chans[p], x'.chans[d], p, d, g', f') == ViewOf(y.chans[p], x.chans[d], p, d, g, f);
      }
    }
  }

  /** Directions f and f' carry the same to every channel. */
  ghost predicate Alike(f: seq<Msg>, f': seq<Msg>) {
    forall p: nat ::
      && Stream(f', p) == Stream(f, p)
      && Adjusts(f', p) == Adjusts(f, p)
      && Asks(f', Some(p)) == Asks(f, Some(p))
      && Replies(f', Some(p)) == Replies(f, Some(p))
  }

  /** The same when channel c is out of the game, or nothing was sent. */
  lemma PairsQuiet(cfg: Config, x: Endpoint, x': Endpoint, y: Endpoint,
                   f: seq<Msg>, f': seq<Msg>, g: seq<Msg>, g': seq<Msg>, c: nat)
    requires PairsOk(cfg, x, y, f, g) && OnlyChan(x, x', c) && Alike(f, f') && Alike(g, g')
    requires forall p: nat :: Mated(x', y, c, p) ==> PairOk(cfg, x', y, f', g', c, p)
    ensures PairsOk(cfg, x', y, f', g')
  {
    forall d: nat, p: nat | Mated(x', y, d, p) ensures PairOk(cfg, x', y, f', g', d, p) {
      if d != c {
        assert Mated(x, y, d, p);
        PairAlike(cfg, x, x', y, f, f', g, g', d, p);
      }
    }
  }

  lemma PairAlike(cfg: Config, x: Endpoint, x': Endpoint, y: Endpoint,
                  f: seq<Msg>, f': seq<Msg>, g: seq<Msg>, g': seq<Msg>, d: nat, p: nat)
    requires d < |x.chans| && d < |x'.chans| && p < |y.chans| && PairOk(cfg, x, y, f, g, d, p)
    requires Alike(f, f') && Alike(g, g') && x'.chans[d] == x.chans[d]
    ensures PairOk(cfg, x', y, f', g', d, p)
  {
    assert ViewOf(x'.chans[d], y.chans[p], d, p, f', g') == ViewOf(x.chans[d], y.chans[p], d, p, f, g);
    assert ViewOf(y.chans[p], x'.chans[d], p, d, g', f') == ViewOf(y.chans[p], x.chans[d], p, d, g, f);
  }

  /** Pairs when no channel changed. */
  lemma PairsAlike(cfg: Config, x: Endpoint, x': Endpoint, y: Endpoint,
                   f: seq<Msg>, f': seq<Msg>, g: seq<Msg>, g': seq<Msg>)
    requires PairsOk(cfg, x, y, f, g) && Alike(f, f') && Alike(g, g') && x'.chans == x.chans
    ensures PairsOk(cfg, x', y, f', g')
  {
    forall d: nat, p: nat | Mated(x', y, d, p) ensures PairOk(cfg, x', y, f', g', d, p) {
      assert Mated(x, y, d, p);
      PairAlike(cfg, x, x', y, f, f', g, g', d, p);
    }
  }
}
