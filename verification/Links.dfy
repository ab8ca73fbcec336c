/** How ordinary traffic, closing and the writer keep the channel tables and messages in step. */
module Links {
  import opened Types
  import opened SessionConfig
  import opened Envelope
  import opened Channel
  import opened Endpoint
  import opened Flight
  import opened Network

  // ----- counting peers

  lemma {:induction false} PeerConcat(a: seq<Chan>, b: seq<Chan>, q: nat)
    ensures CountPeer(a + b, q) == CountPeer(a, q) + CountPeer(b, q)
  {
    if a == [] {
      assert a + b == b;
    } else {
      assert (a + b)[1..] == a[1..] + b;
      PeerConcat(a[1..], b, q);
    }
  }

  lemma {:induction false} PeerSame(a: seq<Chan>, b: seq<Chan>, q: nat)
    requires |a| == |b| && forall i :: 0 <= i < |a| ==> a[i].peer == b[i].peer
    ensures CountPeer(a, q) == CountPeer(b, q)
  {
    if a != [] {
      PeerSame(a[1..], b[1..], q);
    }
  }

  lemma PeerUpdate(chans: seq<Chan>, i: nat, ch: Chan, q: nat)
    requires i < |chans|
    ensures CountPeer(chans[i := ch], q) + (if chans[i].peer == Some(q) then 1 else 0)
         == CountPeer(chans, q) + (if ch.peer == Some(q) then 1 else 0)
  {
    var a, b := chans[..i], chans[i + 1..];
    assert chans == a + ([chans[i]] + b) && chans[i := ch] == a + ([ch] + b);
    PeerConcat(a, [chans[i]] + b, q);
    PeerConcat(a, [ch] + b, q);
    assert ([chans[i]] + b)[1..] == b && ([ch] + b)[1..] == b;
  }

  lemma PeerFound(chans: seq<Chan>, i: nat, q: nat)
    requires i < |chans| && chans[i].peer == Some(q)
    ensures CountPeer(chans, q) > 0
  {
    PeerUpdate(chans, i, chans[i], q);
    assert chans == chans[..i] + ([chans[i]] + chans[i + 1..]);
    PeerConcat(chans[..i], [chans[i]] + chans[i + 1..], q);
  }

  lemma PeerUnique(chans: seq<Chan>, i: nat, j: nat, q: nat)
    requires CountPeer(chans, q) <= 1
    requires i < |chans| && j < |chans| && chans[i].peer == Some(q) && chans[j].peer == Some(q)
    ensures i == j
  {
    if i != j {
      var none := chans[i].(peer := None);
      PeerUpdate(chans, i, none, q);
      PeerFound(chans[i := none], j, q);
    }
  }

  // ----- channels change

  /** b is a after an event that can only take claims away; y is the other endpoint. */
  predicate Calm(a: Chan, b: Chan, y: Endpoint) {
    && b.opener == a.opener && b.peer == a.peer && b.live == a.live
    && (a.spoiled ==> b.spoiled)
    && (a.slot == NoSlot ==> b.slot == NoSlot)
    && (b.openWait ==> a.openWait)
    && (a.openWait && !b.openWait ==> b.peer.None?)
    && (!a.opener ==> (a.state.Opening? <==> b.state.Opening?))
    && (!a.opener && !a.live ==> b.slot == a.slot)
    && (!b.spoiled ==>
          && b.openWait == a.openWait
          && (b.slot == a.slot || (b.peer.Some? && b.peer.value < |y.chans| && y.chans[b.peer.value].spoiled)))
  }

  ghost predicate AllCalm(x: Endpoint, x': Endpoint, y: Endpoint) {
    && |x'.chans| == |x.chans|
    && x'.dispatch == x.dispatch
    && forall c :: 0 <= c < |x.chans| ==> Calm(x.chans[c], x'.chans[c], y)
  }

  lemma CalmSpeaks(x: Endpoint, x': Endpoint, y: Endpoint)
    requires AllCalm(x, x', y)
    ensures forall c: nat, q: nat :: Speaks(x', c, q) <==> Speaks(x, c, q)
  {
  }

  lemma CalmPeers(x: Endpoint, x': Endpoint, y: Endpoint)
    requires AllCalm(x, x', y)
    ensures forall q: nat :: CountPeer(x'.chans, q) == CountPeer(x.chans, q)
  {
    forall q: nat ensures CountPeer(x'.chans, q) == CountPeer(x.chans, q) { PeerSame(x'.chans, x.chans, q); }
  }

  /** The side of the changed endpoint. */
  lemma CalmOwn(x: Endpoint, x': Endpoint, y: Endpoint, xy: seq<Msg>, f: seq<Msg>, g: seq<Msg>)
    requires LinksOk(x, y, xy, f, g) && AllCalm(x, x', y)
    ensures LinksOk(x', y, xy, f, g)
  {
    CalmSpeaks(x, x', y);
    assert AnnounceOk(x', y, f) by {
      forall c: nat ensures Count(f, Announces(c)) + CountPeer(y.chans, c) <= Announced(x', c) {
        assert Announced(x', c) == Announced(x, c);
      }
    }
    assert TokensOk(x', y, f, g) by {
      forall c: nat ensures TokenOk(x', c, Tokens(y, f, g, c)) {
        assert TokenOk(x, c, Tokens(y, f, g, c));
      }
    }
    assert MatesOk(x', y) by {
      forall c | 0 <= c < |x'.chans| && x'.chans[c].peer.Some? ensures MateOk(x', y, c) {
        assert MateOk(x, y, c);
      }
    }
  }

  /** The side of the other endpoint. */
  lemma CalmOther(x: Endpoint, x': Endpoint, y: Endpoint, yx: seq<Msg>, f: seq<Msg>, g: seq<Msg>)
    requires LinksOk(y, x, yx, g, f) && AllCalm(x, x', y)
    ensures LinksOk(y, x', yx, g, f)
  {
    CalmPeers(x, x', y);
    assert AnnounceOk(y, x', g);
    assert TokensOk(y, x', g, f) by {
      forall c: nat ensures TokenOk(y, c, Tokens(x', g, f, c)) {
        assert TokenOk(y, c, Tokens(x, g, f, c));
      }
    }
    assert MatesOk(y, x') by {
      forall c | 0 <= c < |y.chans| && y.chans[c].peer.Some? ensures MateOk(y, x', c) {
        assert MateOk(y, x, c);
      }
    }
  }

  // ----- messages come and go

  /** Queueing a message for a channel whose mate the application holds. */
  lemma GrewOwn(x: Endpoint, y: Endpoint, xy: seq<Msg>, f: seq<Msg>, f': seq<Msg>, g: seq<Msg>, m: Msg, c: nat)
    requires LinksOk(x, y, xy, f, g) && Grew(f, f', m)
    requires Addressed(m) && Speaks(x, c, m.to)
    requires m.Close? ==> forall d: nat :: Speaks(x, d, m.to) && m.to < |y.chans| ==> x.chans[d].spoiled || y.chans[m.to].spoiled
    ensures LinksOk(x, y, xy, f', g)
  {
    forall q: nat | Count(f', For(q)) > 0 ensures exists d: nat :: Speaks(x, d, q) {
      assert Count(f', For(q)) == Count(f, For(q)) + CountOf(m, For(q));
    }
    forall d: nat ensures TokenOk(x, d, Tokens(y, f', g, d)) {
      assert Count(f', Opens(d)) == Count(f, Opens(d)) + CountOf(m, Opens(d));
      assert TokenOk(x, d, Tokens(y, f, g, d));
    }
    forall d: nat ensures Count(f', Announces(d)) + CountPeer(y.chans, d) <= Announced(x, d) {
      assert Count(f', Announces(d)) == Count(f, Announces(d)) + CountOf(m, Announces(d));
    }
    forall d: nat, q: nat | Speaks(x, d, q) && q < |y.chans| && Count(f', Closes(q)) > 0
      ensures x.chans[d].spoiled || y.chans[q].spoiled
    {
      assert Count(f', Closes(q)) == Count(f, Closes(q)) + CountOf(m, Closes(q));
    }
  }

  lemma GrewOther(x: Endpoint, y: Endpoint, yx: seq<Msg>, f: seq<Msg>, f': seq<Msg>, g: seq<Msg>, m: Msg)
    requires LinksOk(y, x, yx, g, f) && Grew(f, f', m)
    requires forall d :: !Has(m, Answers(d))
    ensures LinksOk(y, x, yx, g, f')
  {
    forall d: nat ensures TokenOk(y, d, Tokens(x, g, f', d)) {
      assert Count(f', Answers(d)) == Count(f, Answers(d)) + CountOf(m, Answers(d));
      assert TokenOk(y, d, Tokens(x, g, f, d));
    }
  }

  /** Taking a queued data frame or request back. */
  lemma LostOwn(x: Endpoint, y: Endpoint, xy: seq<Msg>, f: seq<Msg>, f': seq<Msg>, g: seq<Msg>, m: Msg)
    requires LinksOk(x, y, xy, f, g) && Lost(f, f', m) && Addressed(m)
    ensures LinksOk(x, y, xy, f', g)
  {
    FewerOwn(x, y, xy, f, f', g, m);
  }

  /** What m contributes is gone from the direction; m opens and answers nothing. */
  lemma FewerOwn(x: Endpoint, y: Endpoint, xy: seq<Msg>, f: seq<Msg>, f': seq<Msg>, g: seq<Msg>, m: Msg)
    requires LinksOk(x, y, xy, f, g)
    requires forall k :: Count(f, k) == Count(f', k) + CountOf(m, k)
    requires forall z :: z in f' ==> z in f
    requires forall d :: !Has(m, Opens(d)) && !Has(m, Announces(d))
    ensures LinksOk(x, y, xy, f', g)
  {
    forall q: nat | Count(f', For(q)) > 0 ensures exists d: nat :: Speaks(x, d, q) {
      assert Count(f, For(q)) >= Count(f', For(q));
    }
    forall d: nat ensures TokenOk(x, d, Tokens(y, f', g, d)) {
      assert Count(f, Opens(d)) == Count(f', Opens(d)) + CountOf(m, Opens(d));
      assert TokenOk(x, d, Tokens(y, f, g, d));
    }
    forall d: nat ensures Count(f', Announces(d)) + CountPeer(y.chans, d) <= Announced(x, d) {
      assert Count(f, Announces(d)) == Count(f', Announces(d)) + CountOf(m, Announces(d));
    }
    forall d: nat, q: nat | Speaks(x, d, q) && q < |y.chans| && Count(f', Closes(q)) > 0
      ensures x.chans[d].spoiled || y.chans[q].spoiled
    {
      assert Count(f, Closes(q)) >= Count(f', Closes(q));
    }
  }

  lemma FewerOther(x: Endpoint, y: Endpoint, yx: seq<Msg>, f: seq<Msg>, f': seq<Msg>, g: seq<Msg>, m: Msg)
    requires LinksOk(y, x, yx, g, f)
    requires forall k :: Count(f, k) == Count(f', k) + CountOf(m, k)
    requires forall d :: !Has(m, Answers(d))
    ensures LinksOk(y, x, yx, g, f')
  {
    forall d: nat ensures TokenOk(y, d, Tokens(x, g, f', d)) {
      assert Count(f, Answers(d)) == Count(f', Answers(d)) + CountOf(m, Answers(d));
      assert TokenOk(y, d, Tokens(x, g, f, d));
    }
  }

  lemma SameOther(x: Endpoint, y: Endpoint, yx: seq<Msg>, f: seq<Msg>, f': seq<Msg>, g: seq<Msg>)
    requires LinksOk(y, x, yx, g, f) && Same(f, f')
    ensures LinksOk(y, x, yx, g, f')
  {
    forall d: nat ensures TokenOk(y, d, Tokens(x, g, f', d)) {
      assert TokenOk(y, d, Tokens(x, g, f, d));
    }
  }

  lemma SameOwn(x: Endpoint, y: Endpoint, xy: seq<Msg>, f: seq<Msg>, f': seq<Msg>, g: seq<Msg>)
    requires LinksOk(x, y, xy, f, g) && Same(f, f')
    ensures LinksOk(x, y, xy, f', g)
  {
    forall d: nat ensures TokenOk(x, d, Tokens(y, f', g, d)) {
      assert TokenOk(x, d, Tokens(y, f, g, d));
    }
  }

  // ----- the wire

  lemma {:induction false} OpenFirstAppend(ms: seq<Msg>, m: Msg, q: nat)
    requires OpenFirst(ms, q) && Count(ms, Answers(q)) > 0
    ensures OpenFirst(ms + [m], q)
  {
    assert (ms + [m])[0] == ms[0];
    if !Has(ms[0], Answers(q)) {
      assert (ms + [m])[1..] == ms[1..] + [m];
      OpenFirstAppend(ms[1..], m, q);
    }
  }

  lemma {:induction false} OpenFirstQuiet(ms: seq<Msg>, m: Msg, q: nat)
    requires Count(ms, For(q)) == 0 && Has(m, Answers(q))
    ensures OpenFirst(ms + [m], q)
  {
    if ms != [] {
      assert (ms + [m])[0] == ms[0] && (ms + [m])[1..] == ms[1..] + [m];
      OpenFirstQuiet(ms[1..], m, q);
    } else {
      assert ms + [m] == [m];
    }
  }

  /** Putting a message at the end of the wire. */
  lemma WireAppend(x: Endpoint, y: Endpoint, xy: seq<Msg>, f: seq<Msg>, g: seq<Msg>, m: Msg)
    requires LinksOk(x, y, xy, f, g)
    requires m.OpenOk? ==> m.sender < |x.chans| && x.chans[m.sender].live
    ensures LinksOk(x, y, xy + [m], f, g)
  {
    forall c: nat, q: nat | Speaks(x, c, q) && !x.chans[c].opener && q < |y.chans| && y.chans[q].openWait
      ensures OpenFirst(xy + [m], q) && Count(xy + [m], Answers(q)) > 0
    {
      OpenFirstAppend(xy, m, q);
      CountConcat(xy, [m], Answers(q));
    }
  }

  /** Taking the head off the wire, when it answers no open that is still awaited. */
  lemma WireTail(x: Endpoint, y: Endpoint, xy: seq<Msg>, f: seq<Msg>, g: seq<Msg>)
    requires LinksOk(x, y, xy, f, g) && xy != []
    requires forall q: nat :: Has(xy[0], Answers(q)) && q < |y.chans| ==> !y.chans[q].openWait
    ensures LinksOk(x, y, xy[1..], f, g)
  {
    forall c: nat, q: nat | Speaks(x, c, q) && !x.chans[c].opener && q < |y.chans| && y.chans[q].openWait
      ensures OpenFirst(xy[1..], q) && Count(xy[1..], Answers(q)) > 0
    {
      assert !Has(xy[0], Answers(q));
    }
  }
}
