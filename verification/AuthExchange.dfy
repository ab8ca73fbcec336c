/**
 The signed authentication exchange between any number of clients and servers, with an adversary who
 owns the network, chooses every message, and can sign with every key that is not honest.
 */
module AuthExchange {
  import opened Types
  import opened Protobuf

  // ----- deterministic protobuf encoding of messages whose fields are all byte strings

  function FieldTag(number: nat): byte
    requires number <= 15
  {
    8 * number + 2
  }

  /** One length-delimited field; proto3 leaves an empty one out. */
  function FieldBytes(number: nat, value: Bytes): Bytes
    requires number <= 15
  {
    if value == [] then [] else [FieldTag(number)] + Varint(|value|) + value
  }

  /** The fields numbered from `number` on, in order. */
  function Message(number: nat, fields: seq<Bytes>): Bytes
    requires number + |fields| <= 16
    decreases |fields|
  {
    if fields == [] then [] else FieldBytes(number, fields[0]) + Message(number + 1, fields[1..])
  }

  /** A message starts with the tag of one of its own fields. */
  lemma {:induction false} FirstTag(number: nat, fields: seq<Bytes>)
    requires number + |fields| <= 16
    ensures Message(number, fields) == [] || Message(number, fields)[0] >= 8 * number + 2
    decreases |fields|
  {
    if fields != [] {
      FirstTag(number + 1, fields[1..]);
    }
  }

  /** The first field can be read off the front. */
  lemma FieldSplits(number: nat, a: Bytes, b: Bytes, x: Bytes, y: Bytes)
    requires number <= 15 && a != [] && b != [] && FieldBytes(number, a) + x == FieldBytes(number, b) + y
    ensures a == b && x == y
  {
    TagOff(FieldTag(number), Varint(|a|), a, x);
    TagOff(FieldTag(number), Varint(|b|), b, y);
    VarintRoundTrip(|a|, a + x);
    VarintRoundTrip(|b|, b + y);
    assert (a + x)[..|a|] == a && (b + y)[..|b|] == b && (a + x)[|a|..] == x && (b + y)[|b|..] == y;
  }

  lemma TagOff(tag: byte, size: Bytes, value: Bytes, rest: Bytes)
    ensures ([tag] + size + value + rest)[1..] == size + (value + rest)
  {
  }

  lemma FieldStarts(number: nat, value: Bytes, rest: Bytes)
    requires number <= 15 && value != []
    ensures FieldBytes(number, value) + rest != [] && (FieldBytes(number, value) + rest)[0] == FieldTag(number)
  {
  }

  /** The first fields agree, and so do the rests, which start with later tags. */
  lemma HeadsAgree(number: nat, a: Bytes, b: Bytes, x: Bytes, y: Bytes)
    requires number <= 15 && FieldBytes(number, a) + x == FieldBytes(number, b) + y
    requires (x != [] ==> x[0] > FieldTag(number)) && (y != [] ==> y[0] > FieldTag(number))
    ensures a == b && x == y
  {
    if a != [] && b != [] {
      FieldSplits(number, a, b, x, y);
    } else {
      if a != [] {
        FieldStarts(number, a, x);
      }
      if b != [] {
        FieldStarts(number, b, y);
      }
      assert [] + x == x && [] + y == y;
    }
  }

  lemma MessageStep(number: nat, a: seq<Bytes>, b: seq<Bytes>)
    requires |a| == |b| && a != [] && number + |a| <= 16 && Message(number, a) == Message(number, b)
    ensures a[0] == b[0] && Message(number + 1, a[1..]) == Message(number + 1, b[1..])
  {
    FirstTag(number + 1, a[1..]);
    FirstTag(number + 1, b[1..]);
    MessageHead(number, a);
    MessageHead(number, b);
    HeadsAgree(number, a[0], b[0], Message(number + 1, a[1..]), Message(number + 1, b[1..]));
  }

  lemma MessageHead(number: nat, a: seq<Bytes>)
    requires a != [] && number + |a| <= 16
    ensures Message(number, a) == FieldBytes(number, a[0]) + Message(number + 1, a[1..])
  {
  }

  lemma SameLists(a: seq<Bytes>, b: seq<Bytes>)
    requires |a| == |b| && a != [] && a[0] == b[0] && a[1..] == b[1..]
    ensures a == b
  {
    assert a == [a[0]] + a[1..] && b == [b[0]] + b[1..];
  }

  /** Different field values give different messages. */
  lemma {:induction false} MessageInjective(number: nat, a: seq<Bytes>, b: seq<Bytes>)
    requires |a| == |b| && number + |a| <= 16 && Message(number, a) == Message(number, b)
    ensures a == b
    decreases |a|
  {
    if a != [] {
      MessageStep(number, a, b);
      MessageInjective(number + 1, a[1..], b[1..]);
      SameLists(a, b);
    }
  }

  // ----- what is hashed and signed

  datatype Init = Init(version: Bytes, nonce: Bytes, identity: Bytes)

  function InitBytes(init: Init): Bytes {
    Message(1, [init.version, init.nonce, init.identity])
  }

  function ServerAuthBytes(hostKey: Bytes, nonce: Bytes): Bytes {
    Message(1, [hostKey, nonce, []])
  }

  /** "mygosh-auth-v1" */
  const VERSION: Bytes := [109, 121, 103, 111, 115, 104, 45, 97, 117, 116, 104, 45, 118, 49]
  /** "mygosh-server-auth-to-sign-v1" and "mygosh-client-auth-to-sign-v1" */
  const SERVER_CONTEXT: Bytes := [109, 121, 103, 111, 115, 104, 45, 115, 101, 114, 118, 101, 114, 45, 97, 117, 116, 104, 45, 116, 111, 45, 115, 105, 103, 110, 45, 118, 49]
  const CLIENT_CONTEXT: Bytes := [109, 121, 103, 111, 115, 104, 45, 99, 108, 105, 101, 110, 116, 45, 97, 117, 116, 104, 45, 116, 111, 45, 115, 105, 103, 110, 45, 118, 49]

  type Hash = Bytes -> Bytes

  function ServerPayload(hash: Hash, binding: Bytes, init: Init, hostKey: Bytes, nonce: Bytes): Bytes {
    Message(1, [SERVER_CONTEXT, binding, hash(InitBytes(init)), hostKey, nonce, [], []])
  }

  function ClientPayload(hash: Hash, binding: Bytes, init: Init, hostKey: Bytes, nonce: Bytes,
                         username: Bytes, key: Bytes, alg: Bytes): Bytes
  {
    Message(1, [CLIENT_CONTEXT, binding, hash(InitBytes(init)), hash(ServerAuthBytes(hostKey, nonce)), username, key, alg])
  }

  lemma ContextsDiffer()
    ensures SERVER_CONTEXT != CLIENT_CONTEXT
  {
    assert SERVER_CONTEXT[7] != CLIENT_CONTEXT[7];
  }

  /** No payload of one role is a payload of the other, whatever the hash does. */
  lemma RolesApart(hash: Hash, s: Server, c: Client)
    requires c.stage.Signed?
    ensures PayloadOfServer(hash, s) != PayloadOfClient(hash, c)
  {
    ContextsDiffer();
    var a := [SERVER_CONTEXT, s.binding, hash(InitBytes(s.init)), s.hostKey, s.nonce, [], []];
    var b := [CLIENT_CONTEXT, c.binding, hash(InitBytes(c.init)), hash(ServerAuthBytes(c.stage.hostKey, c.stage.nonce)),
              c.username, c.stage.key, c.stage.alg];
    assert a[0] != b[0];
    if Message(1, a) == Message(1, b) {
      MessageInjective(1, a, b);
    }
  }

  // ----- the parties

  datatype ClientStage = Asked | Signed(hostKey: Bytes, nonce: Bytes, key: Bytes, alg: Bytes)

  /** authenticateClient up to the client's own signature. */
  datatype Client = Client(binding: Bytes, init: Init, username: Bytes, stage: ClientStage)

  datatype ServerStage = Answered | Verified(username: Bytes, key: Bytes, alg: Bytes)

  /** verifyClient from the answer to the verdict. */
  datatype Server = Server(binding: Bytes, init: Init, hostKey: Bytes, nonce: Bytes, stage: ServerStage)

  /** Honest sessions and the signatures made with honest keys. */
  datatype World = World(clients: seq<Client>, servers: seq<Server>, signed: set<(Bytes, Bytes)>)

  const START := World([], [], {})

  function PayloadOfServer(hash: Hash, s: Server): Bytes {
    ServerPayload(hash, s.binding, s.init, s.hostKey, s.nonce)
  }

  function PayloadOfClient(hash: Hash, c: Client): Bytes
    requires c.stage.Signed?
  {
    ClientPayload(hash, c.binding, c.init, c.stage.hostKey, c.stage.nonce, c.username, c.stage.key, c.stage.alg)
  }

  /** What the server reconstructs from a client's request. */
  function Expected(hash: Hash, s: Server, username: Bytes, key: Bytes, alg: Bytes): Bytes {
    ClientPayload(hash, s.binding, s.init, s.hostKey, s.nonce, username, key, alg)
  }

  /** The adversary has a signature that verifies: of a key it owns, or one that was really made. */
  predicate Verifies(honest: set<Bytes>, w: World, key: Bytes, payload: Bytes) {
    key !in honest || (key, payload) in w.signed
  }

  datatype Step =
    | ClientAsks(binding: Bytes, nonce: Bytes, identity: Bytes, username: Bytes)
    | ServerAnswers(binding: Bytes, init: Init, hostKey: Bytes, nonce: Bytes)
    | ClientSigns(i: nat, hostKey: Bytes, nonce: Bytes, key: Bytes, alg: Bytes)
    | ServerVerifies(j: nat, username: Bytes, key: Bytes, alg: Bytes)

  /** Nonces are fresh; everything else on the network is the adversary's choice. */
  predicate Possible(hash: Hash, honest: set<Bytes>, w: World, t: Step) {
    match t
    case ClientAsks(_, nonce, _, _) => forall i :: 0 <= i < |w.clients| ==> w.clients[i].init.nonce != nonce
    case ServerAnswers(_, init, _, nonce) =>
      init.version == VERSION && forall j :: 0 <= j < |w.servers| ==> w.servers[j].nonce != nonce
    case ClientSigns(i, hostKey, nonce, _, _) =>
      && i < |w.clients| && w.clients[i].stage.Asked?
      && Verifies(honest, w, hostKey, ServerPayload(hash, w.clients[i].binding, w.clients[i].init, hostKey, nonce))
    case ServerVerifies(j, username, key, alg) =>
      && j < |w.servers| && w.servers[j].stage.Answered?
      && Verifies(honest, w, key, Expected(hash, w.servers[j], username, key, alg))
  }

  function Next(hash: Hash, honest: set<Bytes>, w: World, t: Step): World
    requires Possible(hash, honest, w, t)
  {
    match t
    case ClientAsks(binding, nonce, identity, username) =>
      w.(clients := w.clients + [Client(binding, Init(VERSION, nonce, identity), username, Asked)])
    case ServerAnswers(binding, init, hostKey, nonce) =>
      var s := Server(binding, init, hostKey, nonce, Answered);
      w.(servers := w.servers + [s], signed := w.signed + {(hostKey, PayloadOfServer(hash, s))})
    case ClientSigns(i, hostKey, nonce, key, alg) =>
      var c := w.clients[i].(stage := Signed(hostKey, nonce, key, alg));
      w.(clients := w.clients[i := c], signed := w.signed + {(key, PayloadOfClient(hash, c))})
    case ServerVerifies(j, username, key, alg) =>
      w.(servers := w.servers[j := w.servers[j].(stage := Verified(username, key, alg))])
  }

  predicate Run(hash: Hash, honest: set<Bytes>, trace: seq<World>, steps: seq<Step>) {
    && |trace| == |steps| + 1 && trace[0] == START
    && forall i :: 0 <= i < |steps| ==> Moves(hash, honest, trace[i], steps[i], trace[i + 1])
  }

  predicate Moves(hash: Hash, honest: set<Bytes>, w: World, t: Step, w': World) {
    Possible(hash, honest, w, t) && w' == Next(hash, honest, w, t)
  }

  // ----- the invariant

  predicate MadeByClient(hash: Hash, w: World, key: Bytes, payload: Bytes, i: nat) {
    i < |w.clients| && w.clients[i].stage.Signed? && w.clients[i].stage.key == key && PayloadOfClient(hash, w.clients[i]) == payload
  }

  predicate MadeByServer(hash: Hash, w: World, key: Bytes, payload: Bytes, j: nat) {
    j < |w.servers| && w.servers[j].hostKey == key && PayloadOfServer(hash, w.servers[j]) == payload
  }

  /** Every signature was made by somebody's session for just that purpose. */
  ghost predicate Accounted(hash: Hash, w: World) {
    forall key, payload :: (key, payload) in w.signed ==>
      (exists i: nat :: MadeByClient(hash, w, key, payload, i)) || (exists j: nat :: MadeByServer(hash, w, key, payload, j))
  }

  predicate NoncesFresh(w: World) {
    forall i, j :: 0 <= i < j < |w.servers| ==> w.servers[i].nonce != w.servers[j].nonce
  }

  /** Who was verified had a signature that verifies. */
  predicate VerdictsSound(hash: Hash, honest: set<Bytes>, w: World) {
    forall j :: 0 <= j < |w.servers| && w.servers[j].stage.Verified? ==>
      var v := w.servers[j].stage; Verifies(honest, w, v.key, Expected(hash, w.servers[j], v.username, v.key, v.alg))
  }

  predicate TrustSound(hash: Hash, honest: set<Bytes>, w: World) {
    forall i :: 0 <= i < |w.clients| && w.clients[i].stage.Signed? ==>
      var c := w.clients[i]; Verifies(honest, w, c.stage.hostKey, ServerPayload(hash, c.binding, c.init, c.stage.hostKey, c.stage.nonce))
  }

  ghost predicate Inv(hash: Hash, honest: set<Bytes>, w: World) {
    Accounted(hash, w) && NoncesFresh(w) && VerdictsSound(hash, honest, w) && TrustSound(hash, honest, w)
  }

  lemma AccountedStep(hash: Hash, honest: set<Bytes>, w: World, t: Step)
    requires Accounted(hash, w) && Possible(hash, honest, w, t)
    ensures Accounted(hash, Next(hash, honest, w, t))
  {
    var w' := Next(hash, honest, w, t);
    forall key, payload | (key, payload) in w'.signed
      ensures (exists i: nat :: MadeByClient(hash, w', key, payload, i)) || (exists j: nat :: MadeByServer(hash, w', key, payload, j))
    {
      if (key, payload) in w.signed {
        if i: nat :| MadeByClient(hash, w, key, payload, i) {
          assert MadeByClient(hash, w', key, payload, i);
        } else {
          var j: nat :| MadeByServer(hash, w, key, payload, j);
          assert MadeByServer(hash, w', key, payload, j);
        }
      } else if t.ClientSigns? {
        assert MadeByClient(hash, w', key, payload, t.i);
      } else {
        assert MadeByServer(hash, w', key, payload, |w.servers|);
      }
    }
  }

  lemma StepKeeps(hash: Hash, honest: set<Bytes>, w: World, t: Step, w': World)
    requires Inv(hash, honest, w) && Moves(hash, honest, w, t, w')
    ensures Inv(hash, honest, w')
  {
    AccountedStep(hash, honest, w, t);
  }

  lemma {:induction false} RunKeeps(hash: Hash, honest: set<Bytes>, trace: seq<World>, steps: seq<Step>, i: nat)
    requires Run(hash, honest, trace, steps) && i < |trace|
    ensures Inv(hash, honest, trace[i])
  {
    if i > 0 {
      RunKeeps(hash, honest, trace, steps, i - 1);
      StepKeeps(hash, honest, trace[i - 1], steps[i - 1], trace[i]);
    }
  }

  // ----- agreement

  /** Everything the sessions of this world ever hash. */
  predicate Hashed(w: World, x: Bytes) {
    || (exists i :: 0 <= i < |w.clients| && x == InitBytes(w.clients[i].init))
    || (exists i :: 0 <= i < |w.clients| && w.clients[i].stage.Signed? && x == ServerAuthBytes(w.clients[i].stage.hostKey, w.clients[i].stage.nonce))
    || (exists j :: 0 <= j < |w.servers| && (x == InitBytes(w.servers[j].init) || x == ServerAuthBytes(w.servers[j].hostKey, w.servers[j].nonce)))
  }

  /** The hash confuses nothing that is hashed here. */
  ghost predicate NoCollision(hash: Hash, w: World) {
    forall x, y :: Hashed(w, x) && Hashed(w, y) && hash(x) == hash(y) ==> x == y
  }

  /** Client i and server j have the same view of the exchange that server j accepted. */
  predicate Agree(w: World, i: nat, j: nat) {
    && i < |w.clients| && j < |w.servers| && w.clients[i].stage.Signed? && w.servers[j].stage.Verified?
    && var c, s := w.clients[i], w.servers[j];
       && c.binding == s.binding && c.init == s.init && c.stage.hostKey == s.hostKey && c.stage.nonce == s.nonce
       && c.username == s.stage.username && c.stage.key == s.stage.key && c.stage.alg == s.stage.alg
  }

  lemma SameView(hash: Hash, w: World, i: nat, j: nat)
    requires NoCollision(hash, w) && i < |w.clients| && j < |w.servers| && w.clients[i].stage.Signed? && w.servers[j].stage.Verified?
    requires var v := w.servers[j].stage; PayloadOfClient(hash, w.clients[i]) == Expected(hash, w.servers[j], v.username, v.key, v.alg)
    ensures Agree(w, i, j)
  {
    var c, s := w.clients[i], w.servers[j];
    var x, y := InitBytes(c.init), InitBytes(s.init);
    var p, q := ServerAuthBytes(c.stage.hostKey, c.stage.nonce), ServerAuthBytes(s.hostKey, s.nonce);
    var a := [CLIENT_CONTEXT, c.binding, hash(x), hash(p), c.username, c.stage.key, c.stage.alg];
    var b := [CLIENT_CONTEXT, s.binding, hash(y), hash(q), s.stage.username, s.stage.key, s.stage.alg];
    MessageInjective(1, a, b);
    SameFields(a, b);
    assert Hashed(w, x) && Hashed(w, y) && Hashed(w, p) && Hashed(w, q);
    assert x == y && p == q;
    SamePreimages(c.init, s.init, c.stage.hostKey, c.stage.nonce, s.hostKey, s.nonce);
  }

  lemma SameFields(a: seq<Bytes>, b: seq<Bytes>)
    requires a == b
    ensures forall k :: 0 <= k < |a| ==> a[k] == b[k]
  {
  }

  lemma SamePreimages(i: Init, j: Init, k: Bytes, n: Bytes, l: Bytes, m: Bytes)
    requires InitBytes(i) == InitBytes(j) && ServerAuthBytes(k, n) == ServerAuthBytes(l, m)
    ensures i == j && k == l && n == m
  {
    var a, b := [i.version, i.nonce, i.identity], [j.version, j.nonce, j.identity];
    MessageInjective(1, a, b);
    SameFields(a, b);
    assert a[0] == i.version && a[1] == i.nonce && a[2] == i.identity && b[0] == j.version && b[1] == j.nonce && b[2] == j.identity;
    var c, d := [k, n, []], [l, m, []];
    MessageInjective(1, c, d);
    SameFields(c, d);
    assert c[0] == k && c[1] == n && d[0] == l && d[1] == m;
  }

  /**
   Whenever a server accepts an honest key, a client session signed with that key and agrees with the
   server on channel binding, opening message, host key, nonce, user and algorithm.
   */
  lemma ClientAgreement(hash: Hash, honest: set<Bytes>, trace: seq<World>, steps: seq<Step>, k: nat, j: nat) returns (i: nat)
    requires Run(hash, honest, trace, steps) && k < |trace| && NoCollision(hash, trace[k])
    requires j < |trace[k].servers| && trace[k].servers[j].stage.Verified? && trace[k].servers[j].stage.key in honest
    ensures Agree(trace[k], i, j)
  {
    var w := trace[k];
    RunKeeps(hash, honest, trace, steps, k);
    i := FindClient(hash, honest, w, j);
    SameView(hash, w, i, j);
  }

  lemma FindClient(hash: Hash, honest: set<Bytes>, w: World, j: nat) returns (i: nat)
    requires Inv(hash, honest, w) && j < |w.servers| && w.servers[j].stage.Verified? && w.servers[j].stage.key in honest
    ensures i < |w.clients| && w.clients[i].stage.Signed?
    ensures var v := w.servers[j].stage; PayloadOfClient(hash, w.clients[i]) == Expected(hash, w.servers[j], v.username, v.key, v.alg)
  {
    var v := w.servers[j].stage;
    var payload := Expected(hash, w.servers[j], v.username, v.key, v.alg);
    assert (v.key, payload) in w.signed;
    if m: nat :| MadeByServer(hash, w, v.key, payload, m) {
      RolesApart(hash, w.servers[m], Client(w.servers[j].binding, w.servers[j].init, v.username,
                                            Signed(w.servers[j].hostKey, w.servers[j].nonce, v.key, v.alg)));
    }
    i :| MadeByClient(hash, w, v.key, payload, i);
  }

  /** No client session stands behind two accepted server sessions. */
  lemma AgreementInjective(hash: Hash, honest: set<Bytes>, trace: seq<World>, steps: seq<Step>, k: nat, i: nat, j: nat, m: nat)
    requires Run(hash, honest, trace, steps) && k < |trace| && Agree(trace[k], i, j) && Agree(trace[k], i, m)
    ensures j == m
  {
    RunKeeps(hash, honest, trace, steps, k);
  }

  /** Whenever a client signs after checking an honest host key, that server answered this very opening. */
  lemma ServerAgreement(hash: Hash, honest: set<Bytes>, trace: seq<World>, steps: seq<Step>, k: nat, i: nat) returns (j: nat)
    requires Run(hash, honest, trace, steps) && k < |trace| && NoCollision(hash, trace[k])
    requires i < |trace[k].clients| && trace[k].clients[i].stage.Signed? && trace[k].clients[i].stage.hostKey in honest
    ensures j < |trace[k].servers|
    ensures var c, s := trace[k].clients[i], trace[k].servers[j];
            c.binding == s.binding && c.init == s.init && c.stage.hostKey == s.hostKey && c.stage.nonce == s.nonce
  {
    var w := trace[k];
    RunKeeps(hash, honest, trace, steps, k);
    j := FindServer(hash, honest, w, i);
    SameAnswer(hash, w, i, j);
  }

  lemma FindServer(hash: Hash, honest: set<Bytes>, w: World, i: nat) returns (j: nat)
    requires Inv(hash, honest, w) && i < |w.clients| && w.clients[i].stage.Signed? && w.clients[i].stage.hostKey in honest
    ensures j < |w.servers|
    ensures var c := w.clients[i]; PayloadOfServer(hash, w.servers[j]) == ServerPayload(hash, c.binding, c.init, c.stage.hostKey, c.stage.nonce)
  {
    var c := w.clients[i];
    var payload := ServerPayload(hash, c.binding, c.init, c.stage.hostKey, c.stage.nonce);
    assert (c.stage.hostKey, payload) in w.signed;
    if m: nat :| MadeByClient(hash, w, c.stage.hostKey, payload, m) {
      RolesApart(hash, Server(c.binding, c.init, c.stage.hostKey, c.stage.nonce, Answered), w.clients[m]);
    }
    j :| MadeByServer(hash, w, c.stage.hostKey, payload, j);
  }

  lemma SameAnswer(hash: Hash, w: World, i: nat, j: nat)
    requires NoCollision(hash, w) && i < |w.clients| && j < |w.servers| && w.clients[i].stage.Signed?
    requires var c := w.clients[i]; PayloadOfServer(hash, w.servers[j]) == ServerPayload(hash, c.binding, c.init, c.stage.hostKey, c.stage.nonce)
    ensures var c, s := w.clients[i], w.servers[j];
            c.binding == s.binding && c.init == s.init && c.stage.hostKey == s.hostKey && c.stage.nonce == s.nonce
  {
    var c, s := w.clients[i], w.servers[j];
    var x, y := InitBytes(c.init), InitBytes(s.init);
    var a := [SERVER_CONTEXT, s.binding, hash(y), s.hostKey, s.nonce, [], []];
    var b := [SERVER_CONTEXT, c.binding, hash(x), c.stage.hostKey, c.stage.nonce, [], []];
    MessageInjective(1, a, b);
    SameFields(a, b);
    assert Hashed(w, x) && Hashed(w, y);
    SamePreimages(c.init, s.init, [], [], [], []);
  }
}
