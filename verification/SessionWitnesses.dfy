/** Runs of toy sessions that reach what the theorems speak of. */
module SessionWitnesses {
  import opened Wrappers
  import opened Bytes
  import opened Primitives
  import opened SymmetricRatchet
  import opened DhRatchet
  import opened MessageFormat
  import opened Schedule
  import opened TripleRatchet
  import opened HeaderRing
  import opened TripleParty
  import opened TripleDelivery
  import opened TripleProtocol
  import opened TripleGuarantees
  import opened PqStall
  import opened ToySuite

  // ---------------------------------------------------------------
  // The history of a toy session
  // ---------------------------------------------------------------

  /** The number of an epoch's header key: the first two are exchanged. */
  function HeaderNumber(e: nat): (n: nat) {
    if e < 2 then 1 - e else e
  }

  ghost predicate ToyHistory(g: History) {
    && g.s == Toy() && Sound(g) && |g.secrets| + 3 < U64
    && (forall e: nat :: e < |g.secrets| ==> g.secrets[e] == Num(e) && g.roots[e] == Num(e + 2))
    && (forall e: nat :: 0 < e < |g.seeds| ==> g.seeds[e] == Num(e + 2))
    && (forall e: nat :: e < |g.headerKeys| ==> g.headerKeys[e] == Num(HeaderNumber(e)))
  }

  lemma ToyDerivation(n: nat, a: Bytes, b: Bytes)
    requires DhLaw(Toy()) && DeriveLaw(Toy()) && n < U64
    ensures Derivation(Toy(), Num(n), a, b) == RootOutput(Num(n + 1), Num(n + 1), Num(n + 1))
  {
    hide Clip, Mix, Num;
    NumValue(n);
    var next := Num(n + 1);
    var out := next + next + next;
    Parts(next, next, next);
    assert out[64..96] == out[64..];
    assert Derive(Toy(), Num(n), SharedSecret(Toy(), a, PublicKey(Toy(), b)).value, DhRootInfo, 96) == out;
  }

  const SETUP: Setup := Setup(Num(0), Num(0), Num(1), [])

  lemma ToyInitialKeys()
    requires DeriveLaw(Toy())
    ensures SessionRoot(Toy(), []) == Num(2)
    ensures InitialHeaderKey(Toy(), [], 0) == Num(0) && InitialHeaderKey(Toy(), [], 1) == Num(1)
    ensures InitialHeaderKey(Toy(), [], 2) == Num(2)
  {
    hide Num;
    Parts(Num(0), Num(1), Num(2));
  }

  lemma ToyInitialHistory()
    requires Lawful(Toy())
    ensures ToyHistory(InitialHistory(Toy(), [], SETUP))
  {
    hide Toy, Num, Derivation, SessionRoot, InitialHeaderKey;
    ToyInitialKeys();
    ToyDerivation(2, Num(0), Num(1));
  }

  /** Message keys tell epochs apart. */
  lemma ToyMessageKey(g: History, e: nat, n: nat)
    requires ToyHistory(g) && 0 < e < |g.seeds|
    ensures MessageKeyOf(g, e, n) == Num(e + 2)
  {
    ToyKeyAt(Num(e + 2), n);
  }

  lemma ToyMessageKeys(g: History)
    requires ToyHistory(g)
    ensures DistinctMessageKeys(g)
  {
    hide Num, MessageKeyOf;
    forall e: nat, e': nat, n: nat | 0 < e < e' < |g.seeds| && n < U32
      ensures MessageKeyOf(g, e, n) != MessageKeyOf(g, e', n)
    {
      ToyMessageKey(g, e, n);
      ToyMessageKey(g, e', n);
      NumInjective(e + 2, e' + 2);
    }
  }

  /** No key of a toy session opens what another one sealed. */
  lemma ToySeparated(g: History, m: Sent)
    requires ToyHistory(g) && Sealed(g, m)
    ensures Separated(g, m)
  {
    hide Num, Toy, MessageKeyOf, HeaderOk;
    var h := Seal(g.s, g.headerKeys[m.epoch], m.coins.headerNonce, EncodeHeader(m.header), []);
    ToyMessageKey(g, m.epoch, m.header.number);
    forall e: nat | e < |g.headerKeys| && e != m.epoch
      ensures Open(g.s, g.headerKeys[e], m.wire.headerNonce, m.wire.header, []) == None
    {
      NumInjective(HeaderNumber(e), HeaderNumber(m.epoch));
      ToyOpens(g.headerKeys[m.epoch], g.headerKeys[e], m.coins.headerNonce, EncodeHeader(m.header), []);
    }
    forall e: nat | 0 < e < |g.seeds| && e != m.epoch
      ensures Open(g.s, MessageKeyOf(g, e, m.header.number), m.wire.bodyNonce, m.wire.body, m.wire.header) == None
    {
      ToyMessageKey(g, e, m.header.number);
      NumInjective(e + 2, m.epoch + 2);
      ToyOpens(Num(m.epoch + 2), Num(e + 2), m.coins.bodyNonce, m.plaintext, h);
    }
  }

  lemma ToyCounted(g: History, e: nat)
    requires ToyHistory(g) && 0 < e < |g.counts| && g.counts[e] + 1 < U32
    ensures ToyHistory(Counted(g, e))
  {
    hide Num, Toy;
  }

  /** The next number is a fresh ratchet secret. */
  lemma ToyExtended(g: History)
    requires Lawful(Toy()) && ToyHistory(g) && Derived(g) && |g.secrets| + 4 < U64
    ensures ToyHistory(Extended(g, Num(|g.secrets|))) && FreshEpoch(g, Num(|g.secrets|))
  {
    hide Num, Toy, Derivation;
    var n := |g.secrets|;
    var g' := Extended(g, Num(n));
    ExtendedSound(g, Num(n));
    ToyDerivation(n + 1, g.secrets[n - 1], Num(n));
    forall i | 0 <= i < n ensures PublicKey(g.s, Num(n)) != PublicKey(g.s, g.secrets[i]) {
      ToyPublic(n);
      ToyPublic(i);
      NumInjective(n, i);
    }
    assert ToyHistory(g');
    ToyMessageKeys(g');
  }

  // ---------------------------------------------------------------
  // Single steps
  // ---------------------------------------------------------------

  const COINS: SendCoins := SendCoins([], [], [], [])

  /** The slot a full toy cache gives up, which it never holds. */
  const NO_SLOT: Slot := ([], 0)

  function Coins(g: History): (c: ReceiveCoins) {
    ReceiveCoins(Num(|g.secrets|), Num(1), _ => NO_SLOT)
  }

  /** A toy world in which the theorems apply. */
  ghost predicate ToyWorld(w: World) {
    Inv(w) && ToyHistory(w.g) && Lawful(Toy()) && |w.g.secrets| + 4 < U64
  }

  /** Sending: the message is the next one of the sender's epoch; nothing else of the world changes. */
  lemma SendStep(w: World, from: Side)
    requires ToyWorld(w) && CanSend(w.Of(from).t)
    requires w.Of(from).epoch < |w.g.counts| && w.g.counts[w.Of(from).epoch] + 1 < U32
    ensures Allowed(w, Send(from, [], COINS)) && Encrypt(w.g.s, w.Of(from).t, [], COINS).1.Ok?
    ensures var p, w' := w.Of(from), Next(w, Send(from, [], COINS));
            var p' := w'.Of(from);
            var m := NewMessage(w.g.s, p, [], COINS);
            && ToyWorld(w') && w'.g == Counted(w.g, p.epoch) && w'.Of(Peer(from)) == w.Of(Peer(from))
            && m.epoch == p.epoch && m.header.number == w.g.counts[p.epoch]
            && p' == p.(t := p'.t, outbox := p.outbox + [m])
            && p'.t == Encrypt(w.g.s, p.t, [], COINS).0 && p'.t.cache == p.t.cache && p'.t.dh.recv == p.t.dh.recv
  {
    hide Encrypt, NewMessage, Sealed, Separated, SessionOk, OutboxOk, ToyHistory, Lawful, Toy, HistoryOk;
    var g, p := w.g, w.Of(from);
    SendStepFacts(g, p);
    ToyCounted(g, p.epoch);
    EncryptMeaning(g.s, p.t, [], COINS);
    NextInv(w, Send(from, [], COINS));
  }

  lemma SendStepFacts(g: History, p: Party)
    requires HistoryOk(g) && PartyOk(g, p) && ToyHistory(g) && CanSend(p.t)
    requires p.epoch < |g.counts| && g.counts[p.epoch] + 1 < U32
    ensures 0 < p.epoch && DhLaw(g.s) && DeriveLaw(g.s) && Encrypt(g.s, p.t, [], COINS).1.Ok?
    ensures var m := NewMessage(g.s, p, [], COINS);
            Separated(g, m) && m.epoch == p.epoch && m.header.number == g.counts[p.epoch]
  {
    hide Encrypt, NewMessage, Sealed, Separated, OutboxOk, Toy, Num, DistinctMessageKeys, Derived, CacheOk;
    hide Accounted, RingAt;
    SentSealed(g, p, [], COINS);
    ToyCounted(g, p.epoch);
    var m := NewMessage(g.s, p, [], COINS);
    ToySeparated(Counted(g, p.epoch), m);
    UncountedSeparated(g, m, p.epoch);
  }

  lemma UncountedSeparated(g: History, m: Sent, e: nat)
    requires e < |g.counts| && Separated(Counted(g, e), m)
    ensures Separated(g, m)
  {
    forall x: nat, n: nat | x < |g.seeds| ensures MessageKeyOf(Counted(g, e), x, n) == MessageKeyOf(g, x, n) {
    }
  }

  /** Delivering any message is allowed. */
  lemma DeliverAllowed(w: World, to: Side, index: nat)
    requires ToyWorld(w) && index < |w.Of(Peer(to)).outbox|
    ensures DhLaw(w.g.s) && DeriveLaw(w.g.s) && Allowed(w, Deliver(to, index, Coins(w.g)))
    ensures ToyHistory(Extended(w.g, Coins(w.g).dhSecret))
  {
    hide ToyHistory, Lawful, Toy, Separated, Sealed, SessionOk, Num, FreshEpoch;
    ToySuiteOf(w.g);
    ToyExtended(w.g);
    SeparatedOutbox(w.g, w.alice);
    SeparatedOutbox(w.g, w.bob);
  }

  lemma ToySuiteOf(g: History)
    requires ToyHistory(g)
    ensures g.s == Toy()
  {
  }

  lemma SeparatedOutbox(g: History, p: Party)
    requires HistoryOk(g) && PartyOk(g, p) && ToyHistory(Extended(g, Num(|g.secrets|)))
    ensures AllSeparated(Extended(g, Num(|g.secrets|)), p.outbox)
  {
    hide Toy, Separated, Sealed, SessionOk, Num, Extended, Derived, DistinctMessageKeys;
    forall m | m in p.outbox ensures Separated(Extended(g, Num(|g.secrets|)), m) {
      SealedStable(g, Num(|g.secrets|), m);
      ToySeparated(Extended(g, Num(|g.secrets|)), m);
    }
  }

  lemma SealedStable(g: History, newSecret: Bytes, m: Sent)
    requires Sound(g) && DhLaw(g.s) && DeriveLaw(g.s) && Sealed(g, m) && Sound(Extended(g, newSecret))
    ensures Sealed(Extended(g, newSecret), m)
  {
    hide SealMessage, HeaderOk, Derivation;
  }

  /** Delivering a message in the window: it is decrypted, and a new epoch entered if it opens one. */
  lemma DeliverStep(w: World, to: Side, index: nat)
    requires ToyWorld(w) && index < |w.Of(Peer(to)).outbox| && w.Of(to).epoch < |w.g.secrets|
    requires InWindow(w.g, w.Of(to).t, w.Of(to).epoch, w.Of(Peer(to)).outbox[index]) && |w.g.secrets| + 5 < U64
    ensures DhLaw(w.g.s) && DeriveLaw(w.g.s) && Allowed(w, Deliver(to, index, Coins(w.g)))
    ensures var p, m := w.Of(to), w.Of(Peer(to)).outbox[index];
            var w' := Next(w, Deliver(to, index, Coins(w.g)));
            var p', moves := w'.Of(to), m.epoch == p.epoch + 1;
            && ToyWorld(w') && w'.g == (if moves then Extended(w.g, Coins(w.g).dhSecret) else w.g)
            && w'.Of(Peer(to)) == w.Of(Peer(to)) && p'.epoch == (if moves then p.epoch + 2 else p.epoch)
            && p'.got == p.got + {(m.epoch, m.header.number)} && p'.lost == p.lost && p'.outbox == p.outbox
            && ReceivedCount(p'.t.dh) == m.header.number + 1
            && p'.t == Decrypt(w.g.s, p.t, m.wire, Coins(w.g)).0
            && (InSequence(w.g, p.t, p.epoch, m) ==> p'.t.cache == p.t.cache)
  {
    hide Inv, ToyHistory, Lawful, Toy, Decrypt, Extended, FreshEpoch, AllSeparated, Genuine, Deliverable;
    hide InSequence, RestTooLong;
    hide LostAfter, SessionOk, Coins;
    var p, m := w.Of(to), w.Of(Peer(to)).outbox[index];
    DeliverAllowed(w, to, index);
    InvParts(w, to);
    DeliveredFromPeer(w, to, m);
    DeliveredSeparated(w, to, index, Coins(w.g));
    SessionParts(w.g, p);
    DecryptInWindow(w.g, p.t, p.epoch, p.got, p.lost, m, Coins(w.g));
    OwnSeparated(w, to, index, Coins(w.g));
    ReceiveOk(w.g, p, m, Coins(w.g));
    InOrderNotMisread(w.g, p, m);
    NextInv(w, Deliver(to, index, Coins(w.g)));
    ExtendedSize(w.g, Coins(w.g).dhSecret);
  }

  lemma OwnSeparated(w: World, to: Side, index: nat, coins: ReceiveCoins)
    requires Inv(w) && Allowed(w, Deliver(to, index, coins))
    ensures AllSeparated(Extended(w.g, coins.dhSecret), w.Of(to).outbox)
  {
    hide AllSeparated, Extended, FreshEpoch, PartyOk, HistoryOk;
  }

  lemma InOrderNotMisread(g: History, p: Party, m: Sent)
    requires HistoryOk(g) && PartyOk(g, p) && FromPeer(g, p.epoch, m)
    requires (m.epoch == p.epoch + 1 || m.epoch + 1 == p.epoch)
    ensures LostAfter(g.s, p.t, p.epoch, p.got, p.lost, m) == p.lost
  {
    hide Misread, Genuine, OutboxOk, CacheOk, Accounted;
    if Misread(g.s, p.t, m) {
      MisreadEpoch(g, p.t, p.epoch, m);
    }
  }

  // ---------------------------------------------------------------
  // Runs
  // ---------------------------------------------------------------

  /** The events lead from one world to the other. */
  ghost predicate Leads(w: World, evs: seq<Event>, w': World) {
    && DhLaw(w.g.s) && DeriveLaw(w.g.s) && 0 < |w.g.secrets| == |w.g.roots|
    && AllowedRun(w, evs) && Run(w, evs) == w'
  }

  lemma LeadsNowhere(w: World)
    requires DhLaw(w.g.s) && DeriveLaw(w.g.s) && 0 < |w.g.secrets| == |w.g.roots|
    ensures Leads(w, [], w)
  {
  }

  /** One event more in front. */
  lemma LeadsFirst(w: World, ev: Event, evs: seq<Event>, w': World)
    requires DhLaw(w.g.s) && DeriveLaw(w.g.s) && 0 < |w.g.secrets| == |w.g.roots|
    requires Allowed(w, ev) && Leads(Next(w, ev), evs, w')
    ensures Leads(w, [ev] + evs, w')
  {
    hide Allowed, Next;
    assert ([ev] + evs)[1..] == evs;
  }

  lemma {:induction false} LeadsOn(w: World, evs: seq<Event>, w': World, evs': seq<Event>, w'': World)
    requires Leads(w, evs, w') && Leads(w', evs', w'')
    ensures Leads(w, evs + evs', w'')
    decreases |evs|
  {
    hide Allowed, Next;
    if evs == [] {
      assert evs + evs' == evs';
    } else {
      LeadsOn(Next(w, evs[0]), evs[1..], w', evs', w'');
      LeadsFirst(w, evs[0], evs[1..] + evs', w'');
      assert [evs[0]] + (evs[1..] + evs') == evs + evs';
    }
  }

  /** The party ahead has sent nothing in its epoch yet, and no chain is long. */
  ghost predicate Ahead(w: World, from: Side) {
    && ToyWorld(w) && w.Of(from).epoch + 1 == |w.g.secrets|
    && w.g.counts[w.Of(from).epoch] == 0 && (forall e :: 0 <= e < |w.g.counts| ==> w.g.counts[e] <= 2)
  }

  ghost predicate Ready(w: World, v: Intervals, from: Side) {
    Ahead(w, from) && Quiet(w, v) && v.Stalling()
  }

  /** The second message of every past epoch was sent and never delivered, and nothing is lost. */
  ghost predicate SecondsOpen(w: World) {
    && w.alice.lost == {} && w.bob.lost == {}
    && (forall x :: x in w.alice.got + w.bob.got ==> x.1 == 0)
    && (forall e: nat :: 0 < e && e + 1 < |w.g.secrets| ==> SecondSent(w, e))
  }

  ghost predicate SecondSent(w: World, e: nat) {
    exists m :: m in w.Of(if e % 2 == 1 then Alice else Bob).outbox && m.epoch == e && m.header.number == 1
  }

  /** After two messages of the party ahead. */
  ghost predicate TwoSent(w: World, w2: World, v: Intervals, from: Side, first: Sent, second: Sent) {
    var p := w.Of(from);
    && p.epoch < |w.g.counts| && w2.g == CountedTwice(w.g, p.epoch) && w2.Of(Peer(from)) == w.Of(Peer(from))
    && first.epoch == p.epoch == second.epoch && first.header.number == 0 && second.header.number == 1
    && w2.Of(from) == p.(t := w2.Of(from).t, outbox := p.outbox + [first] + [second])
    && w2.Of(from).t.cache == p.t.cache && w2.Of(from).t.dh.recv == p.t.dh.recv
    && ToyWorld(w2) && Quiet(w2, v)
  }

  function CountedTwice(g: History, e: nat): (g': History)
    requires e < |g.counts|
  {
    Counted(Counted(g, e), e)
  }

  lemma SendTwo(w: World, v: Intervals, from: Side) returns (evs: seq<Event>, w2: World, first: Sent, second: Sent)
    requires Ready(w, v, from) && w.Of(from).epoch < v.Last()
    ensures Leads(w, evs, w2) && TwoSent(w, w2, v, from, first, second) && IntervalsKept(evs)
  {
    hide Allowed, Next, Inv, Encrypt, NewMessage, ToyHistory, Lawful, Toy, Quiet, CanSend;
    var p, send := w.Of(from), Send(from, [], COINS);
    InvLaws(w);
    ReadySends(w, v, from);
    SendStep(w, from);
    NextQuiet(w, v, send);
    var w1 := Next(w, send);
    first := NewMessage(w.g.s, p, [], COINS);
    InvLaws(w1);
    StillSends(w1, v, from);
    SendStep(w1, from);
    NextQuiet(w1, v, send);
    w2 := Next(w1, send);
    second := NewMessage(w1.g.s, w1.Of(from), [], COINS);
    InvLaws(w2);
    LeadsNowhere(w2);
    LeadsFirst(w1, send, [], w2);
    LeadsFirst(w, send, [send] + [], w2);
    evs := [send] + ([send] + []);
  }

  lemma ReadySends(w: World, v: Intervals, from: Side)
    requires Ready(w, v, from) && w.Of(from).epoch < v.Last()
    ensures CanSend(w.Of(from).t) && w.Of(from).epoch < |w.g.counts|
  {
    hide ToyHistory, Lawful, PartyOk, HistoryOk;
    QuietStalled(w, v);
    InvParts(w, from);
    AheadStarted(w, from);
  }

  lemma AheadStarted(w: World, from: Side)
    requires Inv(w) && w.Of(from).epoch + 1 == |w.g.secrets|
    ensures 0 < w.Of(from).epoch < |w.g.counts|
  {
    hide PartyOk, Derived, DistinctMessageKeys, DistinctPublics;
  }

  lemma StillSends(w: World, v: Intervals, from: Side)
    requires Inv(w) && Quiet(w, v) && v.Stalling() && w.Of(from).epoch + 1 == |w.g.secrets|
    requires w.Of(from).epoch < v.Last()
    ensures CanSend(w.Of(from).t)
  {
    hide PartyOk, HistoryOk, Quiet;
    QuietStalled(w, v);
    AheadStarted(w, from);
  }

  /** A turn: the party ahead has sent two messages, the other has read the first and is now ahead. */
  ghost predicate Turned(w: World, w': World, v: Intervals, from: Side, first: Sent, second: Sent) {
    var p, q := w.Of(from), w.Of(Peer(from));
    var p', q' := w'.Of(from), w'.Of(Peer(from));
    && first.epoch == p.epoch == second.epoch && first.header.number == 0 && second.header.number == 1
    && p' == p.(t := p'.t, outbox := p.outbox + [first] + [second])
    && q' == q.(t := q'.t, epoch := p.epoch + 1, got := q.got + {(p.epoch, 0)})
    && p'.t.cache == p.t.cache && p'.t.dh.recv == p.t.dh.recv && ReceivedCount(q'.t.dh) == 1
    && |w'.g.secrets| == |w.g.secrets| + 1
    && (ReadToEnd(w.g, q) ==> q'.t.cache == q.t.cache)
    && Ready(w', v, Peer(from)) && p.epoch < |w'.g.counts| && w'.g.counts[p.epoch] == 2
    && |w.g.counts| < |w'.g.counts| && (forall e :: 0 <= e < |w.g.counts| && e != p.epoch ==>
        w'.g.counts[e] == w.g.counts[e])
  }

  /** The party has read all there is of the epoch it receives. */
  ghost predicate ReadToEnd(g: History, q: Party) {
    q.epoch < 2 || (q.epoch - 1 < |g.counts| && g.counts[q.epoch - 1] <= ReceivedCount(q.t.dh))
  }

  /** The event that reads the first of two messages just sent. */
  function ReadFirst(w2: World, from: Side): (ev: Event)
    requires |w2.Of(from).outbox| >= 2
  {
    Deliver(Peer(from), |w2.Of(from).outbox| - 2, Coins(w2.g))
  }

  lemma FirstRead(w: World, w2: World, v: Intervals, from: Side, first: Sent, second: Sent)
    requires Ready(w, v, from) && TwoSent(w, w2, v, from, first, second) && |w.g.secrets| + 6 < U64
    ensures DhLaw(w2.g.s) && DeriveLaw(w2.g.s) && 0 < |w2.g.secrets| == |w2.g.roots|
    ensures Allowed(w2, ReadFirst(w2, from)) && Turned(w, Next(w2, ReadFirst(w2, from)), v, from, first, second)
  {
    hide Allowed, Next, Inv, ToyHistory, Lawful, Toy, Quiet, Decrypt, Coins, Extended;
    var p, q, index := w.Of(from), w.Of(Peer(from)), |w.Of(from).outbox|;
    Neighbour(w, from);
    Sizes(w);
    Sizes(w2);
    InvLaws(w2);
    assert w2.Of(from).outbox[index] == first;
    ShortRest(w2.g, q.t, q.epoch);
    DeliverStep(w2, Peer(from), index);
    NextQuiet(w2, v, ReadFirst(w2, from));
    var w' := Next(w2, ReadFirst(w2, from));
    ExtendedCounts(w2.g, Coins(w2.g).dhSecret);
    Sizes(w');
    if ReadToEnd(w.g, q) {
      assert NothingLeft(w2.g, q.t, q.epoch);
    }
    assert Ready(w', v, Peer(from));
  }

  lemma Sizes(w: World)
    requires Inv(w)
    ensures Sound(w.g) && |w.g.counts| == |w.g.secrets|
  {
  }

  lemma Turn(w: World, v: Intervals, from: Side) returns (evs: seq<Event>, w': World, first: Sent, second: Sent)
    requires Ready(w, v, from) && w.Of(from).epoch < v.Last() && |w.g.secrets| + 6 < U64
    ensures Leads(w, evs, w') && Turned(w, w', v, from, first, second) && IntervalsKept(evs)
  {
    hide Allowed, Next, Inv, ToyHistory, Lawful, Toy, Quiet, Turned, Ready;
    var evs1, w2: World;
    evs1, w2, first, second := SendTwo(w, v, from);
    FirstRead(w, w2, v, from, first, second);
    w' := Next(w2, ReadFirst(w2, from));
    LeadsNowhere(w');
    LeadsFirst(w2, ReadFirst(w2, from), [], w');
    LeadsOn(w, evs1, w2, [ReadFirst(w2, from)] + [], w');
    evs := evs1 + ([ReadFirst(w2, from)] + []);
  }

  lemma Neighbour(w: World, from: Side)
    requires Inv(w) && w.Of(from).epoch + 1 == |w.g.secrets|
    ensures w.Of(Peer(from)).epoch + 1 == w.Of(from).epoch && Peer(Peer(from)) == from
  {
    hide PartyOk, HistoryOk;
  }

  lemma ShortRest(g: History, t: Triple, j: nat)
    requires j < |g.counts| && forall e :: 0 <= e < |g.counts| ==> g.counts[e] <= 2
    ensures !RestTooLong(g, t, j)
  {
  }

  lemma ExtendedCounts(g: History, newSecret: Bytes)
    requires DhLaw(g.s) && DeriveLaw(g.s) && 0 < |g.secrets| == |g.roots|
    ensures Extended(g, newSecret).counts == g.counts + [0] && |Extended(g, newSecret).secrets| == |g.secrets| + 1
  {
  }

  // ---------------------------------------------------------------
  // Long runs
  // ---------------------------------------------------------------

  lemma SecondsStayOpen(w: World, w': World, v: Intervals, from: Side, first: Sent, second: Sent)
    requires Ready(w, v, from) && Turned(w, w', v, from, first, second) && SecondsOpen(w)
    ensures SecondsOpen(w')
  {
    hide Ready, ToyWorld, Quiet, Inv;
    AheadSide(w, v, from);
    forall e: nat | 0 < e && e + 1 < |w'.g.secrets| ensures SecondSent(w', e) {
      var owner := if e % 2 == 1 then Alice else Bob;
      if e == w.Of(from).epoch {
        assert second in w'.Of(owner).outbox;
      } else {
        assert SecondSent(w, e);
        var m :| m in w.Of(owner).outbox && m.epoch == e && m.header.number == 1;
        assert m in w'.Of(owner).outbox;
      }
    }
  }

  lemma AheadSide(w: World, v: Intervals, from: Side)
    requires Ready(w, v, from)
    ensures from == (if w.Of(from).epoch % 2 == 1 then Alice else Bob) && w.Of(from).epoch + 1 == |w.g.secrets|
  {
    hide ToyHistory, Lawful, Quiet, PartyOk, HistoryOk;
  }

  /** n turns, as long as nobody stalls. */
  lemma {:induction false} Climb(w: World, v: Intervals, from: Side,
                                 n: nat) returns (evs: seq<Event>, w': World, ahead: Side)
    requires Ready(w, v, from) && SecondsOpen(w)
    requires |w.g.secrets| + n + 5 < U64 && w.Of(from).epoch + n <= v.Last()
    ensures Leads(w, evs, w') && IntervalsKept(evs)
    ensures Ready(w', v, ahead) && SecondsOpen(w') && |w'.g.secrets| == |w.g.secrets| + n
    decreases n
  {
    hide Ready, ToyWorld, Quiet, Inv, SecondsOpen, Leads;
    AheadSide(w, v, from);
    if n == 0 {
      evs, w', ahead := [], w, from;
      ReadyLeads(w, v, from);
    } else {
      var evs1, w1: World, first, second := Turn(w, v, from);
      SecondsStayOpen(w, w1, v, from, first, second);
      var evs2;
      TurnedAhead(w, w1, v, from, first, second);
      evs2, w', ahead := Climb(w1, v, Peer(from), n - 1);
      LeadsOn(w, evs1, w1, evs2, w');
      evs := evs1 + evs2;
    }
  }

  lemma ReadyLeads(w: World, v: Intervals, from: Side)
    requires Ready(w, v, from)
    ensures Leads(w, [], w)
  {
    hide ToyHistory, Lawful, Quiet, Inv;
    InvLaws(w);
    LeadsNowhere(w);
  }

  lemma TurnedAhead(w: World, w': World, v: Intervals, from: Side, first: Sent, second: Sent)
    requires Turned(w, w', v, from, first, second)
    ensures Ready(w', v, Peer(from)) && w'.Of(Peer(from)).epoch == w.Of(from).epoch + 1
    ensures |w'.g.secrets| == |w.g.secrets| + 1
  {
    hide Ready;
  }

  /** The toy session with both intervals set. */
  ghost function Started(v: Intervals): (w: World)
    requires Lawful(Toy()) && Start(Toy(), [], SETUP).Ok?
  {
    Next(Next(Start(Toy(), [], SETUP).value, Setting(v)[0]), Setting(v)[1])
  }

  lemma StartedAhead(v: Intervals)
    ensures Lawful(Toy()) && Laws(Toy()) && GoodSetup(Toy(), [], SETUP) && Start(Toy(), [], SETUP).Ok?
    ensures Ahead(Started(v), Alice) && |Started(v).g.secrets| == 2
    ensures Started(v).alice.epoch == 1 && Started(v).alice.t.cache == map[] && Started(v).bob.t.cache == map[]
    ensures Started(v).alice.got == {} && Started(v).bob.got == {} && Started(v).bob.epoch == 0
    ensures ReadToEnd(Started(v).g, Started(v).alice) && ReadToEnd(Started(v).g, Started(v).bob)
  {
    hide Toy, Num, InitialHistory, Inv, ToyHistory;
    ToyLawful();
    ToyPublic(0);
    ToyPublic(1);
    NumInjective(0, 1);
    StartInv(Toy(), [], SETUP);
    ToyInitialHistory();
    InitialSizes();
    var w0 := Start(Toy(), [], SETUP).value;
    NextInv(w0, SetInterval(Alice, v.alice));
    NextInv(Next(w0, SetInterval(Alice, v.alice)), SetInterval(Bob, v.bob));
  }

  lemma StartedReady(v: Intervals)
    requires v.Stalling()
    ensures Lawful(Toy()) && Start(Toy(), [], SETUP).Ok? && Ready(Started(v), v, Alice) && SecondsOpen(Started(v))
  {
    hide Toy, Num, InitialHistory, Quiet, Ahead;
    StartedAhead(v);
    StartQuiet(Toy(), [], SETUP, v);
  }

  lemma InitialSizes()
    requires Lawful(Toy())
    ensures var g := InitialHistory(Toy(), [], SETUP); |g.secrets| == 2 && g.counts == [0, 0]
  {
  }

  /** A run from there is a run from the start. */
  lemma StartedReaches(v: Intervals, evs: seq<Event>, w: World)
    requires Lawful(Toy()) && Laws(Toy()) && GoodSetup(Toy(), [], SETUP) && Start(Toy(), [], SETUP).Ok?
    requires Leads(Started(v), evs, w)
    ensures ReachableBy(Toy(), [], SETUP, Setting(v) + evs, w)
    ensures Reachable(Toy(), w)
  {
    hide Toy, Num, InitialHistory, Start, GoodSetup, Laws, Lawful;
    var a, b := Setting(v)[0], Setting(v)[1];
    var w0 := Start(Toy(), [], SETUP).value;
    assert ([a, b] + evs)[1..] == [b] + evs && ([b] + evs)[1..] == evs;
    assert AllowedRun(Next(w0, a), [b] + evs) && Run(Next(w0, a), [b] + evs) == w;
    assert AllowedRun(w0, [a, b] + evs) && Run(w0, [a, b] + evs) == w;
  }

  // ---------------------------------------------------------------
  // What is reached
  // ---------------------------------------------------------------

  /** n turns from the start. */
  lemma ClimbFromStart(v: Intervals, n: nat) returns (w: World, ahead: Side)
    requires v.Stalling() && n + 7 < U32 && n + 1 <= v.Last()
    ensures Lawful(Toy()) && Laws(Toy()) && Reachable(Toy(), w) && ToyWorld(w) && SecondsOpen(w)
    ensures |w.g.secrets| == n + 2 && w.Of(ahead).epoch == n + 1 && ahead == (if n % 2 == 0 then Alice else Bob)
  {
    hide Toy, Inv, Quiet, Started, Start, Laws, Lawful, GoodSetup, ToyHistory, Leads, ToyWorld, Ready;
    hide SecondsOpen, Reachable;
    hide ReachableBy;
    StartedAhead(v);
    StartedReady(v);
    var evs;
    evs, w, ahead := Climb(Started(v), v, Alice, n);
    StartedReaches(v, evs, w);
    AheadSide(w, v, ahead);
    ReadyToy(w, v, ahead);
  }

  lemma OpenSecond(w: World) returns (index: nat)
    requires SecondsOpen(w) && |w.g.secrets| == 25
    ensures index < |w.alice.outbox|
    ensures var m := w.alice.outbox[index]; m.epoch == 19 && (m.epoch, m.header.number) !in w.bob.got + w.bob.lost
  {
    assert SecondSent(w, 19);
    var m :| m in w.alice.outbox && m.epoch == 19 && m.header.number == 1;
    index :| 0 <= index < |w.alice.outbox| && w.alice.outbox[index] == m;
  }

  /** However the run goes on, the message is refused. */
  ghost predicate NeverDecrypted(w: World, to: Side, index: nat)
    requires DhLaw(w.g.s) && DeriveLaw(w.g.s) && 0 < |w.g.secrets| == |w.g.roots| && index < |w.Of(Peer(to)).outbox|
  {
    forall more: seq<Event>, coins: ReceiveCoins ::
      AllowedRun(w, more) && Allowed(Run(w, more), Deliver(to, index, coins)) ==>
        Decrypt(w.g.s, Run(w, more).Of(to).t, w.Of(Peer(to)).outbox[index].wire, coins).1.Err?
  }

  /** A message of epoch 19 that Bob, in epoch 24, has neither decrypted nor lost, and will never decrypt. */
  lemma UnheldEpochReached() returns (w: World, index: nat)
    ensures Laws(Toy()) && Reachable(Toy(), w) && w.bob.epoch == 24
    ensures Allowed(w, Deliver(Bob, index, Coins(w.g)))
    ensures var m := w.alice.outbox[index];
            && m.epoch == 19 && (m.epoch, m.header.number) !in w.bob.got + w.bob.lost
            && Decrypt(Toy(), w.bob.t, m.wire, Coins(w.g)).1.Err?
    ensures NeverDecrypted(w, Bob, index)
  {
    hide Toy, Inv, Laws, Lawful, Decrypt, ToyWorld, Coins, Reachable, FreshEpoch, AllSeparated, Extended, SecondsOpen;
    var ahead;
    w, ahead := ClimbFromStart(Intervals(DEFAULT_PQ_INTERVAL, DEFAULT_PQ_INTERVAL), 23);
    index := OpenSecond(w);
    DeliverAllowed(w, Bob, index);
    LaterEpochsUnheld(24);
    UnheldEpochRefused(Toy(), w, Bob, index, Coins(w.g));
    forall more: seq<Event>, coins: ReceiveCoins |
      AllowedRun(w, more) && Allowed(Run(w, more), Deliver(Bob, index, coins))
      ensures Decrypt(w.g.s, Run(w, more).bob.t, w.alice.outbox[index].wire, coins).1.Err?
    {
      UnheldForGood(Toy(), w, Bob, index, more, coins);
    }
  }

  /** The second message read as well, in order. */
  lemma ReadSecond(w: World, v: Intervals, from: Side, second: Sent) returns (ev: Event, w': World)
    requires Ready(w, v, Peer(from)) && |w.g.secrets| + 5 < U64
    requires second in w.Of(from).outbox && second.epoch == w.Of(from).epoch && second.header.number == 1
    requires ReceivedCount(w.Of(Peer(from)).t.dh) == 1
    ensures Leads(w, [ev], w') && Ready(w', v, Peer(from)) && w'.g == w.g && w'.Of(from) == w.Of(from)
    ensures var q, q' := w.Of(Peer(from)), w'.Of(Peer(from));
            && q' == q.(t := q'.t, got := q.got + {(second.epoch, 1)}) && q'.t.cache == q.t.cache
            && ReceivedCount(q'.t.dh) == 2
  {
    hide Allowed, Next, Inv, ToyHistory, Lawful, Toy, Quiet, Decrypt, Coins, Extended;
    Neighbour(w, Peer(from));
    Sizes(w);
    InvLaws(w);
    var index :| 0 <= index < |w.Of(from).outbox| && w.Of(from).outbox[index] == second;
    DeliverStep(w, Peer(from), index);
    ev := Deliver(Peer(from), index, Coins(w.g));
    NextQuiet(w, v, ev);
    w' := Next(w, ev);
    InvLaws(w');
    LeadsNowhere(w');
    LeadsFirst(w, ev, [], w');
    assert [ev] + [] == [ev];
  }

  /**
   * The first four turns, Alice reading all of Bob's first epoch: she then has two messages of it
   * decrypted and none cached.
   */
  lemma FourTurns(v: Intervals) returns (evs: seq<Event>, w: World, old2: Sent, new2: Sent)
    requires v.Stalling() && 6 <= v.Last()
    ensures Lawful(Toy()) && Laws(Toy()) && GoodSetup(Toy(), [], SETUP) && Start(Toy(), [], SETUP).Ok?
    ensures Leads(Started(v), evs, w) && ToyWorld(w) && w.alice.epoch == 5
    ensures w.alice.t.cache == map[] && ReceivedCount(w.alice.t.dh) == 1 && w.alice.lost == {}
    ensures w.alice.got == {(2, 0), (2, 1), (4, 0)}
    ensures old2 in w.bob.outbox && old2.epoch == 2 && old2.header.number == 1
    ensures new2 in w.bob.outbox && new2.epoch == 4 && new2.header.number == 1
  {
    hide Ready, ToyWorld, Quiet, Inv, SecondsOpen, Leads, Toy, Started, Lawful, Laws, GoodSetup, Start;
    StartedAhead(v);
    StartedReady(v);
    var w0 := Started(v);
    StartedLost(v);
    var e1, w1: World, f1, s1 := Turn(w0, v, Alice);
    TurnedAhead(w0, w1, v, Alice, f1, s1);
    var e2, w2: World, f2, s2 := Turn(w1, v, Bob);
    TurnedAhead(w1, w2, v, Bob, f2, s2);
    var ev, w2': World := ReadSecond(w2, v, Bob, s2);
    var e3, w3: World, f3, s3 := Turn(w2', v, Alice);
    TurnedAhead(w2', w3, v, Alice, f3, s3);
    var e4, w4: World, f4, s4 := Turn(w3, v, Bob);
    TurnedAhead(w3, w4, v, Bob, f4, s4);
    LeadsOn(w0, e1, w1, e2, w2);
    LeadsOn(w0, e1 + e2, w2, [ev], w2');
    LeadsOn(w0, e1 + e2 + [ev], w2', e3, w3);
    LeadsOn(w0, e1 + e2 + [ev] + e3, w3, e4, w4);
    ReadyToy(w4, v, Alice);
    evs, w, old2, new2 := e1 + e2 + [ev] + e3 + e4, w4, s2, s4;
  }

  lemma StartedLost(v: Intervals)
    requires Lawful(Toy()) && Start(Toy(), [], SETUP).Ok? && SecondsOpen(Started(v))
    ensures Started(v).alice.lost == {} && Started(v).bob.lost == {}
  {
  }

  lemma ReadyToy(w: World, v: Intervals, from: Side)
    requires Ready(w, v, from)
    ensures ToyWorld(w)
  {
  }

  /** A message the peer sent could be delivered before, and cannot afterwards. */
  ghost predicate MadeUndeliverable(w: World, w': World, to: Side, m: Sent) {
    var p, p' := w.Of(to), w'.Of(to);
    && Sound(w.g) && p.epoch < |w.g.secrets| && m in w.Of(Peer(to)).outbox && FromPeer(w.g, p.epoch, m)
    && Deliverable(w.g, p.t, p.epoch, m) && !Deliverable(w.g, p'.t, p.epoch, m)
  }

  /** The next message to reach Alice is misread, at the cost of one she has neither decrypted nor lost. */
  ghost predicate MisreadAt(w: World, index: nat, m': Sent) {
    && Laws(Toy()) && Reachable(Toy(), w) && index < |w.bob.outbox|
    && Allowed(w, Deliver(Alice, index, Coins(w.g))) && Misread(Toy(), w.alice.t, w.bob.outbox[index])
    && (m'.epoch, m'.header.number) !in w.alice.got + w.alice.lost
    && MadeUndeliverable(w, Next(w, Deliver(Alice, index, Coins(w.g))), Alice, m')
  }

  /**
   * A misread message is reached, and what it costs: a repeated message of Bob's epoch 2 makes a
   * message of his epoch 4, never delivered and deliverable until then, undeliverable.
   */
  lemma MisreadReached() returns (w: World, index: nat, m': Sent)
    ensures MisreadAt(w, index, m')
  {
    hide ToyWorld, Leads, Toy, Started, Lawful, Laws, GoodSetup, Start, MisreadAt, Reachable, ReachableBy;
    var v := Intervals(DEFAULT_PQ_INTERVAL, DEFAULT_PQ_INTERVAL);
    var evs, m;
    evs, w, m, m' := FourTurns(v);
    StartedReaches(v, evs, w);
    index :| 0 <= index < |w.bob.outbox| && w.bob.outbox[index] == m;
    MisreadThere(w, index, m');
  }

  lemma MisreadThere(w: World, index: nat, m': Sent)
    requires Laws(Toy()) && Reachable(Toy(), w) && ToyWorld(w) && index < |w.bob.outbox| && m' in w.bob.outbox
    requires w.bob.outbox[index].epoch == 2 && w.bob.outbox[index].header.number == 1
    requires m'.epoch == 4 && m'.header.number == 1
    requires w.alice.epoch == 5 && w.alice.t.cache == map[] && ReceivedCount(w.alice.t.dh) == 1
    requires w.alice.lost == {} && w.alice.got == {(2, 0), (2, 1), (4, 0)}
    ensures MisreadAt(w, index, m')
  {
    hide Inv, Toy, Lawful, Laws, ToyHistory, Allowed, Next, Misread, Coins, MadeUndeliverable, Damage, Reachable;
    DeliverAllowed(w, Alice, index);
    SecondMisread(w, w.bob.outbox[index]);
    DamageMembers(5, 2, 1, 1, (4, 1));
    MisreadCosts(w, index, Coins(w.g), m');
  }

  lemma SecondMisread(w: World, m: Sent)
    requires Laws(Toy()) && Reachable(Toy(), w) && m in w.bob.outbox && m.epoch == 2 && m.header.number == 1
    requires w.alice.epoch == 5 && w.alice.t.cache == map[] && ReceivedCount(w.alice.t.dh) == 1
    ensures Misread(Toy(), w.alice.t, m)
  {
    hide Toy, Laws, Misread, Reachable;
    HeardPeerEpochs(5, 1);
    MisreadExactly(Toy(), w, Alice, m);
  }

  lemma MisreadCosts(w: World, index: nat, coins: ReceiveCoins, m': Sent)
    requires Laws(Toy()) && Reachable(Toy(), w) && Allowed(w, Deliver(Alice, index, coins))
    requires Misread(Toy(), w.alice.t, w.bob.outbox[index]) && m' in w.bob.outbox
    requires 0 < w.alice.epoch == m'.epoch + 1
    requires var m := w.bob.outbox[index];
             (m'.epoch, m'.header.number)
             in Damage(w.alice.epoch, m.epoch, ReceivedCount(w.alice.t.dh), m.header.number)
    ensures MadeUndeliverable(w, Next(w, Deliver(Alice, index, coins)), Alice, m')
  {
    hide Inv, Toy, Laws, Allowed, Next, Misread, Deliverable, Genuine, Damage, Decrypt;
    MisreadDamage(Toy(), w, Alice, index, coins, m');
    SessionAtInv(w, Alice);
  }
}
