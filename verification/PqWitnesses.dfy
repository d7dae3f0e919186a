/** Runs of toy sessions that stop, and whose PQ ratchets fall apart. */
module PqWitnesses {
  import opened Wrappers
  import opened Bytes
  import opened Primitives
  import opened SymmetricRatchet
  import opened DhRatchet
  import PqRatchet
  import opened MessageFormat
  import opened Schedule
  import opened TripleRatchet
  import opened HeaderRing
  import opened TripleParty
  import opened TripleDelivery
  import opened TripleProtocol
  import opened TripleGuarantees
  import opened PqSession
  import opened PqStall
  import opened PqIntervals
  import opened ToySuite
  import opened SessionWitnesses

  // ---------------------------------------------------------------
  // One message sent, one message read
  // ---------------------------------------------------------------

  /** A PQ step begun if one was due, and none due any more. */
  predicate PqSaid(s: Suite, t: Triple, t1: Triple, h: Header) {
    var begun := PqRatchet.Initiate(s, t.pq, COINS.kemCoins, COINS.kemSecret);
    && t1.pqInterval == t.pqInterval && t1.dh.steps == t.dh.steps && t1.pq.remote == t.pq.remote && !Initiates(t1)
    && (Initiates(t) <==> CarriesStep(h))
    && (if CarriesStep(h) then t1.pq == begun.0 && begun.1 == Ok(StepData(h)) && t1.stepsSincePq == 0
        else t1.pq == t.pq && t1.stepsSincePq == t.stepsSincePq)
  }

  lemma SaidPq(s: Suite, t: Triple)
    requires CanSend(t)
    ensures Encrypt(s, t, [], COINS).1.Ok? && EncryptPq(s, t, COINS).1.Ok? && EncryptKey(s, t.dh).1.Ok?
    ensures PqSaid(s, t, Encrypt(s, t, [], COINS).0, SentHeader(s, t, COINS)) && CanSend(Encrypt(s, t, [], COINS).0)
  {
    hide SealMessage;
  }

  /** `from` has sent the message. */
  ghost predicate Said(w: World, w': World, from: Side, m: Sent) {
    var p, p' := w.Of(from), w'.Of(from);
    && ToyWorld(w') && p.epoch < |w.g.counts| && w'.g == Counted(w.g, p.epoch) && w'.Of(Peer(from)) == w.Of(Peer(from))
    && m.epoch == p.epoch && m.header.number == w.g.counts[p.epoch]
    && p' == p.(t := p'.t, outbox := p.outbox + [m])
    && p'.t.cache == p.t.cache && p'.t.dropped == p.t.dropped && p'.t.dh.recv == p.t.dh.recv && CanSend(p'.t)
    && PqSaid(Toy(), p.t, p'.t, m.header)
  }

  lemma Say(w: World, from: Side) returns (ev: Event, w': World, m: Sent)
    requires ToyWorld(w) && CanSend(w.Of(from).t)
    requires w.Of(from).epoch < |w.g.counts| && w.g.counts[w.Of(from).epoch] + 1 < U32
    ensures Leads(w, [ev], w') && Said(w, w', from, m) && !ev.SetInterval?
  {
    hide Allowed, Next, Inv, Encrypt, NewMessage, ToyHistory, Lawful, Toy, CanSend, PqSaid;
    var p := w.Of(from);
    ToySuiteOf(w.g);
    InvLaws(w);
    SendStep(w, from);
    SaidPq(w.g.s, p.t);
    EncryptDrops(w.g.s, p.t);
    NewMessageHeader(w.g.s, p);
    ev, m := Send(from, [], COINS), NewMessage(w.g.s, p, [], COINS);
    w' := Next(w, ev);
    InvLaws(w');
    LeadsNowhere(w');
    LeadsFirst(w, ev, [], w');
    assert [ev] + [] == [ev];
  }

  lemma EncryptDrops(s: Suite, t: Triple)
    ensures Encrypt(s, t, [], COINS).0.dropped == t.dropped
  {
    hide SealMessage;
  }

  lemma NewMessageHeader(s: Suite, p: Party)
    requires Encrypt(s, p.t, [], COINS).1.Ok?
    ensures EncryptPq(s, p.t, COINS).1.Ok? && EncryptKey(s, p.t.dh).1.Ok?
    ensures NewMessage(s, p, [], COINS).header == SentHeader(s, p.t, COINS)
  {
  }

  /** A PQ step completed if the message carries one; one DH step more. */
  predicate PqRead(s: Suite, t: Triple, t': Triple, h: Header) {
    && t'.pqInterval == t.pqInterval && t'.stepsSincePq == Wrap32(t.stepsSincePq + 1)
    && t'.dh.steps == Wrap32(t.dh.steps + 1)
    && t'.pq == (if CarriesStep(h) then PqRatchet.Complete(s, t.pq, StepData(h), Num(1)) else t.pq)
  }

  /** The peer of `from` has read the message and is now the one ahead. */
  ghost predicate Read(w: World, w': World, from: Side, m: Sent) {
    var q, q' := w.Of(Peer(from)), w'.Of(Peer(from));
    && Ahead(w', Peer(from)) && w'.Of(from) == w.Of(from)
    && |w'.g.secrets| == |w.g.secrets| + 1 && w'.g.counts == w.g.counts + [0]
    && q' == q.(t := q'.t, epoch := m.epoch + 1, got := q.got + {(m.epoch, m.header.number)})
    && ReceivedCount(q'.t.dh) == m.header.number + 1 && q'.t.dropped <= q.t.dropped + {NO_SLOT}
    && (m.header.number == 0 && ReadToEnd(w.g, q) ==> q'.t.cache == q.t.cache)
    && PqRead(Toy(), q.t, q'.t, m.header)
  }

  /** `from` is ahead and has sent messages of its epoch. */
  ghost predicate Speaking(w: World, from: Side) {
    && ToyWorld(w) && w.Of(from).epoch + 1 == |w.g.secrets| && |w.g.secrets| + 6 < U64
    && (forall e :: 0 <= e < |w.g.counts| ==> w.g.counts[e] <= 2)
  }

  lemma ReadNew(w: World, from: Side, index: nat) returns (ev: Event, w': World)
    requires Speaking(w, from) && index < |w.Of(from).outbox|
    requires var m := w.Of(from).outbox[index]; m.epoch == w.Of(from).epoch && m.header.number < 2
    ensures Leads(w, [ev], w') && Read(w, w', from, w.Of(from).outbox[index]) && !ev.SetInterval?
  {
    hide Allowed, Next, Inv, ToyHistory, Lawful, Toy, Decrypt, Coins, Extended, PqRead;
    var q := w.Of(Peer(from));
    ToySuiteOf(w.g);
    Neighbour(w, from);
    Sizes(w);
    InvLaws(w);
    ShortRest(w.g, q.t, q.epoch);
    DeliverStep(w, Peer(from), index);
    ev := Deliver(Peer(from), index, Coins(w.g));
    w' := Next(w, ev);
    ReadPq(w, from, index);
    ToyDrops(w.g.s, q.t, w.Of(from).outbox[index].wire, Coins(w.g));
    ExtendedCounts(w.g, Coins(w.g).dhSecret);
    Sizes(w');
    InvLaws(w');
    LeadsNowhere(w');
    LeadsFirst(w, ev, [], w');
    assert [ev] + [] == [ev];
  }

  /** What reading the first message of a new epoch does to the PQ side. */
  lemma ReadPq(w: World, from: Side, index: nat)
    requires Speaking(w, from) && index < |w.Of(from).outbox|
    requires w.Of(from).outbox[index].epoch == w.Of(from).epoch && DeriveLaw(w.g.s)
    ensures var q, m := w.Of(Peer(from)), w.Of(from).outbox[index];
            PqRead(w.g.s, q.t, Decrypt(w.g.s, q.t, m.wire, Coins(w.g)).0, m.header)
  {
    hide Inv, ToyHistory, Lawful, Toy, Decrypt, CompletesStep, CarriesStep, Detect, RestTooLong, Trial, Num;
    hide PqRatchet.Complete, StepData;
    var q, m := w.Of(Peer(from)), w.Of(from).outbox[index];
    Neighbour(w, from);
    DeliverAllowed(w, Peer(from), index);
    DeliveryTakes(w, Peer(from), index, Coins(w.g));
    NextEpochUncached(w, Peer(from), index);
    ShortRest(w.g, q.t, q.epoch);
    PqAfter(w.g.s, q.t, m.wire, Coins(w.g));
    EpochStep(w, Peer(from), index, Coins(w.g));
  }

  /** Entering an epoch is a DH step. */
  lemma EpochStep(w: World, to: Side, index: nat, coins: ReceiveCoins)
    requires Inv(w) && Allowed(w, Deliver(to, index, coins)) && w.Of(to).epoch < |w.g.counts|
    requires w.Of(Peer(to)).outbox[index].epoch == w.Of(to).epoch + 1 && !RestTooLong(w.g, w.Of(to).t, w.Of(to).epoch)
    ensures var t, t' := w.Of(to).t, Decrypt(w.g.s, w.Of(to).t, w.Of(Peer(to)).outbox[index].wire, coins).0;
            && t'.pqInterval == t.pqInterval && t'.stepsSincePq == Wrap32(t.stepsSincePq + 1)
            && t'.dh.steps == Wrap32(t.dh.steps + 1)
  {
    hide Inv, Decrypt, FreshEpoch, AllSeparated, Extended, RestTooLong, Detect, LostAfter;
    var p, m := w.Of(to), w.Of(Peer(to)).outbox[index];
    InvLaws(w);
    DeliveredMoves(w, to, index, coins);
    DecryptFrame(w.g.s, p.t, m.wire, coins);
    NextInv(w, Deliver(to, index, coins));
    ChainFromFirstStep(w, to);
    ChainFromFirstStep(Next(w, Deliver(to, index, coins)), to);
    StepCountNext(p.epoch);
  }

  // ---------------------------------------------------------------
  // What a toy cache drops
  // ---------------------------------------------------------------

  predicate GivesUpNothing(victim: Cache -> Slot, cache: Cache) {
    victim(cache) == NO_SLOT
  }

  lemma {:induction false} StoreAllDrops(t: Triple, publicKey: Bytes, keys: Keys, victim: Cache -> Slot)
    requires forall cache :: GivesUpNothing(victim, cache)
    ensures StoreAll(t, publicKey, keys, victim).dropped <= t.dropped + {NO_SLOT}
    decreases |keys|
  {
    if keys != [] {
      assert GivesUpNothing(victim, t.cache);
      StoreAllDrops(Store(t, publicKey, keys[0].0, keys[0].1, victim), publicKey, keys[1..], victim);
    }
  }

  lemma OpenBodyDrops(s: Suite, t: Triple, h: Header, m: Encrypted, victim: Cache -> Slot)
    requires forall cache :: GivesUpNothing(victim, cache)
    ensures OpenBody(s, t, h, m, victim).0.dropped <= t.dropped + {NO_SLOT}
  {
    hide StoreAll, ReceiveKey;
    var (dh, r) := ReceiveKey(s, t.dh, h.number);
    if r.Ok? {
      StoreAllDrops(t.(dh := dh), h.dhPublic, r.value.skipped, victim);
    }
  }

  lemma EnterEpochDrops(s: Suite, t: Triple, h: Header, coins: ReceiveCoins)
    requires DeriveLaw(s) && forall cache :: GivesUpNothing(coins.victim, cache)
    ensures EnterEpoch(s, t, h, coins).0.dropped <= t.dropped + {NO_SLOT}
  {
    hide StoreAll, SkipRemaining, RatchetStep;
    if t.dh.remote.Some? {
      var (dh, r) := SkipRemaining(s, t.dh, h.previousLength);
      if r.Ok? {
        StoreAllDrops(t.(dh := dh), t.dh.remote.value, r.value, coins.victim);
      }
    }
  }

  lemma DecryptDrops(s: Suite, t: Triple, m: Encrypted, coins: ReceiveCoins)
    requires DeriveLaw(s) && forall cache :: GivesUpNothing(coins.victim, cache)
    ensures Decrypt(s, t, m, coins).0.dropped <= t.dropped + {NO_SLOT}
  {
    hide OpenBody, EnterEpoch, Detect, FirstHeader;
    var (t1, cached) := TrySkipped(s, t, m);
    if cached == Ok(None) && Detect(s, t1, m).Ok? {
      var (h, changed) := Detect(s, t1, m).value;
      if changed {
        EnterEpochDrops(s, t1, h, coins);
      }
      var t2 := if changed then EnterEpoch(s, t1, h, coins).0 else t1;
      OpenBodyDrops(s, ReceivePq(s, t2, h, coins), h, m, coins.victim);
    }
  }

  lemma ToyDrops(s: Suite, t: Triple, m: Encrypted, coins: ReceiveCoins)
    requires DeriveLaw(s) && exists g :: coins == Coins(g)
    ensures Decrypt(s, t, m, coins).0.dropped <= t.dropped + {NO_SLOT}
  {
    hide Decrypt, Num;
    DecryptDrops(s, t, m, coins);
  }

  // ---------------------------------------------------------------
  // Turns
  // ---------------------------------------------------------------

  /** Everything sent has been read, and nothing is cached. */
  ghost predicate Tidy(w: World) {
    w.alice.t.cache == map[] && w.bob.t.cache == map[] && ReadToEnd(w.g, w.alice) && ReadToEnd(w.g, w.bob)
  }

  /** One message sent and read. */
  ghost predicate Passed(w: World, w': World, from: Side, m: Sent) {
    var p, q, p', q' := w.Of(from), w.Of(Peer(from)), w'.Of(from), w'.Of(Peer(from));
    && Ahead(w', Peer(from)) && |w'.g.secrets| == |w.g.secrets| + 1 && m.epoch == p.epoch && m.header.number == 0
    && p' == p.(t := p'.t, outbox := p.outbox + [m])
    && q' == q.(t := q'.t, epoch := p.epoch + 1, got := q.got + {(p.epoch, 0)})
    && p'.t.dropped == p.t.dropped && q'.t.dropped <= q.t.dropped + {NO_SLOT}
    && PqSaid(Toy(), p.t, p'.t, m.header) && PqRead(Toy(), q.t, q'.t, m.header)
    && (Tidy(w) ==> Tidy(w'))
  }

  lemma Single(w: World, from: Side) returns (evs: seq<Event>, w': World, m: Sent)
    requires Ahead(w, from) && CanSend(w.Of(from).t) && |w.g.secrets| + 6 < U64
    ensures Leads(w, evs, w') && IntervalsKept(evs) && Passed(w, w', from, m)
  {
    hide ToyWorld, Toy, CanSend, PqSaid, PqRead, Leads;
    AheadSizes(w, from);
    var ev1, w1: World, ev2;
    ev1, w1, m := Say(w, from);
    SaidSizes(w, w1, from, m);
    ev2, w' := ReadNew(w1, from, |w.Of(from).outbox|);
    LeadsOn(w, [ev1], w1, [ev2], w');
    evs := [ev1] + [ev2];
  }

  lemma AheadSizes(w: World, from: Side)
    requires Ahead(w, from)
    ensures |w.g.counts| == |w.g.secrets| && 0 < w.Of(from).epoch < |w.g.counts|
    ensures w.Of(Peer(from)).epoch + 1 == w.Of(from).epoch
  {
    hide ToyHistory, Lawful, Inv;
    Sizes(w);
    AheadStarted(w, from);
    Neighbour(w, from);
  }

  lemma SaidSizes(w: World, w': World, from: Side, m: Sent)
    requires Said(w, w', from, m)
    ensures ToyWorld(w') && w'.g.counts == w.g.counts[w.Of(from).epoch := w.g.counts[w.Of(from).epoch] + 1]
    ensures w'.g.secrets == w.g.secrets
  {
    hide ToyWorld, PqSaid, CanSend;
  }

  /** Two messages sent, and the second one read first: it carries no PQ step. */
  ghost predicate Overtaken(w: World, w': World, from: Side, first: Sent, second: Sent) {
    var p, q, p', q' := w.Of(from), w.Of(Peer(from)), w'.Of(from), w'.Of(Peer(from));
    && Ahead(w', Peer(from)) && |w'.g.secrets| == |w.g.secrets| + 1
    && first.epoch == p.epoch == second.epoch && first.header.number == 0 && second.header.number == 1
    && (Initiates(p.t) <==> CarriesStep(first.header))
    && p' == p.(t := p'.t, outbox := p.outbox + [first] + [second])
    && q' == q.(t := q'.t, epoch := p.epoch + 1, got := q.got + {(p.epoch, 1)})
    && q'.t.dropped <= q.t.dropped + {NO_SLOT} && ReceivedCount(q'.t.dh) == 2
    && p'.t.pq.remote == p.t.pq.remote && p'.t.pqInterval == p.t.pqInterval
    && p'.t.pq.steps == (if Initiates(p.t) then Wrap32(p.t.pq.steps + 1) else p.t.pq.steps)
    && p'.t.stepsSincePq == (if Initiates(p.t) then 0 else p.t.stepsSincePq)
    && q'.t.pq == q.t.pq && q'.t.pqInterval == q.t.pqInterval
    && q'.t.stepsSincePq == Wrap32(q.t.stepsSincePq + 1) && q'.t.dh.steps == Wrap32(q.t.dh.steps + 1)
  }

  lemma Overtake(w: World, from: Side) returns (evs: seq<Event>, w': World, first: Sent, second: Sent)
    requires Ahead(w, from) && CanSend(w.Of(from).t) && |w.g.secrets| + 6 < U64
    ensures Leads(w, evs, w') && IntervalsKept(evs) && Overtaken(w, w', from, first, second)
  {
    hide ToyWorld, Toy, CanSend, Leads, Initiates, CarriesStep, StepData;
    AheadSizes(w, from);
    var ev1, ev2, ev3, w1: World, w2: World;
    ev1, w1, first := Say(w, from);
    SaidSizes(w, w1, from, first);
    ev2, w2, second := Say(w1, from);
    SaidSizes(w1, w2, from, second);
    ev3, w' := ReadNew(w2, from, |w.Of(from).outbox| + 1);
    LeadsOn(w, [ev1], w1, [ev2], w2);
    LeadsOn(w, [ev1] + [ev2], w2, [ev3], w');
    evs := [ev1] + [ev2] + [ev3];
  }

  // ---------------------------------------------------------------
  // Bob never hears of a PQ step
  // ---------------------------------------------------------------

  /** Bob has no KEM key of Alice's. */
  ghost predicate Deaf(w: World, v: Intervals) {
    && w.alice.t.pq.remote.Some? && w.bob.t.pq.remote == None && w.bob.t.stepsSincePq == w.bob.t.dh.steps
    && IntervalsAre(w, v)
  }

  lemma DeafSends(w: World, v: Intervals)
    requires ToyWorld(w) && Deaf(w, v)
    ensures CanSend(w.alice.t) && !Initiates(w.bob.t)
    ensures CanSend(w.bob.t) <==> 0 < w.bob.epoch && !(0 < v.bob <= Wrap32(w.bob.epoch / 2))
  {
    hide ToyHistory, Lawful, Inv;
    ChainFromFirstStep(w, Alice);
    ChainFromFirstStep(w, Bob);
    AliceEpoch(w);
  }

  lemma DeafHalf(w: World, v: Intervals) returns (evs: seq<Event>, w': World, first: Sent, second: Sent)
    requires Ahead(w, Alice) && Deaf(w, v) && |w.g.secrets| + 6 < U64
    ensures Leads(w, evs, w') && IntervalsKept(evs) && Overtaken(w, w', Alice, first, second) && Deaf(w', v)
  {
    hide ToyWorld, Leads, Initiates, CarriesStep;
    DeafSends(w, v);
    evs, w', first, second := Overtake(w, Alice);
  }

  lemma DeafRound(w: World, v: Intervals) returns (evs: seq<Event>, w': World)
    requires Ahead(w, Alice) && Deaf(w, v) && |w.g.secrets| + 8 < U64 && w.bob.epoch + 2 < 2 * v.bob < 2 * U32
    ensures Leads(w, evs, w') && IntervalsKept(evs) && Ahead(w', Alice) && Deaf(w', v)
    ensures |w'.g.secrets| == |w.g.secrets| + 2 && w'.bob.epoch == w.bob.epoch + 2
  {
    hide ToyWorld, Leads, Initiates, CarriesStep, CanSend;
    AheadSizes(w, Alice);
    var evs1, w1: World, first, second := DeafHalf(w, v);
    DeafSends(w1, v);
    var evs2, m;
    evs2, w', m := Single(w1, Bob);
    LeadsOn(w, evs1, w1, evs2, w');
    evs := evs1 + evs2;
  }

  lemma {:induction false} DeafClimb(w: World, v: Intervals, n: nat) returns (evs: seq<Event>, w': World)
    requires Ahead(w, Alice) && Deaf(w, v) && |w.g.secrets| + 2 * n + 6 < U64 && w.bob.epoch + 2 * n < 2 * v.bob
    requires v.bob < U32
    ensures Leads(w, evs, w') && IntervalsKept(evs) && Ahead(w', Alice) && Deaf(w', v)
    ensures |w'.g.secrets| == |w.g.secrets| + 2 * n && w'.bob.epoch == w.bob.epoch + 2 * n
    decreases n
  {
    hide ToyWorld, Leads, Deaf;
    if n == 0 {
      evs, w' := [], w;
      AheadLeads(w, Alice);
    } else {
      var evs1, w1: World := DeafRound(w, v);
      var evs2;
      evs2, w' := DeafClimb(w1, v, n - 1);
      LeadsOn(w, evs1, w1, evs2, w');
      evs := evs1 + evs2;
    }
  }

  lemma AheadLeads(w: World, from: Side)
    requires Ahead(w, from)
    ensures Leads(w, [], w)
  {
    hide ToyHistory, Lawful, Inv;
    InvLaws(w);
    LeadsNowhere(w);
  }

  lemma StartedDeaf(v: Intervals)
    requires Lawful(Toy()) && Start(Toy(), [], SETUP).Ok?
    ensures Deaf(Started(v), v) && Started(v).alice.t.stepsSincePq == 0
    ensures Started(v).alice.t.pq.steps == 0 == Started(v).bob.t.pq.steps
    ensures Started(v).alice.t.pq.remote == Some(KemPublicKey(Toy(), Num(0)))
    ensures Started(v).bob.lost == {} && Started(v).bob.t.dropped == {}
  {
    hide Toy, Num, InitialHistory;
  }

  /** Whatever Alice's interval, if Bob's is not zero: a run without repetitions in which his step is due too early. */
  lemma StuckReached(v: Intervals) returns (evs: seq<Event>, w: World)
    requires 0 < v.bob < U32
    ensures RunsTo(Toy(), [], SETUP, v, evs, w) && w.bob.epoch == 2 * v.bob && !CanSend(w.bob.t)
  {
    hide Toy, ToyWorld, Started, Start, Laws, Lawful, GoodSetup, Leads, Deaf, CanSend, Initiates, CarriesStep;
    StartedAhead(v);
    StartedDeaf(v);
    var evs1, w1: World := DeafClimb(Started(v), v, v.bob - 1);
    AheadSizes(w1, Alice);
    var evs2, first, second;
    evs2, w, first, second := DeafHalf(w1, v);
    DeafSends(w, v);
    LeadsOn(Started(v), evs1, w1, evs2, w);
    evs := evs1 + evs2;
    StartedReaches(v, evs, w);
  }

  /**
   * Over all runs with the intervals kept, Bob can send from his first step on exactly if his
   * interval is zero or too large for a `u32`, whatever Alice's is.
   */
  lemma AlwaysSendsExactly(v: Intervals)
    ensures AlwaysSends(v) <==> !(0 < v.bob < U32)
  {
    hide CanSend, RunsTo;
    if 0 < v.bob < U32 {
      var evs, w: World := StuckReached(v);
    } else {
      forall s: Suite, shared: Bytes, k: Setup, evs: seq<Event>, w: World |
        RunsTo(s, shared, k, v, evs, w) && 0 < w.bob.epoch
        ensures CanSend(w.bob.t)
      {
        SendsThroughout(s, shared, k, v, evs, w);
      }
    }
  }

  /**
   * Over runs in which no PQ step is overtaken, exactly if the intervals do not stall: his is zero
   * or too large, or hers is shorter and not zero.
   */
  lemma AlwaysSendsInOrderExactly(v: Intervals)
    ensures AlwaysSendsInOrder(v) <==> !v.Stalling()
  {
    hide CanSend, RunsTo, OrderlyRunsTo;
    if v.Stalling() {
      var evs, w: World := StuckReached(v);
      StallingInOrder(Toy(), [], SETUP, v, evs, w);
    } else {
      forall s: Suite, shared: Bytes, k: Setup, evs: seq<Event>, w: World |
        OrderlyRunsTo(s, shared, k, v, evs, w) && 0 < w.bob.epoch
        ensures CanSend(w.bob.t)
      {
        OrderlyRuns(s, shared, k, v, evs, w);
        SendsThroughout(s, shared, k, v, evs, w);
      }
    }
  }

  lemma OrderlyRuns(s: Suite, shared: Bytes, k: Setup, v: Intervals, evs: seq<Event>, w: World)
    requires OrderlyRunsTo(s, shared, k, v, evs, w)
    ensures RunsTo(s, shared, k, v, evs, w)
  {
  }

  // ---------------------------------------------------------------
  // PQ ratchets that fall apart
  // ---------------------------------------------------------------

  /** In a toy session a step encapsulates the secret key itself, and the chain key is the last secret. */
  lemma ToyStep(p: PqRatchet.Pq, data: PqRatchet.KemData, newSecret: Bytes)
    ensures p.remote == Some(KemPublicKey(Toy(), Num(0))) ==>
              PqRatchet.Initiate(Toy(), p, COINS.kemCoins, COINS.kemSecret).0.chainKey == Num(0)
    ensures var p' := PqRatchet.Complete(Toy(), p, data, newSecret);
            p'.chainKey == Clip(p.secret) && p'.secret == newSecret
  {
    hide Num;
    assert Clip(KemPublicKey(Toy(), Num(0))) == Num(0);
  }

  lemma StepCounts(s: Suite, p: PqRatchet.Pq, data: PqRatchet.KemData, newSecret: Bytes)
    ensures p.remote.Some? ==>
              PqRatchet.Initiate(s, p, COINS.kemCoins, COINS.kemSecret).0.steps == Wrap32(p.steps + 1)
    ensures PqRatchet.Complete(s, p, data, newSecret).steps == Wrap32(p.steps + 1)
  {
  }

  /** Alice's PQ step is due after every DH step, Bob's never. */
  const EVERY_STEP: Intervals := Intervals(1, 0)

  /** Alice's outdated view of Bob's KEM key: the one he started with. */
  ghost predicate Outdated(w: World, done: nat, since: nat) {
    && ToyWorld(w) && IntervalsAre(w, EVERY_STEP) && w.alice.t.pq.remote == Some(KemPublicKey(Toy(), Num(0)))
    && w.alice.t.pq.steps == done == w.bob.t.pq.steps && w.alice.t.stepsSincePq == since && Tidy(w)
    && (0 < done ==> w.bob.t.pq.secret == Num(1))
  }

  lemma OutdatedSends(w: World, done: nat, since: nat)
    requires Outdated(w, done, since)
    ensures CanSend(w.alice.t) && !Initiates(w.bob.t) && (Initiates(w.alice.t) <==> 1 <= since)
    ensures 0 < w.bob.epoch ==> CanSend(w.bob.t)
  {
    hide ToyHistory, Lawful, Inv, Toy, Tidy;
    ChainFromFirstStep(w, Alice);
    ChainFromFirstStep(w, Bob);
    AliceEpoch(w);
  }

  /** Bob sends, Alice reads. */
  lemma BobTurn(w: World, done: nat, since: nat) returns (evs: seq<Event>, w': World)
    requires Ahead(w, Bob) && Outdated(w, done, since) && |w.g.secrets| < 10 && 0 < w.bob.epoch && since < 3
    ensures Leads(w, evs, w') && Ahead(w', Alice) && Outdated(w', done, since + 1)
    ensures |w'.g.secrets| == |w.g.secrets| + 1 && w'.alice.epoch == w.bob.epoch + 1 && w'.bob.epoch == w.bob.epoch
  {
    hide ToyWorld, Toy, Leads, Initiates, CarriesStep, CanSend, Tidy;
    OutdatedSends(w, done, since);
    var m;
    evs, w', m := Single(w, Bob);
    AheadToy(w', Alice);
  }

  lemma AheadToy(w: World, from: Side)
    requires Ahead(w, from)
    ensures ToyWorld(w)
  {
  }

  /** Alice sends, Bob reads: with a PQ step if she has taken a DH step since. */
  lemma AliceTurn(w: World, done: nat, since: nat) returns (evs: seq<Event>, w': World, m: Sent)
    requires Ahead(w, Alice) && Outdated(w, done, since) && |w.g.secrets| < 10 && done < 3
    ensures Leads(w, evs, w') && Ahead(w', Bob) && Outdated(w', if 1 <= since then done + 1 else done, 0)
    ensures |w'.g.secrets| == |w.g.secrets| + 1 && w'.bob.epoch == w.alice.epoch + 1 && w'.alice.epoch == w.alice.epoch
    ensures w'.alice.outbox == w.alice.outbox + [m] && m.epoch == w.alice.epoch
    ensures (m.epoch, m.header.number) in w'.bob.got && (CarriesStep(m.header) <==> 1 <= since)
    ensures 1 <= since ==> w'.alice.t.pq.chainKey == Num(0) && w'.bob.t.pq.chainKey == Clip(w.bob.t.pq.secret)
  {
    hide ToyWorld, Toy, Leads, Initiates, CarriesStep, CanSend, Tidy, StepData, PqRatchet.Initiate, PqRatchet.Complete;
    hide Num, Clip;
    OutdatedSends(w, done, since);
    evs, w', m := Single(w, Alice);
    AheadToy(w', Bob);
    if CarriesStep(m.header) {
      ToyStep(w.alice.t.pq, StepData(m.header), Num(1));
      ToyStep(w.bob.t.pq, StepData(m.header), Num(1));
      StepCounts(Toy(), w.alice.t.pq, StepData(m.header), Num(1));
      StepCounts(Toy(), w.bob.t.pq, StepData(m.header), Num(1));
    }
  }

  /** The first step, taken by both. */
  lemma FirstStepTaken() returns (evs: seq<Event>, w: World, m: Sent)
    ensures Lawful(Toy()) && Laws(Toy()) && GoodSetup(Toy(), [], SETUP) && Start(Toy(), [], SETUP).Ok?
    ensures Leads(Started(EVERY_STEP), evs, w) && Ahead(w, Bob) && Outdated(w, 1, 0) && |w.g.secrets| == 5
    ensures w.bob.epoch == 4 && m in w.alice.outbox && m.epoch == 3 && CarriesStep(m.header)
    ensures (m.epoch, m.header.number) in w.bob.got
  {
    hide Toy, ToyWorld, Started, Start, Laws, Lawful, GoodSetup, Leads, CarriesStep, Outdated, Num;
    var v := EVERY_STEP;
    StartedAhead(v);
    StartedOutdated();
    var w0 := Started(v);
    var e1, w1: World, m1 := AliceTurn(w0, 0, 0);
    var e2, w2: World := BobTurn(w1, 0, 0);
    var e3;
    e3, w, m := AliceTurn(w2, 0, 1);
    LeadsOn(w0, e1, w1, e2, w2);
    LeadsOn(w0, e1 + e2, w2, e3, w);
    evs := e1 + e2 + e3;
  }

  lemma StartedOutdated()
    requires Lawful(Toy()) && Start(Toy(), [], SETUP).Ok? && Ahead(Started(EVERY_STEP), Alice)
    requires Tidy(Started(EVERY_STEP))
    ensures Outdated(Started(EVERY_STEP), 0, 0)
  {
    hide Toy, Num, Tidy, Started;
    StartedDeaf(EVERY_STEP);
  }

  /**
   * A repeated message that carries a PQ step is refused, yet Bob completes the step again: his
   * counter is then ahead of Alice's.
   */
  lemma PqStepRepeated() returns (w: World, index: nat)
    ensures Laws(Toy()) && Reachable(Toy(), w) && Allowed(w, Deliver(Bob, index, Coins(w.g)))
    ensures w.alice.t.pq.steps == w.bob.t.pq.steps == 1
    ensures var (t', r) := Decrypt(Toy(), w.bob.t, w.alice.outbox[index].wire, Coins(w.g));
            r.Err? && t'.pq.steps == 2
  {
    hide Inv, Toy, Lawful, Laws, ToyHistory, Allowed, Decrypt, Coins, Genuine, CarriesStep, Misread, Deliverable;
    hide Leads, Start, Started, GoodSetup;
    var evs, m;
    evs, w, m := FirstStepTaken();
    StartedReaches(EVERY_STEP, evs, w);
    index :| 0 <= index < |w.alice.outbox| && w.alice.outbox[index] == m;
    DeliverAllowed(w, Bob, index);
    Delivery(Toy(), w, Bob, index, Coins(w.g));
    MisreadExactly(Toy(), w, Bob, m);
    RefusedStepsPq(Toy(), w, Bob, index, Coins(w.g));
  }

  /**
   * With nothing lost, repeated or out of order, Alice begins two PQ steps in a row: Bob replaced
   * his KEM key when he completed the first, so the chain keys differ although the counters agree.
   */
  lemma PqBegunTwice() returns (w: World)
    ensures Laws(Toy()) && Reachable(Toy(), w) && Tidy(w)
    ensures w.alice.t.pq.steps == w.bob.t.pq.steps == 2 && w.alice.t.pq.chainKey != w.bob.t.pq.chainKey
  {
    hide Toy, ToyWorld, Started, Start, Laws, Lawful, GoodSetup, Leads, CarriesStep, Tidy, Num, Reachable, Clip;
    var v := EVERY_STEP;
    var e1, w1: World, m1 := FirstStepTaken();
    var e2, w2: World := BobTurn(w1, 1, 0);
    var e3, m;
    e3, w, m := AliceTurn(w2, 1, 1);
    LeadsOn(Started(v), e1, w1, e2, w2);
    LeadsOn(Started(v), e1 + e2, w2, e3, w);
    StartedReaches(v, e1 + e2 + e3, w);
    NumInjective(0, 1);
  }

  /** Alice's first PQ step in her epoch 3, overtaken by the message after it. */
  lemma StepOvertaken(v: Intervals) returns (evs: seq<Event>, w: World, first: Sent)
    requires v == Intervals(1, 2)
    ensures Lawful(Toy()) && Laws(Toy()) && GoodSetup(Toy(), [], SETUP) && Start(Toy(), [], SETUP).Ok?
    ensures Leads(Started(v), evs, w) && ToyWorld(w) && Deaf(w, v) && w.bob.epoch == 4
    ensures first in w.alice.outbox && first.epoch == 3 && first.header.number == 0 && CarriesStep(first.header)
    ensures (3, 0) !in w.bob.got + w.bob.lost && w.bob.t.dropped <= {NO_SLOT} && ReceivedCount(w.bob.t.dh) == 2
    ensures w.alice.t.pq.steps == 1 && w.bob.t.pq.steps == 0
  {
    hide Toy, ToyWorld, Started, Start, Laws, Lawful, GoodSetup, Leads, CarriesStep, Num, CanSend, StepData;
    StartedAhead(v);
    StartedDeaf(v);
    var w0 := Started(v);
    var e1, w1: World, f1, s1 := DeafHalf(w0, v);
    DeafSends(w1, v);
    AheadToy(w1, Bob);
    var e2, w2: World, m := Single(w1, Bob);
    AheadToy(w2, Alice);
    DeafSends(w2, v);
    var e3, s3;
    e3, w, first, s3 := DeafHalf(w2, v);
    AheadToy(w, Bob);
    LeadsOn(w0, e1, w1, e2, w2);
    LeadsOn(w0, e1 + e2, w2, e3, w);
    evs := e1 + e2 + e3;
  }

  /**
   * With nothing lost or repeated, a message that carries a PQ step is overtaken by the next one of
   * its epoch. It is delivered from the cache, so Bob never takes the step Alice has taken, and is
   * stuck without her KEM key although his interval is longer than hers.
   */
  lemma PqStepOvertaken() returns (w: World, index: nat)
    ensures Laws(Toy()) && Reachable(Toy(), w) && Allowed(w, Deliver(Bob, index, Coins(w.g)))
    ensures w.alice.t.pq.steps == 1 && w.bob.t.pq.steps == 0 && CarriesStep(w.alice.outbox[index].header)
    ensures var (t', r) := Decrypt(Toy(), w.bob.t, w.alice.outbox[index].wire, Coins(w.g));
            r == Ok(w.alice.outbox[index].plaintext) && t'.pq == w.bob.t.pq && !CanSend(t')
  {
    hide Inv, Toy, Lawful, Laws, ToyHistory, Allowed, Decrypt, Coins, Genuine, CarriesStep, Misread, Holds;
    hide Leads, Start, Started, GoodSetup, Trial, Detect, RestTooLong;
    var v := Intervals(1, 2);
    var evs, m;
    evs, w, m := StepOvertaken(v);
    StartedReaches(v, evs, w);
    index :| 0 <= index < |w.alice.outbox| && w.alice.outbox[index] == m;
    DeliverAllowed(w, Bob, index);
    RealSlot(w, m);
    NothingMissing(Toy(), w, Bob, m);
    Delivery(Toy(), w, Bob, index, Coins(w.g));
    PqChangesExactly(Toy(), w, Bob, index, Coins(w.g));
    DecryptFrame(Toy(), w.bob.t, m.wire, Coins(w.g));
    ChainFromFirstStep(w, Bob);
  }

  lemma RealSlot(w: World, m: Sent)
    requires Inv(w) && m in w.alice.outbox
    ensures SlotOf(m) != NO_SLOT
  {
    hide SessionOk, Separated, SealMessage, Derived, DistinctMessageKeys;
  }
}
