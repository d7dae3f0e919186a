/**
 * The PQ step that can never be taken. A receiver starts without the peer's KEM key and learns it
 * only from a PQ step of the peer; with the default interval its own first step falls due one
 * epoch before the peer's.
 */
module PqStall {
  import opened Wrappers
  import opened Bytes
  import opened Primitives
  import opened SymmetricRatchet
  import opened DhRatchet
  import opened MessageFormat
  import opened Schedule
  import opened TripleRatchet
  import opened HeaderRing
  import opened TripleParty
  import opened TripleDelivery
  import opened TripleProtocol
  import opened PqSession

  // ---------------------------------------------------------------
  // Runs with given intervals
  // ---------------------------------------------------------------

  /** Alice's interval and Bob's, Bob's PQ step falling due before any step of Alice's can reach him. */
  datatype Intervals = Intervals(alice: nat, bob: nat) {
    predicate Stalling() {
      0 < bob < U32 && (alice == 0 || bob <= alice)
    }

    /** The epoch in which Bob's first PQ step falls due. */
    function Last(): (e: nat) {
      2 * bob
    }
  }

  /** No PQ step has been taken. */
  predicate NoPqYet(p: Party, last: nat) {
    && p.t.stepsSincePq == p.t.dh.steps
    && (forall m :: m in p.outbox ==> m.epoch < last && m.header.kemPublic.None?)
  }

  predicate Quiet(w: World, v: Intervals) {
    && w.alice.t.pqInterval == v.alice && w.bob.t.pqInterval == v.bob
    && NoPqYet(w.alice, v.Last()) && NoPqYet(w.bob, v.Last())
    && w.alice.epoch < v.Last() && w.bob.epoch <= v.Last()
    && w.alice.t.pq.remote.Some? && w.bob.t.pq.remote == None && w.alice.t.pq.steps == 0 && w.bob.t.pq.steps == 0
  }

  /** Before the last epoch no PQ step is due; in it, one is due at once. */
  lemma DueAtLastEpoch(w: World, v: Intervals)
    requires Inv(w) && Quiet(w, v) && v.Stalling()
    ensures !PqDue(w.alice.t) && (PqDue(w.bob.t) <==> w.bob.epoch == v.Last())
  {
    hide CacheOk, Accounted, RingAt, OutboxOk, HistoryOk;
  }

  lemma SendQuiet(s: Suite, p: Party, last: nat, plaintext: Bytes, coins: SendCoins)
    requires NoPqYet(p, last) && (PqDue(p.t) ==> p.t.pq.remote == None) && (!PqDue(p.t) ==> p.epoch < last)
    ensures var p' := SendBy(s, p, plaintext, coins);
            && NoPqYet(p', last) && p'.t.pq == p.t.pq && p'.epoch == p.epoch && p'.t.pqInterval == p.t.pqInterval
  {
    hide SealMessage;
  }

  lemma ReceiveQuiet(g: History, p: Party, last: nat, m: Sent, coins: ReceiveCoins)
    requires HistoryOk(g) && PartyOk(g, p) && NoPqYet(p, last) && FromPeer(g, p.epoch, m) && m.header.kemPublic.None?
    ensures var p' := ReceiveBy(g.s, p, m, coins);
            NoPqYet(p', last) && p'.t.pq == p.t.pq && p'.t.pqInterval == p.t.pqInterval
  {
    hide Decrypt, Detect, CacheOk, Accounted, OutboxOk, Derived, Genuine, TripleAt, DistinctMessageKeys, LostAfter;
    DecryptFrame(g.s, p.t, m.wire, coins);
    TripleAtRing(g, p.t, p.epoch);
    DetectEpoch(g, p.t, p.epoch, m);
  }

  lemma SendEventQuiet(w: World, v: Intervals, from: Side, plaintext: Bytes, coins: SendCoins)
    requires Inv(w) && Allowed(w, Send(from, plaintext, coins)) && Quiet(w, v) && v.Stalling()
    ensures Quiet(Next(w, Send(from, plaintext, coins)), v)
  {
    hide SessionOk, OutboxOk, SendBy, Encrypt, Counted, Derived, HistoryOk, Separated, NoPqYet, PqDue;
    DueAtLastEpoch(w, v);
    SendQuiet(w.g.s, w.Of(from), v.Last(), plaintext, coins);
  }

  lemma DeliverEventQuiet(w: World, v: Intervals, to: Side, index: nat, coins: ReceiveCoins)
    requires Inv(w) && Allowed(w, Deliver(to, index, coins)) && Quiet(w, v) && v.Stalling()
    ensures Quiet(Next(w, Deliver(to, index, coins)), v)
  {
    hide SessionOk, OutboxOk, ReceiveBy, Decrypt, Extended, Genuine, Misread, Derived, Separated, FreshEpoch;
    hide Deliverable, Laws;
    var p, m := w.Of(to), w.Of(Peer(to)).outbox[index];
    DeliveredFromPeer(w, to, m);
    HistoryLaws(w.g);
    ReceiveQuiet(w.g, p, v.Last(), m, coins);
    ReceiveOk(w.g, p, m, coins);
  }

  lemma NextQuiet(w: World, v: Intervals, ev: Event)
    requires Inv(w) && Allowed(w, ev) && Quiet(w, v) && v.Stalling() && !ev.SetInterval?
    ensures Quiet(Next(w, ev), v)
  {
    hide Inv, Allowed, SendBy, ReceiveBy, Encrypt, Extended, Counted;
    InvLaws(w);
    match ev
    case Send(from, plaintext, coins) => SendEventQuiet(w, v, from, plaintext, coins);
    case Deliver(to, index, coins) => DeliverEventQuiet(w, v, to, index, coins);
    case PurgeOld(at, maxAge) =>
  }

  lemma {:induction false} RunQuiet(w: World, v: Intervals, evs: seq<Event>)
    requires Inv(w) && AllowedRun(w, evs) && Quiet(w, v) && v.Stalling() && IntervalsKept(evs)
    ensures Quiet(Run(w, evs), v)
    decreases |evs|
  {
    hide Next, Allowed, PartyOk, Derived, DistinctMessageKeys, DistinctPublics, Quiet;
    if evs != [] {
      NextInv(w, evs[0]);
      NextQuiet(w, v, evs[0]);
      RunQuiet(Next(w, evs[0]), v, evs[1..]);
    }
  }

  /** Both intervals, set before anything else. */
  function Setting(v: Intervals): (evs: seq<Event>) {
    [SetInterval(Alice, v.alice), SetInterval(Bob, v.bob)]
  }

  /** Nobody changes an interval. */
  predicate IntervalsKept(evs: seq<Event>) {
    forall i :: 0 <= i < |evs| ==> !evs[i].SetInterval?
  }

  /** What stalled means. */
  ghost predicate Stalled(w: World, v: Intervals) {
    && CanSend(w.alice.t) && (CanSend(w.bob.t) <==> 0 < w.bob.epoch < v.Last())
    && w.alice.epoch < v.Last() && w.bob.epoch <= v.Last()
    && (forall m :: m in w.alice.outbox + w.bob.outbox ==> m.epoch < v.Last())
  }

  lemma QuietStalled(w: World, v: Intervals)
    requires Inv(w) && Quiet(w, v) && v.Stalling()
    ensures Stalled(w, v)
  {
    DueAtLastEpoch(w, v);
    hide CacheOk, Accounted, OutboxOk, RingAt, HistoryOk;
  }

  /**
   * The stall. Over every run in which the intervals, once set, are kept, and Bob's is no longer than
   * Alice's or hers is zero, however long the run: Alice can always send; Bob can send from his
   * first step until his n-th, n being his interval, and from then on never again, because the PQ
   * step then due needs a KEM key that only a PQ step of Alice would bring. No message of epoch 2n
   * or later is ever sent.
   */
  lemma Stall(s: Suite, shared: Bytes, k: Setup, v: Intervals, evs: seq<Event>, w: World)
    requires Laws(s) && v.Stalling() && IntervalsKept(evs)
    requires ReachableBy(s, shared, k, Setting(v) + evs, w)
    ensures Stalled(w, v)
  {
    hide AllowedRun, Run, InitialHistory, Derived, PartyOk, Inv, Quiet, Stalled, DistinctMessageKeys;
    var w0 := Start(s, shared, k).value;
    StartInv(s, shared, k);
    SetBoth(w0, v, evs);
    StartQuiet(s, shared, k, v);
    var w2 := Next(Next(w0, Setting(v)[0]), Setting(v)[1]);
    RunInv(w2, evs);
    RunQuiet(w2, v, evs);
    QuietStalled(w, v);
  }

  /** Setting both intervals, then the rest of the run. */
  lemma SetBoth(w: World, v: Intervals, evs: seq<Event>)
    requires Inv(w)
    requires DhLaw(w.g.s) && DeriveLaw(w.g.s) && 0 < |w.g.secrets| == |w.g.roots|
    requires AllowedRun(w, Setting(v) + evs)
    ensures var w2 := Next(Next(w, Setting(v)[0]), Setting(v)[1]);
            && Inv(w2) && AllowedRun(w2, evs)
            && Run(w, Setting(v) + evs) == Run(w2, evs)
  {
    hide Inv;
    var a, b := Setting(v)[0], Setting(v)[1];
    var w1 := Next(w, a);
    assert ([a, b] + evs)[1..] == [b] + evs && ([b] + evs)[1..] == evs;
    NextInv(w, a);
    NextInv(w1, b);
    assert AllowedRun(w1, [b] + evs);
  }

  lemma StartQuiet(s: Suite, shared: Bytes, k: Setup, v: Intervals)
    requires Laws(s) && GoodSetup(s, shared, k) && v.Stalling() && Start(s, shared, k).Ok?
    ensures var w0 := Start(s, shared, k).value;
            Quiet(Next(Next(w0, Setting(v)[0]), Setting(v)[1]), v)
    ensures v == Intervals(DEFAULT_PQ_INTERVAL, DEFAULT_PQ_INTERVAL) ==> Quiet(Start(s, shared, k).value, v)
  {
    hide InitialHistory;
  }

  /** In particular nobody who leaves the default interval alone ever sends a message of epoch 40. */
  lemma DefaultStall(s: Suite, shared: Bytes, k: Setup, evs: seq<Event>, w: World)
    requires Laws(s) && ReachableBy(s, shared, k, evs, w) && IntervalsKept(evs)
    ensures Stalled(w, Intervals(DEFAULT_PQ_INTERVAL, DEFAULT_PQ_INTERVAL))
    ensures forall m :: m in w.alice.outbox + w.bob.outbox ==> m.epoch < 40
  {
    hide AllowedRun, Run, InitialHistory, Derived, PartyOk, Inv, Quiet, DistinctMessageKeys;
    var w0 := Start(s, shared, k).value;
    var v := Intervals(DEFAULT_PQ_INTERVAL, DEFAULT_PQ_INTERVAL);
    StartInv(s, shared, k);
    StartQuiet(s, shared, k, v);
    RunInv(w0, evs);
    RunQuiet(w0, v, evs);
    QuietStalled(w, v);
  }
}
