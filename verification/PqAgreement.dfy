/** When the PQ ratchets of two sessions agree. */
module PqAgreement {
  import opened Wrappers
  import opened Bytes
  import opened Primitives
  import PqRatchet
  import opened MessageFormat
  import opened Schedule
  import opened TripleRatchet
  import opened HeaderRing
  import opened TripleDelivery
  import opened TripleProtocol
  import opened TripleGuarantees
  import opened PqSession

  // ---------------------------------------------------------------
  // Matched steps
  // ---------------------------------------------------------------

  /** Every PQ step sent was completed once, in order; the parties took turns, and `turn` is next. */
  predicate Settled(w: World, j: Journal, turn: Side) {
    && j.bob == Steps(w.alice.outbox) && j.alice == Steps(w.bob.outbox)
    && |Steps(w.alice.outbox)| == |Steps(w.bob.outbox)| + (if turn == Alice then 0 else 1)
  }

  /** The same, save that the last step of `from` is still to be completed. */
  predicate InFlight(w: World, j: Journal, from: Side) {
    var sent := Steps(w.Of(from).outbox);
    && sent != [] && j.Of(Peer(from)) == sent[..|sent| - 1] && j.Of(from) == Steps(w.Of(Peer(from)).outbox)
    && |Steps(w.alice.outbox)| == |Steps(w.bob.outbox)| + (if from == Alice then 1 else 0)
  }

  predicate Matched(w: World, j: Journal) {
    Settled(w, j, Alice) || Settled(w, j, Bob) || InFlight(w, j, Alice) || InFlight(w, j, Bob)
  }

  /**
   * The guard, on what is known before the call: a party begins a PQ step only in its turn with none
   * in flight, and completes only the one in flight to it.
   */
  predicate Guard(w: World, j: Journal, ev: Event)
    requires DeriveLaw(w.g.s)
  {
    match ev
    case Send(from, _, _) => Initiates(w.Of(from).t) ==> Settled(w, j, from)
    case Deliver(to, index, coins) =>
      var sent := w.Of(Peer(to)).outbox;
      index < |sent| && CompletesStep(w.g.s, w.Of(to).t, sent[index].wire, coins) ==>
        InFlight(w, j, Peer(to)) && Steps(sent)[|Steps(sent)| - 1] == sent[index]
    case _ => true
  }

  ghost predicate GuardedRun(w: World, j: Journal, evs: seq<Event>)
    requires DhLaw(w.g.s) && DeriveLaw(w.g.s) && 0 < |w.g.secrets| == |w.g.roots|
    decreases |evs|
  {
    evs == [] || (Guard(w, j, evs[0]) && GuardedRun(Next(w, evs[0]), Noted(w, j, evs[0]), evs[1..]))
  }

  // ---------------------------------------------------------------
  // Agreement
  // ---------------------------------------------------------------

  /** Equal chain keys and counters, and the one that goes next holds the other's current KEM key. */
  predicate Agree(s: Suite, next: PqRatchet.Pq, other: PqRatchet.Pq) {
    next.chainKey == other.chainKey && next.steps == other.steps && next.remote == Some(KemPublicKey(s, other.secret))
  }

  predicate Agreed(w: World, turn: Side) {
    Agree(w.g.s, w.Of(turn).t.pq, w.Of(Peer(turn)).t.pq)
  }

  /** Completing this step makes them agree, whatever key pair is generated. */
  ghost predicate AgreeOnceDone(s: Suite, from: PqRatchet.Pq, to: PqRatchet.Pq, data: PqRatchet.KemData) {
    forall newSecret: Bytes :: Agree(s, PqRatchet.Complete(s, to, data, newSecret), from)
  }

  ghost predicate AgreedOnceDone(w: World, from: Side) {
    var sent := Steps(w.Of(from).outbox);
    && sent != [] && CarriesStep(sent[|sent| - 1].header)
    && AgreeOnceDone(w.g.s, w.Of(from).t.pq, w.Of(Peer(from)).t.pq, StepData(sent[|sent| - 1].header))
  }

  /** The PQ ratchets agree, up to the step in flight. */
  ghost predicate InStep(w: World, j: Journal) {
    || (Settled(w, j, Alice) && Agreed(w, Alice)) || (Settled(w, j, Bob) && Agreed(w, Bob))
    || (InFlight(w, j, Alice) && AgreedOnceDone(w, Alice)) || (InFlight(w, j, Bob) && AgreedOnceDone(w, Bob))
  }

  /** They agree in every state of the run. */
  ghost predicate InStepRun(w: World, j: Journal, evs: seq<Event>)
    requires DhLaw(w.g.s) && DeriveLaw(w.g.s) && 0 < |w.g.secrets| == |w.g.roots|
    decreases |evs|
  {
    InStep(w, j) && (evs == [] || InStepRun(Next(w, evs[0]), Noted(w, j, evs[0]), evs[1..]))
  }

  /** A step begun with the peer's current key is one that completing it settles. */
  lemma BegunStep(s: Suite, p: PqRatchet.Pq, q: PqRatchet.Pq, coins: Bytes, newSecret: Bytes)
    requires KemLaw(s) && Agree(s, p, q)
    ensures var (p', r) := PqRatchet.Initiate(s, p, coins, newSecret); r.Ok? && AgreeOnceDone(s, p', q, r.value)
  {
    var (ciphertext, shared) := Encapsulate(s, KemPublicKey(s, q.secret), coins);
    assert Decapsulate(s, q.secret, ciphertext) == shared;
  }

  /** What a sending event leaves. */
  lemma SendParts(w: World, j: Journal, from: Side, plaintext: Bytes, coins: SendCoins)
    requires Inv(w) && Books(w, j) && Allowed(w, Send(from, plaintext, coins))
    ensures Initiates(w.Of(from).t) ==> w.Of(from).t.dh.send.Some?
    ensures var w' := Next(w, Send(from, plaintext, coins));
            && w'.Of(from) == SendBy(w.g.s, w.Of(from), plaintext, coins) && w'.Of(Peer(from)) == w.Of(Peer(from))
            && w'.g.s == w.g.s && KemLaw(w.g.s) && Noted(w, j, Send(from, plaintext, coins)) == j
  {
    hide SendBy, Encrypt, Separated, Counted, PartyOk, Steps, PqDue;
    ChainFromFirstStep(w, from);
  }

  /** Nothing happened to the PQ side of a party. */
  predicate Unmoved(p: Party, p': Party) {
    p'.t.pq == p.t.pq && Steps(p'.outbox) == Steps(p.outbox)
  }

  lemma UnmovedInStep(w: World, w': World, j: Journal)
    requires InStep(w, j) && w'.g.s == w.g.s && Unmoved(w.alice, w'.alice) && Unmoved(w.bob, w'.bob)
    ensures InStep(w', j)
  {
    hide Steps, CarriesStep, StepData, AgreeOnceDone, Agree;
  }

  lemma InTurn(w: World, j: Journal, side: Side)
    requires InStep(w, j) && Settled(w, j, side)
    ensures Agreed(w, side)
  {
    hide Steps, Agreed, AgreedOnceDone;
  }

  lemma InFlightAgreed(w: World, j: Journal, from: Side)
    requires InStep(w, j) && InFlight(w, j, from)
    ensures AgreedOnceDone(w, from)
  {
    hide Steps, Agreed, AgreedOnceDone;
  }

  /** A step begun in turn. */
  lemma BegunInStep(w: World, w': World, j: Journal, from: Side, m: Sent, coins: SendCoins)
    requires KemLaw(w.g.s) && w'.g.s == w.g.s && Settled(w, j, from) && Agreed(w, from)
    requires w'.Of(Peer(from)) == w.Of(Peer(from)) && CarriesStep(m.header)
    requires Steps(w'.Of(from).outbox) == Steps(w.Of(from).outbox) + [m]
    requires PqRatchet.Initiate(w.g.s, w.Of(from).t.pq, coins.kemCoins, coins.kemSecret)
          == (w'.Of(from).t.pq, Ok(StepData(m.header)))
    ensures InStep(w', j)
  {
    hide Steps, CarriesStep, StepData, AgreeOnceDone, PqRatchet.Initiate, KemLaw, Agree;
    BegunStep(w.g.s, w.Of(from).t.pq, w.Of(Peer(from)).t.pq, coins.kemCoins, coins.kemSecret);
    var sent := Steps(w'.Of(from).outbox);
    assert sent[..|sent| - 1] == Steps(w.Of(from).outbox);
    assert InFlight(w', j, from);
  }

  lemma SendInStep(w: World, j: Journal, from: Side, plaintext: Bytes, coins: SendCoins)
    requires Inv(w) && Books(w, j) && Allowed(w, Send(from, plaintext, coins)) && InStep(w, j)
    requires Initiates(w.Of(from).t) ==> Settled(w, j, from)
    ensures InStep(Next(w, Send(from, plaintext, coins)), j)
  {
    hide Inv, Books, Allowed, Next, SendBy, Encrypt, Steps, Initiates, CarriesStep, NewMessage, StepData;
    hide PqRatchet.Initiate, InStep, KemLaw, Settled, Agreed;
    InvLaws(w);
    SendParts(w, j, from, plaintext, coins);
    var p, w' := w.Of(from), Next(w, Send(from, plaintext, coins));
    PqAfterSend(w.g.s, p, plaintext, coins);
    if Initiates(p.t) {
      InTurn(w, j, from);
      BegunInStep(w, w', j, from, NewMessage(w.g.s, p, plaintext, coins), coins);
    } else {
      UnmovedInStep(w, w', j);
    }
  }

  /** What a delivery leaves. */
  lemma DeliverParts(w: World, j: Journal, to: Side, index: nat, coins: ReceiveCoins)
    requires Inv(w) && Allowed(w, Deliver(to, index, coins))
    ensures var m := w.Of(Peer(to)).outbox[index];
            var w', j' := Next(w, Deliver(to, index, coins)), Noted(w, j, Deliver(to, index, coins));
            && w'.Of(to) == ReceiveBy(w.g.s, w.Of(to), m, coins) && w'.Of(Peer(to)) == w.Of(Peer(to))
            && w'.g.s == w.g.s && j'.Of(Peer(to)) == j.Of(Peer(to))
            && j'.Of(to) == j.Of(to) + (if CompletesStep(w.g.s, w.Of(to).t, m.wire, coins) then [m] else [])
  {
    hide ReceiveBy, Extended, CompletesStep, PartyOk, HistoryOk, FreshEpoch, AllSeparated;
  }

  /** The step in flight completed. */
  lemma CompletedInStep(w: World, w': World, j: Journal, j': Journal, to: Side, newSecret: Bytes)
    requires InStep(w, j) && w'.g.s == w.g.s && InFlight(w, j, Peer(to))
    requires w'.Of(Peer(to)) == w.Of(Peer(to)) && Steps(w'.Of(to).outbox) == Steps(w.Of(to).outbox)
    requires var sent := Steps(w.Of(Peer(to)).outbox);
             var m := sent[|sent| - 1];
             && j'.Of(to) == j.Of(to) + [m] && j'.Of(Peer(to)) == j.Of(Peer(to)) && CarriesStep(m.header)
             && w'.Of(to).t.pq == PqRatchet.Complete(w.g.s, w.Of(to).t.pq, StepData(m.header), newSecret)
    ensures InStep(w', j')
  {
    hide Steps, CarriesStep, StepData, PqRatchet.Complete, Agree;
    InFlightAgreed(w, j, Peer(to));
    var sent := Steps(w.Of(Peer(to)).outbox);
    assert sent[..|sent| - 1] + [sent[|sent| - 1]] == sent;
    assert Settled(w', j', to);
  }

  lemma DeliverInStep(w: World, j: Journal, to: Side, index: nat, coins: ReceiveCoins)
    requires Inv(w) && Allowed(w, Deliver(to, index, coins)) && InStep(w, j) && DeriveLaw(w.g.s)
    requires Guard(w, j, Deliver(to, index, coins))
    ensures InStep(Next(w, Deliver(to, index, coins)), Noted(w, j, Deliver(to, index, coins)))
  {
    hide Inv, Allowed, Next, Noted, ReceiveBy, CompletesStep, Steps, CarriesStep, StepData, PqRatchet.Complete;
    hide InStep, PqFrame, InFlight;
    InvLaws(w);
    Delivered(w, to, index, coins);
    DeliverParts(w, j, to, index, coins);
    PqAfterDelivery(w, to, index, coins);
    var w', j' := Next(w, Deliver(to, index, coins)), Noted(w, j, Deliver(to, index, coins));
    if CompletesStep(w.g.s, w.Of(to).t, w.Of(Peer(to)).outbox[index].wire, coins) {
      CompletedInStep(w, w', j, j', to, coins.kemSecret);
    } else {
      assert j' == j;
      UnmovedInStep(w, w', j);
    }
  }

  lemma Delivered(w: World, to: Side, index: nat, coins: ReceiveCoins)
    requires Inv(w) && Allowed(w, Deliver(to, index, coins))
    ensures index < |w.Of(Peer(to)).outbox|
  {
    hide FreshEpoch, AllSeparated, Extended;
  }

  lemma NextInStep(w: World, j: Journal, ev: Event)
    requires Inv(w) && Books(w, j) && Allowed(w, ev) && InStep(w, j) && DeriveLaw(w.g.s) && Guard(w, j, ev)
    ensures InStep(Next(w, ev), Noted(w, j, ev))
  {
    hide Inv, Allowed, Books, CompletesStep, Steps, InStep, SendBy, ReceiveBy, Encrypt, Extended, Initiates, InFlight;
    hide Settled;
    InvLaws(w);
    match ev
    case Send(from, plaintext, coins) =>
      SendParts(w, j, from, plaintext, coins);
      SendInStep(w, j, from, plaintext, coins);
    case Deliver(to, index, coins) => DeliverInStep(w, j, to, index, coins);
    case PurgeOld(at, maxAge) => UnmovedInStep(w, Next(w, ev), j);
    case SetInterval(at, interval) => UnmovedInStep(w, Next(w, ev), j);
  }

  // ---------------------------------------------------------------
  // The guard is exact
  // ---------------------------------------------------------------

  lemma UnguardedSend(w: World, j: Journal, from: Side, plaintext: Bytes, coins: SendCoins)
    requires Inv(w) && Books(w, j) && Allowed(w, Send(from, plaintext, coins)) && Matched(w, j)
    requires Initiates(w.Of(from).t) && !Settled(w, j, from)
    ensures !Matched(Next(w, Send(from, plaintext, coins)), j)
  {
    hide Inv, Allowed, Books, Steps, CarriesStep, StepData, SendBy, Next, Encrypt, NewMessage, Initiates;
    hide PqRatchet.Initiate;
    InvLaws(w);
    SendParts(w, j, from, plaintext, coins);
    PqAfterSend(w.g.s, w.Of(from), plaintext, coins);
  }

  lemma UnguardedDeliver(w: World, j: Journal, to: Side, index: nat, coins: ReceiveCoins)
    requires Inv(w) && Allowed(w, Deliver(to, index, coins)) && Matched(w, j) && DeriveLaw(w.g.s)
    requires !Guard(w, j, Deliver(to, index, coins))
    ensures !Matched(Next(w, Deliver(to, index, coins)), Noted(w, j, Deliver(to, index, coins)))
  {
    hide Inv, Allowed, CompletesStep, Steps, CarriesStep, StepData, ReceiveBy, Next, Noted, PqRatchet.Complete, PqFrame;
    InvLaws(w);
    Delivered(w, to, index, coins);
    DeliverParts(w, j, to, index, coins);
    PqAfterDelivery(w, to, index, coins);
    var sent := Steps(w.Of(Peer(to)).outbox);
    if InFlight(w, j, Peer(to)) {
      assert sent == sent[..|sent| - 1] + [sent[|sent| - 1]];
    }
  }

  /** From a matched state, the guard allows exactly the events after which the steps are still matched. */
  lemma UnguardedUnmatched(w: World, j: Journal, ev: Event)
    requires Inv(w) && Books(w, j) && Allowed(w, ev) && Matched(w, j) && DeriveLaw(w.g.s) && !Guard(w, j, ev)
    ensures !Matched(Next(w, ev), Noted(w, j, ev))
  {
    hide Inv, Allowed, Books, CompletesStep, Next, Matched, InFlight, Settled, Initiates;
    match ev
    case Send(from, plaintext, coins) =>
      SendParts(w, j, from, plaintext, coins);
      UnguardedSend(w, j, from, plaintext, coins);
    case Deliver(to, index, coins) => UnguardedDeliver(w, j, to, index, coins);
  }

  lemma InStepMatched(w: World, j: Journal)
    requires InStep(w, j)
    ensures Matched(w, j)
  {
  }

  /** From a state in which they agree, they agree all along a run exactly if the run is guarded. */
  lemma {:induction false} RunInStep(w: World, j: Journal, evs: seq<Event>)
    requires Inv(w) && Books(w, j) && AllowedRun(w, evs) && InStep(w, j)
    ensures InStepRun(w, j, evs) <==> GuardedRun(w, j, evs)
    ensures GuardedRun(w, j, evs) ==> InStep(Run(w, evs), Journaled(w, j, evs))
    decreases |evs|
  {
    hide Next, Allowed, PartyOk, HistoryOk, Books, Noted, InStep, Guard, Matched;
    if evs != [] {
      InvLaws(w);
      NextInv(w, evs[0]);
      NextBooks(w, j, evs[0]);
      var w', j' := Next(w, evs[0]), Noted(w, j, evs[0]);
      if Guard(w, j, evs[0]) {
        NextInStep(w, j, evs[0]);
        RunInStep(w', j', evs[1..]);
      } else {
        InStepMatched(w, j);
        UnguardedUnmatched(w, j, evs[0]);
        if InStep(w', j') {
          InStepMatched(w', j');
        }
      }
    }
  }

  lemma StartInStep(s: Suite, shared: Bytes, k: Setup)
    requires Laws(s) && Start(s, shared, k).Ok?
    ensures InStep(Start(s, shared, k).value, BLANK)
  {
    hide InitialHistory;
    assert Settled(Start(s, shared, k).value, BLANK, Alice);
  }

  /**
   * PQ agreement of a session. Over every run from the start, whatever is lost, reordered or
   * delivered twice: the two PQ ratchets agree in all its states, up to the step in flight, exactly
   * if every step is begun in turn with none in flight and completed once. Then the chain keys and
   * counters are equal at the end, or will be when the step in flight is completed.
   */
  lemma SessionAgreement(s: Suite, shared: Bytes, k: Setup, evs: seq<Event>, w: World)
    requires Laws(s) && ReachableBy(s, shared, k, evs, w)
    ensures var w0 := Start(s, shared, k).value;
            && (InStepRun(w0, BLANK, evs) <==> GuardedRun(w0, BLANK, evs))
            && (GuardedRun(w0, BLANK, evs) ==> InStep(w, JournalOf(s, shared, k, evs)))
  {
    hide AllowedRun, Run, InitialHistory, Start, PartyOk, HistoryOk, Books, InStep, InStepRun, GuardedRun;
    StartInv(s, shared, k);
    StartBooks(s, shared, k);
    StartInStep(s, shared, k);
    RunInStep(Start(s, shared, k).value, BLANK, evs);
  }

  /**
   * In particular a step completed when none is in flight, which only a repeated message can cause,
   * puts the counters apart.
   */
  lemma RepeatPartsCounters(w: World, j: Journal, to: Side, index: nat, coins: ReceiveCoins, turn: Side)
    requires Inv(w) && Books(w, j) && Allowed(w, Deliver(to, index, coins)) && Settled(w, j, turn) && Agreed(w, turn)
    requires DeriveLaw(w.g.s) && CompletesStep(w.g.s, w.Of(to).t, w.Of(Peer(to)).outbox[index].wire, coins)
    ensures w.Of(Peer(to)).outbox[index] in j.Of(to)
    ensures var w' := Next(w, Deliver(to, index, coins)); w'.alice.t.pq.steps != w'.bob.t.pq.steps
  {
    hide Inv, Allowed, CompletesStep, Steps, StepData, ReceiveBy, Next, Noted;
    Delivered(w, to, index, coins);
    DeliverParts(w, j, to, index, coins);
    PqAfterDelivery(w, to, index, coins);
    var m := w.Of(Peer(to)).outbox[index];
    CompletedPq(w.g.s, w.Of(to).t.pq, StepData(m.header), coins.kemSecret);
    StepsHold(w.Of(Peer(to)).outbox, index);
  }

  /** With a step of its own in flight, a party that begins or completes another one is two steps ahead. */
  lemma TwoAhead(w: World, j: Journal, from: Side, ev: Event)
    requires Inv(w) && Books(w, j) && Allowed(w, ev) && InFlight(w, j, from) && AgreedOnceDone(w, from)
    requires DeriveLaw(w.g.s) && !Guard(w, j, ev) && (ev.Send? ==> ev.from == from) && (ev.Deliver? ==> ev.to == from)
    ensures var w' := Next(w, ev); w'.Of(from).t.pq.steps == Wrap32(w'.Of(Peer(from)).t.pq.steps + 2)
  {
    hide Inv, Allowed, Books, CompletesStep, Steps, StepData, SendBy, ReceiveBy, Next, Noted, Encrypt, NewMessage;
    hide CarriesStep, Initiates, PqRatchet.Complete, PqRatchet.Initiate, PqFrame, Settled;
    InvLaws(w);
    var p, q := w.Of(from).t.pq, w.Of(Peer(from)).t.pq;
    var sent := Steps(w.Of(from).outbox);
    CompletedPq(w.g.s, q, StepData(sent[|sent| - 1].header), []);
    assert Agree(w.g.s, PqRatchet.Complete(w.g.s, q, StepData(sent[|sent| - 1].header), []), p);
    WrapNext(q.steps + 1);
    match ev
    case Send(_, plaintext, coins) =>
      SendParts(w, j, from, plaintext, coins);
      PqAfterSend(w.g.s, w.Of(from), plaintext, coins);
      BegunCounts(w.g.s, p, coins);
    case Deliver(_, index, coins) =>
      Delivered(w, from, index, coins);
      DeliverParts(w, j, from, index, coins);
      PqAfterDelivery(w, from, index, coins);
      CompletedPq(w.g.s, p, StepData(w.Of(Peer(from)).outbox[index].header), coins.kemSecret);
  }

  lemma BegunCounts(s: Suite, p: PqRatchet.Pq, coins: SendCoins)
    requires PqRatchet.Initiate(s, p, coins.kemCoins, coins.kemSecret).1.Ok?
    ensures PqRatchet.Initiate(s, p, coins.kemCoins, coins.kemSecret).0.steps == Wrap32(p.steps + 1)
  {
  }

  lemma {:induction false} StepsHold(outbox: seq<Sent>, index: nat)
    requires index < |outbox| && CarriesStep(outbox[index].header)
    ensures outbox[index] in Steps(outbox)
  {
    var n := |outbox| - 1;
    if index < n {
      StepsHold(outbox[..n], index);
    }
  }

  /**
   * A step begun out of turn, none being in flight, is sealed under a key the other party has
   * replaced. Completing it makes them agree exactly if the two secrets, the one encapsulated and
   * the one decapsulated with the current key, happen to derive the same chain key.
   */
  lemma OutOfTurn(w: World, j: Journal, from: Side, plaintext: Bytes, coins: SendCoins)
    requires Inv(w) && Books(w, j) && Allowed(w, Send(from, plaintext, coins)) && Initiates(w.Of(from).t)
    requires Settled(w, j, Peer(from)) && Agreed(w, Peer(from))
    ensures var s, p, q := w.g.s, w.Of(from).t.pq, w.Of(Peer(from)).t.pq;
            var (ciphertext, shared) := Encapsulate(s, p.remote.value, coins.kemCoins);
            AgreedOnceDone(Next(w, Send(from, plaintext, coins)), from) <==>
              Derive(s, p.chainKey, shared, PqChainInfo, KEY_SIZE)
              == Derive(s, p.chainKey, Decapsulate(s, q.secret, ciphertext), PqChainInfo, KEY_SIZE)
  {
    hide Inv, Books, Allowed, Next, SendBy, Encrypt, Steps, CarriesStep, NewMessage, PqDue;
    InvLaws(w);
    SendParts(w, j, from, plaintext, coins);
    PqAfterSend(w.g.s, w.Of(from), plaintext, coins);
    var m := NewMessage(w.g.s, w.Of(from), plaintext, coins);
    var q' := PqRatchet.Complete(w.g.s, w.Of(Peer(from)).t.pq, StepData(m.header), []);
  }
}
