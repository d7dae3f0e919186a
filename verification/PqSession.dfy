/** The PQ ratchets of two sessions: which calls step them, who can send, and when they agree. */
module PqSession {
  import opened Wrappers
  import opened Bytes
  import opened Primitives
  import opened SymmetricRatchet
  import opened DhRatchet
  import PqRatchet
  import opened MessageFormat
  import opened Schedule
  import opened TripleRatchet
  import opened HeaderRing
  import opened TripleParty
  import opened TripleDelivery
  import opened TripleProtocol
  import opened TripleGuarantees

  /** The parts of a session the PQ schedule depends on, across one call of `decrypt`. */
  predicate PqFrame(t: Triple, t': Triple) {
    && t'.pqInterval == t.pqInterval
    && ((t'.stepsSincePq == t.stepsSincePq && t'.dh.steps == t.dh.steps)
        || (t'.stepsSincePq == Wrap32(t.stepsSincePq + 1) && t'.dh.steps == Wrap32(t.dh.steps + 1)))
  }

  lemma {:induction false} StoreAllFrame(t: Triple, publicKey: Bytes, keys: Keys, victim: Cache -> Slot)
    ensures var t' := StoreAll(t, publicKey, keys, victim); t' == t.(cache := t'.cache, dropped := t'.dropped)
    decreases |keys|
  {
    if keys != [] {
      StoreAllFrame(Store(t, publicKey, keys[0].0, keys[0].1, victim), publicKey, keys[1..], victim);
    }
  }

  lemma OpenBodyFrame(s: Suite, t: Triple, h: Header, m: Encrypted, victim: Cache -> Slot)
    ensures var t' := OpenBody(s, t, h, m, victim).0;
            && t'.pq == t.pq && t'.dh.steps == t.dh.steps
            && t'.pqInterval == t.pqInterval && t'.stepsSincePq == t.stepsSincePq
  {
    hide StoreAll;
    var (dh, r) := ReceiveKey(s, t.dh, h.number);
    if r.Ok? {
      StoreAllFrame(t.(dh := dh), h.dhPublic, r.value.skipped, victim);
    }
  }

  lemma EnterEpochFrame(s: Suite, t: Triple, h: Header, coins: ReceiveCoins)
    requires DeriveLaw(s)
    ensures var t' := EnterEpoch(s, t, h, coins).0; PqFrame(t, t') && t'.pq == t.pq
  {
    hide StoreAll;
    var (t1, saved) := SaveOldChain(s, t, h, coins.victim);
    assert t1 == t.(dh := t1.dh, cache := t1.cache, dropped := t1.dropped) && t1.dh == t.dh.(recv := t1.dh.recv) by {
      if t.dh.remote.Some? && SkipRemaining(s, t.dh, h.previousLength).1.Ok? {
        var (dh, r) := SkipRemaining(s, t.dh, h.previousLength);
        StoreAllFrame(t.(dh := dh), t.dh.remote.value, r.value, coins.victim);
      }
    }
  }

  /** A message without KEM data leaves the PQ ratchet alone, and steps are counted as they are taken. */
  lemma DecryptFrame(s: Suite, t: Triple, m: Encrypted, coins: ReceiveCoins)
    requires DeriveLaw(s)
    ensures var t' := Decrypt(s, t, m, coins).0;
            && PqFrame(t, t')
            && ((Detect(s, t, m).Ok? ==> Detect(s, t, m).value.0.kemPublic.None?) ==> t'.pq == t.pq)
  {
    hide OpenBody, EnterEpoch, Detect;
    var (t1, cached) := TrySkipped(s, t, m);
    if cached == Ok(None) && Detect(s, t1, m).Ok? {
      var (h, changed) := Detect(s, t1, m).value;
      if changed {
        EnterEpochFrame(s, t1, h, coins);
      }
      var t2 := if changed then EnterEpoch(s, t1, h, coins).0 else t1;
      OpenBodyFrame(s, ReceivePq(s, t2, h, coins), h, m, coins.victim);
    }
  }

  // ---------------------------------------------------------------
  // Which deliveries step the PQ ratchet
  // ---------------------------------------------------------------

  /** The PQ step of a header. */
  function StepData(h: Header): (data: PqRatchet.KemData)
    requires CarriesStep(h)
  {
    PqRatchet.KemData(h.kemCiphertext.value, h.kemPublic.value)
  }

  /** `decrypt` gets to its PQ part, with a header that carries a step. */
  predicate CompletesStep(s: Suite, t: Triple, m: Encrypted, coins: ReceiveCoins)
    requires DeriveLaw(s)
  {
    && TrySkipped(s, t, m).1 == Ok(None) && Detect(s, t, m).Ok?
    && var (h, changed) := Detect(s, t, m).value;
    CarriesStep(h) && (changed ==> EnterEpoch(s, t, h, coins).1.Ok?)
  }

  lemma CompletedPq(s: Suite, p: PqRatchet.Pq, data: PqRatchet.KemData, newSecret: Bytes)
    ensures PqRatchet.Complete(s, p, data, newSecret).steps == Wrap32(p.steps + 1)
    ensures PqRatchet.Complete(s, p, data, newSecret) != p || p.steps >= U32
  {
  }

  /** `decrypt` on any bytes completes the PQ step its PQ part is given, and does nothing else to the PQ ratchet. */
  lemma PqAfter(s: Suite, t: Triple, m: Encrypted, coins: ReceiveCoins)
    requires DeriveLaw(s)
    ensures Decrypt(s, t, m, coins).0.pq
         == if CompletesStep(s, t, m, coins)
            then PqRatchet.Complete(s, t.pq, StepData(Detect(s, t, m).value.0), coins.kemSecret)
            else t.pq
  {
    hide OpenBody, EnterEpoch, Detect, PqRatchet.Complete, FirstHeader;
    if TrySkipped(s, t, m).1 == Ok(None) && Detect(s, t, m).Ok? {
      var (h, changed) := Detect(s, t, m).value;
      if changed {
        EnterEpochFrame(s, t, h, coins);
      }
      var t2 := if changed then EnterEpoch(s, t, h, coins).0 else t;
      OpenBodyFrame(s, ReceivePq(s, t2, h, coins), h, m, coins.victim);
    }
  }

  /**
   * Which messages of the peer step the PQ ratchet: those that carry a step, are not answered by the
   * cache, and whose header opens, the peer's next epoch being entered.
   */
  ghost predicate TakesStep(g: History, t: Triple, j: nat, m: Sent)
    requires Sound(g) && j < |g.secrets|
  {
    && CarriesStep(m.header)
    && (SlotOf(m) !in t.cache || m.epoch !in Trial(j))
    && (if m.epoch == j + 1 then !RestTooLong(g, t, j) else StillOpens(j, m.epoch))
  }

  lemma TakesStepExactly(g: History, t: Triple, j: nat, got: set<(nat, nat)>, lost: set<(nat, nat)>, m: Sent,
                         coins: ReceiveCoins)
    requires HistoryOk(g) && SessionOk(g, t, j, got, lost) && FromPeer(g, j, m)
    requires m.epoch == j + 1 ==> |g.secrets| == j + 2
    ensures CompletesStep(g.s, t, m.wire, coins) <==> TakesStep(g, t, j, m)
    ensures CompletesStep(g.s, t, m.wire, coins) ==> Detect(g.s, t, m.wire).value.0 == m.header
  {
    hide TrySkipped, Detect, EnterEpoch, CacheOk, Accounted, TripleAt, Separated, SealMessage, Extended, Trial;
    hide Derived, DistinctMessageKeys, CarriesStep;
    TripleAtRing(g, t, j);
    if SlotOf(m) in t.cache && m.epoch in Trial(j) {
      SkippedHit(g, t, j, m);
    } else {
      SkippedMiss(g, t, j, m);
      DetectEpoch(g, t, j, m);
      if m.epoch == j + 1 {
        EnterEpochMeaning(g, t, j, got, lost, m, coins);
      }
    }
  }

  lemma DeliveryTakes(w: World, to: Side, index: nat, coins: ReceiveCoins)
    requires Inv(w) && index < |w.Of(Peer(to)).outbox|
    ensures Sound(w.g) && DeriveLaw(w.g.s) && w.Of(to).epoch < |w.g.secrets|
    ensures var p, m := w.Of(to), w.Of(Peer(to)).outbox[index];
            && (CompletesStep(w.g.s, p.t, m.wire, coins) <==> TakesStep(w.g, p.t, p.epoch, m))
            && (CompletesStep(w.g.s, p.t, m.wire, coins) ==> Detect(w.g.s, p.t, m.wire).value.0 == m.header)
  {
    hide Inv, CompletesStep, TakesStep, Genuine, SessionOk;
    var p, m := w.Of(to), w.Of(Peer(to)).outbox[index];
    InvParts(w, to);
    SessionParts(w.g, p);
    DeliveredFromPeer(w, to, m);
    TakesStepExactly(w.g, p.t, p.epoch, p.got, p.lost, m, coins);
  }

  /** No key of the peer's next epoch is cached. */
  lemma NextEpochUncached(w: World, to: Side, index: nat)
    requires Inv(w) && index < |w.Of(Peer(to)).outbox| && w.Of(Peer(to)).outbox[index].epoch == w.Of(to).epoch + 1
    ensures SlotOf(w.Of(Peer(to)).outbox[index]) !in w.Of(to).t.cache
  {
    hide Inv, Accounted, TripleAt, SealMessage, Separated, Laws, Derived, DistinctMessageKeys, CacheOk, OutboxOk;
    var p, m := w.Of(to), w.Of(Peer(to)).outbox[index];
    InvParts(w, to);
    SessionParts(w.g, p);
    DeliveredFromPeer(w, to, m);
    if SlotOf(m) in p.t.cache {
      CachedNumber(w.g, p.t, p.epoch, m);
    }
  }

  // ---------------------------------------------------------------
  // The steps of a run
  // ---------------------------------------------------------------

  /** The messages that carry a PQ step. */
  function Steps(outbox: seq<Sent>): (steps: seq<Sent>) {
    if outbox == [] then [] else
      var n := |outbox| - 1;
      Steps(outbox[..n]) + (if CarriesStep(outbox[n].header) then [outbox[n]] else [])
  }

  lemma StepsOfMore(outbox: seq<Sent>, m: Sent)
    ensures Steps(outbox + [m]) == Steps(outbox) + (if CarriesStep(m.header) then [m] else [])
  {
    assert (outbox + [m])[..|outbox|] == outbox;
  }

  /** For each party the messages whose PQ step it completed, in that order. */
  datatype Journal = Journal(alice: seq<Sent>, bob: seq<Sent>) {
    function Of(side: Side): (done: seq<Sent>) {
      if side == Alice then alice else bob
    }

    function With(side: Side, done: seq<Sent>): (j: Journal) {
      if side == Alice then this.(alice := done) else this.(bob := done)
    }
  }

  const BLANK: Journal := Journal([], [])

  function Noted(w: World, j: Journal, ev: Event): (j': Journal)
    requires DeriveLaw(w.g.s)
  {
    match ev
    case Deliver(to, index, coins) =>
      if index < |w.Of(Peer(to)).outbox| && CompletesStep(w.g.s, w.Of(to).t, w.Of(Peer(to)).outbox[index].wire, coins)
      then j.With(to, j.Of(to) + [w.Of(Peer(to)).outbox[index]]) else j
    case _ => j
  }

  /** The journal after a run. */
  ghost function Journaled(w: World, j: Journal, evs: seq<Event>): (j': Journal)
    requires DhLaw(w.g.s) && DeriveLaw(w.g.s) && 0 < |w.g.secrets| == |w.g.roots|
    decreases |evs|
  {
    if evs == [] then j else Journaled(Next(w, evs[0]), Noted(w, j, evs[0]), evs[1..])
  }

  /** The next `encrypt` begins a PQ step. */
  predicate Initiates(t: Triple) {
    PqDue(t) && t.pq.remote.Some?
  }

  /** `encrypt` and the PQ ratchet. */
  lemma PqAfterEncrypt(s: Suite, t: Triple, plaintext: Bytes, coins: SendCoins)
    requires Initiates(t) ==> t.dh.send.Some?
    ensures var (t', r) := Encrypt(s, t, plaintext, coins);
            var begun := PqRatchet.Initiate(s, t.pq, coins.kemCoins, coins.kemSecret);
            && t'.dh.steps == t.dh.steps && t'.pqInterval == t.pqInterval
            && (r.Ok? ==> EncryptPq(s, t, coins).1.Ok? && EncryptKey(s, t.dh).1.Ok?)
            && (if Initiates(t) then
                  && r.Ok? && t'.pq == begun.0 && t'.stepsSincePq == 0 && CarriesStep(SentHeader(s, t, coins))
                  && begun.1 == Ok(StepData(SentHeader(s, t, coins)))
                else
                  && t'.pq == t.pq && t'.stepsSincePq == t.stepsSincePq
                  && (r.Ok? ==> !CarriesStep(SentHeader(s, t, coins))))
  {
    hide SealMessage;
  }

  /** A sending event. */
  lemma PqAfterSend(s: Suite, p: Party, plaintext: Bytes, coins: SendCoins)
    requires Initiates(p.t) ==> p.t.dh.send.Some?
    ensures var p' := SendBy(s, p, plaintext, coins);
            var begun := PqRatchet.Initiate(s, p.t.pq, coins.kemCoins, coins.kemSecret);
            && p'.t.dh.steps == p.t.dh.steps && p'.t.pqInterval == p.t.pqInterval && p'.epoch == p.epoch
            && (if Initiates(p.t) then
                  && Encrypt(s, p.t, plaintext, coins).1.Ok? && p'.t.pq == begun.0 && p'.t.stepsSincePq == 0
                  && var m := NewMessage(s, p, plaintext, coins);
                  && p'.outbox == p.outbox + [m] && Steps(p'.outbox) == Steps(p.outbox) + [m]
                  && CarriesStep(m.header) && begun.1 == Ok(StepData(m.header))
                else
                  p'.t.pq == p.t.pq && p'.t.stepsSincePq == p.t.stepsSincePq && Steps(p'.outbox) == Steps(p.outbox))
  {
    hide Encrypt, Initiates, CarriesStep, PqRatchet.Initiate, SentHeader, Steps, StepData;
    PqAfterEncrypt(s, p.t, plaintext, coins);
    if Encrypt(s, p.t, plaintext, coins).1.Ok? {
      StepsOfMore(p.outbox, NewMessage(s, p, plaintext, coins));
    }
  }

  /** A delivery. */
  lemma PqAfterDelivery(w: World, to: Side, index: nat, coins: ReceiveCoins)
    requires Inv(w) && Allowed(w, Deliver(to, index, coins))
    ensures var p, m := w.Of(to), w.Of(Peer(to)).outbox[index];
            var p' := ReceiveBy(w.g.s, p, m, coins);
            && PqFrame(p.t, p'.t) && p'.outbox == p.outbox && p.epoch <= p'.epoch
            && (if CompletesStep(w.g.s, p.t, m.wire, coins) then
                  && CarriesStep(m.header) && 0 < p'.epoch
                  && p'.t.pq == PqRatchet.Complete(w.g.s, p.t.pq, StepData(m.header), coins.kemSecret)
                else p'.t.pq == p.t.pq)
  {
    hide Inv, Decrypt, CompletesStep, LostAfter, PqRatchet.Complete, PqFrame, Detect, HistoryOk, PartyOk, FreshEpoch;
    hide AllSeparated, Separated, Extended, FromPeer, Trial, RestTooLong;
    var p, m := w.Of(to), w.Of(Peer(to)).outbox[index];
    DeliveryTakes(w, to, index, coins);
    PqAfter(w.g.s, p.t, m.wire, coins);
    DecryptFrame(w.g.s, p.t, m.wire, coins);
    if p.epoch == 0 {
      DeliveredMoves(w, to, index, coins);
    }
  }

  lemma DeliveredMoves(w: World, to: Side, index: nat, coins: ReceiveCoins)
    requires Inv(w) && Allowed(w, Deliver(to, index, coins))
    ensures Sound(w.g) && w.Of(to).epoch < |w.g.secrets|
    ensures var p, m := w.Of(to), w.Of(Peer(to)).outbox[index];
            ReceiveBy(w.g.s, p, m, coins).epoch == if Moves(w.g, p.t, p.epoch, m) then p.epoch + 2 else p.epoch
  {
    hide Inv, ReceiveBy, HistoryOk, PartyOk, FreshEpoch, AllSeparated, Separated, Extended, FromPeer, Moves;
    var p, m := w.Of(to), w.Of(Peer(to)).outbox[index];
    InvParts(w, to);
    DeliveredFromPeer(w, to, m);
    DeliveredSeparated(w, to, index, coins);
    BothSeparated(w, to, index, coins);
    ReceiveOk(w.g, p, m, coins);
  }

  lemma BothSeparated(w: World, to: Side, index: nat, coins: ReceiveCoins)
    requires Inv(w) && Allowed(w, Deliver(to, index, coins))
    ensures FreshEpoch(w.g, coins.dhSecret) && AllSeparated(Extended(w.g, coins.dhSecret), w.Of(to).outbox)
  {
    hide AllSeparated, Extended, FreshEpoch, PartyOk, HistoryOk;
  }

  // ---------------------------------------------------------------
  // What every run keeps
  // ---------------------------------------------------------------

  /** The PQ counter counts the steps begun and the steps completed. */
  predicate StepsCounted(p: Party, done: seq<Sent>) {
    p.t.pq.steps == Wrap32(|Steps(p.outbox)| + |done|)
  }

  /** Alice holds a KEM key of Bob; he holds one of hers exactly after completing a step, and begins none before. */
  ghost predicate Books(w: World, j: Journal) {
    && w.alice.t.pq.remote.Some? && 0 < w.alice.epoch
    && (w.bob.t.pq.remote.Some? <==> j.bob != [])
    && (j.bob != [] ==> 0 < w.bob.epoch)
    && (j.bob == [] ==> w.bob.t.stepsSincePq == w.bob.t.dh.steps)
    && StepsCounted(w.alice, j.alice) && StepsCounted(w.bob, j.bob)
  }

  lemma WrapNext(n: nat)
    ensures Wrap32(Wrap32(n) + 1) == Wrap32(n + 1)
  {
  }

  /** A party past epoch 0 has a sending chain. */
  lemma ChainFromFirstStep(w: World, side: Side)
    requires Inv(w)
    ensures w.Of(side).t.dh.send.Some? <==> 0 < w.Of(side).epoch
    ensures w.Of(side).t.dh.steps == Wrap32(w.Of(side).epoch / 2)
  {
    hide HistoryOk, OutboxOk, CacheOk, Accounted, RingAt;
  }

  lemma SendBooks(w: World, j: Journal, from: Side, plaintext: Bytes, coins: SendCoins)
    requires Inv(w) && Books(w, j) && Allowed(w, Send(from, plaintext, coins))
    ensures Books(Next(w, Send(from, plaintext, coins)), j)
  {
    hide Inv, SendBy, Encrypt, Separated, Counted, Steps, Wrap32, StepData, CarriesStep, NewMessage, PqDue;
    var p := w.Of(from);
    ChainFromFirstStep(w, from);
    PqAfterSend(w.g.s, p, plaintext, coins);
    WrapNext(|Steps(p.outbox)| + |j.Of(from)|);
  }

  lemma DeliverBooks(w: World, j: Journal, to: Side, index: nat, coins: ReceiveCoins)
    requires Inv(w) && Books(w, j) && Allowed(w, Deliver(to, index, coins))
    ensures Books(Next(w, Deliver(to, index, coins)), Noted(w, j, Deliver(to, index, coins)))
  {
    hide Inv, ReceiveBy, CompletesStep, FreshEpoch, AllSeparated, Extended, Steps, Wrap32, StepData, CarriesStep;
    InvLaws(w);
    PqAfterDelivery(w, to, index, coins);
    WrapNext(|Steps(w.Of(to).outbox)| + |j.Of(to)|);
  }

  lemma NextBooks(w: World, j: Journal, ev: Event)
    requires Inv(w) && Books(w, j) && Allowed(w, ev)
    ensures Books(Next(w, ev), Noted(w, j, ev))
  {
    hide Inv, Allowed, CompletesStep, Steps, Wrap32;
    InvLaws(w);
    match ev
    case Send(from, plaintext, coins) => SendBooks(w, j, from, plaintext, coins);
    case Deliver(to, index, coins) => DeliverBooks(w, j, to, index, coins);
    case PurgeOld(at, maxAge) =>
    case SetInterval(at, interval) =>
  }

  lemma {:induction false} RunBooks(w: World, j: Journal, evs: seq<Event>)
    requires Inv(w) && Books(w, j) && AllowedRun(w, evs)
    ensures Inv(Run(w, evs)) && Books(Run(w, evs), Journaled(w, j, evs))
    decreases |evs|
  {
    hide Next, Allowed, PartyOk, HistoryOk, Books, Noted;
    if evs != [] {
      InvLaws(w);
      NextInv(w, evs[0]);
      NextBooks(w, j, evs[0]);
      RunBooks(Next(w, evs[0]), Noted(w, j, evs[0]), evs[1..]);
    }
  }

  /** The journal of a run from the start. */
  ghost function JournalOf(s: Suite, shared: Bytes, k: Setup, evs: seq<Event>): (j: Journal)
    requires DhLaw(s) && DeriveLaw(s) && Start(s, shared, k).Ok?
  {
    Journaled(Start(s, shared, k).value, BLANK, evs)
  }

  lemma StartBooks(s: Suite, shared: Bytes, k: Setup)
    requires Laws(s) && Start(s, shared, k).Ok?
    ensures Books(Start(s, shared, k).value, BLANK)
  {
    hide InitialHistory;
  }

  lemma ReachableBooks(s: Suite, shared: Bytes, k: Setup, evs: seq<Event>, w: World)
    requires Laws(s) && ReachableBy(s, shared, k, evs, w)
    ensures Inv(w) && Books(w, JournalOf(s, shared, k, evs))
  {
    hide AllowedRun, Run, InitialHistory, Start, PartyOk, HistoryOk, Books;
    StartInv(s, shared, k);
    StartBooks(s, shared, k);
    RunBooks(Start(s, shared, k).value, BLANK, evs);
  }

  /**
   * Who can send, over every run. Alice always can. Bob can exactly if he has a sending chain and
   * no PQ step is due, or he has read a PQ step of hers off her chain: one that comes from the cache
   * does not count.
   */
  lemma WhoCanSend(s: Suite, shared: Bytes, k: Setup, evs: seq<Event>, w: World)
    requires Laws(s) && ReachableBy(s, shared, k, evs, w)
    ensures CanSend(w.alice.t)
    ensures CanSend(w.bob.t) <==>
              && w.bob.t.dh.send.Some?
              && (|| w.bob.t.pqInterval == 0 || w.bob.t.stepsSincePq < w.bob.t.pqInterval
                  || JournalOf(s, shared, k, evs).bob != [])
  {
    hide Inv, ReachableBy, JournalOf, Steps;
    ReachableBooks(s, shared, k, evs, w);
    ChainFromFirstStep(w, Alice);
  }

  /** Over every run a PQ counter counts, modulo 2^32, the steps sent and the steps read off the chain. */
  lemma PqCounters(s: Suite, shared: Bytes, k: Setup, evs: seq<Event>, w: World, side: Side)
    requires Laws(s) && ReachableBy(s, shared, k, evs, w)
    ensures w.Of(side).t.pq.steps == Wrap32(|Steps(w.Of(side).outbox)| + |JournalOf(s, shared, k, evs).Of(side)|)
  {
    hide Inv, ReachableBy, JournalOf, Steps;
    ReachableBooks(s, shared, k, evs, w);
  }

  /**
   * The PQ ratchet across any delivery, accepted or refused, in every reachable state: it changes
   * exactly if the message carries a step, is not answered by the cache, its header opens, and
   * entering its epoch is not refused; the change is the step completed.
   */
  lemma PqChangesExactly(s: Suite, w: World, to: Side, index: nat, coins: ReceiveCoins)
    requires Laws(s) && Reachable(s, w) && Allowed(w, Deliver(to, index, coins))
    ensures Sound(w.g) && w.Of(to).epoch < |w.g.secrets|
    ensures var p, m := w.Of(to), w.Of(Peer(to)).outbox[index];
            var pq := Decrypt(s, p.t, m.wire, coins).0.pq;
            var takes := TakesStep(w.g, p.t, p.epoch, m);
            && (pq != p.t.pq <==> takes)
            && (takes ==> pq == PqRatchet.Complete(s, p.t.pq, StepData(m.header), coins.kemSecret))
  {
    hide Inv, Decrypt, PqRatchet.Complete, CompletesStep, HistoryOk, SessionOk, ReachableBy, FreshEpoch;
    hide AllSeparated, Extended, Steps, JournalOf, Trial, RestTooLong, StillOpens;
    var shared: Bytes, k: Setup, evs: seq<Event> :| ReachableBy(s, shared, k, evs, w);
    ReachableBooks(s, shared, k, evs, w);
    DeliveryTakes(w, to, index, coins);
    var p, m := w.Of(to), w.Of(Peer(to)).outbox[index];
    PqAfter(s, p.t, m.wire, coins);
    if CompletesStep(s, p.t, m.wire, coins) {
      CompletedPq(s, p.t.pq, StepData(m.header), coins.kemSecret);
    }
  }
}
