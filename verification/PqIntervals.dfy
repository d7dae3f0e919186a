/** For which PQ intervals Bob can always send, over all runs and over runs in which no PQ step is overtaken. */
module PqIntervals {
  import opened Wrappers
  import opened Bytes
  import opened Primitives
  import PqRatchet
  import opened MessageFormat
  import opened Schedule
  import opened TripleRatchet
  import opened HeaderRing
  import opened TripleParty
  import opened TripleDelivery
  import opened TripleProtocol
  import opened TripleGuarantees
  import opened PqSession
  import opened PqStall

  // ---------------------------------------------------------------
  // Which intervals let Bob send
  // ---------------------------------------------------------------

  /** The run leads to the state, with the intervals set at the start and kept. */
  ghost predicate RunsTo(s: Suite, shared: Bytes, k: Setup, v: Intervals, evs: seq<Event>, w: World) {
    Laws(s) && IntervalsKept(evs) && ReachableBy(s, shared, k, Setting(v) + evs, w)
  }

  /** In every run with these intervals Bob can send from his first step on. */
  ghost predicate AlwaysSends(v: Intervals) {
    forall s: Suite, shared: Bytes, k: Setup, evs: seq<Event>, w: World ::
      RunsTo(s, shared, k, v, evs, w) && 0 < w.bob.epoch ==> CanSend(w.bob.t)
  }

  /** A message is delivered only after those of its epoch that were sent before it and carry a PQ step. */
  predicate Orderly(w: World, ev: Event) {
    match ev
    case Deliver(to, index, _) =>
      var sent := w.Of(Peer(to)).outbox;
      index < |sent| ==>
        forall i :: 0 <= i < index && sent[i].epoch == sent[index].epoch && CarriesStep(sent[i].header) ==>
          (sent[i].epoch, sent[i].header.number) in w.Of(to).got
    case _ => true
  }

  ghost predicate OrderlyRun(w: World, evs: seq<Event>)
    requires DhLaw(w.g.s) && DeriveLaw(w.g.s) && 0 < |w.g.secrets| == |w.g.roots|
    decreases |evs|
  {
    evs == [] || (Orderly(w, evs[0]) && OrderlyRun(Next(w, evs[0]), evs[1..]))
  }

  ghost predicate OrderlyRunsTo(s: Suite, shared: Bytes, k: Setup, v: Intervals, evs: seq<Event>, w: World) {
    RunsTo(s, shared, k, v, evs, w) && OrderlyRun(Start(s, shared, k).value, Setting(v) + evs)
  }

  /** The same for runs in which no PQ step is overtaken. */
  ghost predicate AlwaysSendsInOrder(v: Intervals) {
    forall s: Suite, shared: Bytes, k: Setup, evs: seq<Event>, w: World ::
      OrderlyRunsTo(s, shared, k, v, evs, w) && 0 < w.bob.epoch ==> CanSend(w.bob.t)
  }

  predicate IntervalsAre(w: World, v: Intervals) {
    w.alice.t.pqInterval == v.alice && w.bob.t.pqInterval == v.bob
  }

  lemma NextIntervals(w: World, v: Intervals, ev: Event, j: Journal)
    requires Inv(w) && Books(w, j) && Allowed(w, ev) && IntervalsAre(w, v) && !ev.SetInterval?
    ensures IntervalsAre(Next(w, ev), v)
  {
    hide Inv, SendBy, ReceiveBy, Encrypt, Extended, Counted, FreshEpoch, AllSeparated, Separated, Steps, CompletesStep;
    InvLaws(w);
    match ev
    case Send(from, plaintext, coins) =>
      ChainFromFirstStep(w, from);
      PqAfterSend(w.g.s, w.Of(from), plaintext, coins);
    case Deliver(to, index, coins) => PqAfterDelivery(w, to, index, coins);
    case PurgeOld(at, maxAge) =>
  }

  // ---------------------------------------------------------------
  // Hearing Alice's first step in time
  // ---------------------------------------------------------------

  /** The epoch in which Alice's first PQ step falls due. */
  function FirstEpoch(v: Intervals): (e: nat) {
    2 * v.alice + 1
  }

  /** Alice begins no PQ step before that epoch, and then at once. */
  ghost predicate AliceOnTime(p: Party, e: nat) {
    (p.epoch <= e && NoneYet(p.outbox, e) ==> p.t.stepsSincePq == p.t.dh.steps) && Announced(p.outbox, e)
  }

  /** No message of an epoch is sent before one of that epoch with a PQ step. */
  ghost predicate Announced(outbox: seq<Sent>, e: nat) {
    forall i :: 0 <= i < |outbox| && outbox[i].epoch == e ==> exists i0 :: 0 <= i0 <= i && FirstStep(outbox, i0, e)
  }

  predicate FirstStep(outbox: seq<Sent>, i: nat, e: nat) {
    i < |outbox| && outbox[i].epoch == e && CarriesStep(outbox[i].header)
  }

  /** Bob has heard of it once he is past that epoch. */
  ghost predicate OnTime(w: World, j: Journal, v: Intervals) {
    IntervalsAre(w, v) && AliceOnTime(w.alice, FirstEpoch(v)) && (FirstEpoch(v) < w.bob.epoch ==> j.bob != [])
  }

  predicate NoneYet(outbox: seq<Sent>, e: nat) {
    forall i :: 0 <= i < |outbox| ==> outbox[i].epoch < e
  }

  lemma AnnouncedMore(outbox: seq<Sent>, m: Sent, e: nat)
    requires Announced(outbox, e) && (forall i :: 0 <= i < |outbox| ==> outbox[i].epoch <= m.epoch)
    requires m.epoch == e && NoneYet(outbox, e) ==> CarriesStep(m.header)
    ensures Announced(outbox + [m], e)
  {
    hide CarriesStep;
    var more := outbox + [m];
    forall i | 0 <= i < |more| && more[i].epoch == e ensures exists i0 :: 0 <= i0 <= i && FirstStep(more, i0, e) {
      if i == |outbox| && NoneYet(outbox, e) {
        assert FirstStep(more, i, e);
      } else {
        var k := if i < |outbox| then i else var k :| 0 <= k < |outbox| && outbox[k].epoch >= e; k;
        var i0 :| 0 <= i0 <= k && FirstStep(outbox, i0, e);
        assert FirstStep(more, i0, e);
      }
    }
  }

  lemma AliceSendsOnTime(w: World, j: Journal, v: Intervals, plaintext: Bytes, coins: SendCoins)
    requires Inv(w) && Books(w, j) && Allowed(w, Send(Alice, plaintext, coins)) && 0 < v.alice < U32
    requires IntervalsAre(w, v) && AliceOnTime(w.alice, FirstEpoch(v))
    ensures AliceOnTime(SendBy(w.g.s, w.alice, plaintext, coins), FirstEpoch(v))
  {
    hide Inv, SendBy, Encrypt, Allowed, Steps, CarriesStep, StepData, NewMessage, Announced;
    var p, e := w.alice, FirstEpoch(v);
    ChainFromFirstStep(w, Alice);
    AliceEpoch(w);
    PqAfterSend(w.g.s, p, plaintext, coins);
    SentBy(w.g.s, p, plaintext, coins);
    if Encrypt(w.g.s, p.t, plaintext, coins).1.Ok? {
      var m := NewMessage(w.g.s, p, plaintext, coins);
      AnnouncedMore(p.outbox, m, e);
      assert (p.outbox + [m])[..|p.outbox|] == p.outbox;
      assert NoneYet(p.outbox + [m], e) ==> NoneYet(p.outbox, e) && p.epoch < e by {
        assert (p.outbox + [m])[|p.outbox|] == m;
        assert forall i :: 0 <= i < |p.outbox| ==> (p.outbox + [m])[i] == p.outbox[i];
      }
    }
  }

  /** Alice's epochs are odd, and she sent nothing in later ones. */
  lemma AliceEpoch(w: World)
    requires Inv(w)
    ensures w.alice.epoch % 2 == 1 && forall i :: 0 <= i < |w.alice.outbox| ==> w.alice.outbox[i].epoch <= w.alice.epoch
  {
    hide SessionOk, HistoryOk, Genuine;
  }

  lemma SentBy(s: Suite, p: Party, plaintext: Bytes, coins: SendCoins)
    ensures var p' := SendBy(s, p, plaintext, coins);
            if Encrypt(s, p.t, plaintext, coins).1.Ok? then
              var m := NewMessage(s, p, plaintext, coins); m.epoch == p.epoch && p'.outbox == p.outbox + [m]
            else p'.outbox == p.outbox
  {
    hide Encrypt;
  }

  /** Entering Alice's first epoch with a step, in order, means reading that step. */
  lemma BobHearsInOrder(w: World, j: Journal, v: Intervals, index: nat, coins: ReceiveCoins)
    requires DhLaw(w.g.s) && DeriveLaw(w.g.s) && 0 < |w.g.secrets| == |w.g.roots| && index < |w.alice.outbox|
    requires Inv(w) && Allowed(w, Deliver(Bob, index, coins)) && AliceOnTime(w.alice, FirstEpoch(v))
    requires Orderly(w, Deliver(Bob, index, coins)) && w.bob.epoch < FirstEpoch(v)
    ensures var p' := ReceiveBy(w.g.s, w.bob, w.alice.outbox[index], coins);
            FirstEpoch(v) < p'.epoch ==> CompletesStep(w.g.s, w.bob.t, w.alice.outbox[index].wire, coins)
  {
    hide Inv, ReceiveBy, FreshEpoch, AllSeparated, Extended, CarriesStep, CompletesStep, Trial, RestTooLong;
    var m, e := w.alice.outbox[index], FirstEpoch(v);
    DeliveredMoves(w, Bob, index, coins);
    DeliveryTakes(w, Bob, index, coins);
    BobEpoch(w);
    if Moves(w.g, w.bob.t, w.bob.epoch, m) && m.epoch == e {
      var i0 :| 0 <= i0 <= index && FirstStep(w.alice.outbox, i0, e);
      NotYetHeard(w, e, w.alice.outbox[i0].header.number);
      assert i0 == index;
      NextEpochUncached(w, Bob, index);
    }
  }

  lemma BobEpoch(w: World)
    requires Inv(w)
    ensures w.bob.epoch % 2 == 0
  {
    hide PartyOk, HistoryOk;
  }

  lemma NotYetHeard(w: World, e: nat, n: nat)
    requires Inv(w) && w.bob.epoch < e
    ensures (e, n) !in w.bob.got
  {
    hide HistoryOk, OutboxOk, CacheOk, TripleAt;
  }

  // ---------------------------------------------------------------
  // Runs
  // ---------------------------------------------------------------

  lemma AliceStaysOnTime(p: Party, p': Party, e: nat)
    requires AliceOnTime(p, e) && p'.outbox == p.outbox && p.epoch <= p'.epoch
    requires p.t.stepsSincePq == p.t.dh.steps ==> p'.t.stepsSincePq == p'.t.dh.steps
    ensures AliceOnTime(p', e)
  {
    hide Announced;
  }

  lemma DeliverOnTime(w: World, j: Journal, v: Intervals, to: Side, index: nat, coins: ReceiveCoins)
    requires Inv(w) && Books(w, j) && OnTime(w, j, v) && Allowed(w, Deliver(to, index, coins))
    requires Orderly(w, Deliver(to, index, coins)) && IntervalsAre(Next(w, Deliver(to, index, coins)), v)
    ensures OnTime(Next(w, Deliver(to, index, coins)), Noted(w, j, Deliver(to, index, coins)), v)
  {
    hide Inv, ReceiveBy, CompletesStep, FreshEpoch, AllSeparated, Extended, StepData, CarriesStep, Books, AliceOnTime;
    hide Orderly, PqRatchet.Complete;
    InvLaws(w);
    PqAfterDelivery(w, to, index, coins);
    BobEpoch(w);
    if to == Alice {
      AliceStaysOnTime(w.alice, Next(w, Deliver(to, index, coins)).alice, FirstEpoch(v));
    } else if w.bob.epoch < FirstEpoch(v) {
      BobHearsInOrder(w, j, v, index, coins);
    }
  }

  lemma NextOnTime(w: World, j: Journal, v: Intervals, ev: Event)
    requires Inv(w) && Books(w, j) && OnTime(w, j, v) && Allowed(w, ev) && Orderly(w, ev) && !ev.SetInterval?
    requires 0 < v.alice < U32
    ensures OnTime(Next(w, ev), Noted(w, j, ev), v)
  {
    hide Inv, Allowed, SendBy, ReceiveBy, Encrypt, Extended, Counted, CompletesStep, Orderly, Books, AliceOnTime;
    InvLaws(w);
    NextIntervals(w, v, ev, j);
    match ev
    case Send(from, plaintext, coins) =>
      SentBy(w.g.s, w.Of(from), plaintext, coins);
      if from == Alice {
        AliceSendsOnTime(w, j, v, plaintext, coins);
      } else {
        BobSends(w.g.s, w.bob, plaintext, coins);
      }
    case Deliver(to, index, coins) => DeliverOnTime(w, j, v, to, index, coins);
    case PurgeOld(at, maxAge) => AliceStaysOnTime(w.alice, Next(w, ev).alice, FirstEpoch(v));
  }

  lemma BobSends(s: Suite, p: Party, plaintext: Bytes, coins: SendCoins)
    ensures SendBy(s, p, plaintext, coins).epoch == p.epoch
  {
    hide Encrypt;
  }

  lemma {:induction false} RunOnTime(w: World, j: Journal, v: Intervals, evs: seq<Event>)
    requires Inv(w) && Books(w, j) && OnTime(w, j, v) && AllowedRun(w, evs) && OrderlyRun(w, evs) && IntervalsKept(evs)
    requires 0 < v.alice < U32
    ensures OnTime(Run(w, evs), Journaled(w, j, evs), v)
    decreases |evs|
  {
    hide Next, Allowed, PartyOk, HistoryOk, Books, Noted, OnTime, Orderly;
    if evs != [] {
      InvLaws(w);
      NextInv(w, evs[0]);
      NextBooks(w, j, evs[0]);
      NextOnTime(w, j, v, evs[0]);
      RunOnTime(Next(w, evs[0]), Noted(w, j, evs[0]), v, evs[1..]);
    }
  }

  lemma {:induction false} RunIntervals(w: World, j: Journal, v: Intervals, evs: seq<Event>)
    requires Inv(w) && Books(w, j) && IntervalsAre(w, v) && AllowedRun(w, evs) && IntervalsKept(evs)
    ensures IntervalsAre(Run(w, evs), v)
    decreases |evs|
  {
    hide Next, Allowed, PartyOk, HistoryOk, Books, Noted, IntervalsAre;
    if evs != [] {
      InvLaws(w);
      NextInv(w, evs[0]);
      NextBooks(w, j, evs[0]);
      NextIntervals(w, v, evs[0], j);
      RunIntervals(Next(w, evs[0]), Noted(w, j, evs[0]), v, evs[1..]);
    }
  }

  /** Bob can send while his own step is not due, and once he has heard one of Alice's. */
  lemma BobCanSend(w: World, j: Journal, v: Intervals)
    requires Inv(w) && Books(w, j) && IntervalsAre(w, v) && 0 < w.bob.epoch
    requires !(0 < v.bob < U32) || (0 < v.alice < v.bob && OnTime(w, j, v))
    ensures CanSend(w.bob.t)
  {
    hide Inv, Steps, AliceOnTime;
    ChainFromFirstStep(w, Bob);
    BobEpoch(w);
  }

  /** After setting both intervals. */
  lemma AfterSetting(s: Suite, shared: Bytes, k: Setup, v: Intervals, evs: seq<Event>) returns (w2: World)
    requires Laws(s) && GoodSetup(s, shared, k) && Start(s, shared, k).Ok?
    requires AllowedRun(Start(s, shared, k).value, Setting(v) + evs)
    ensures w2 == Next(Next(Start(s, shared, k).value, Setting(v)[0]), Setting(v)[1])
    ensures Inv(w2) && Books(w2, BLANK) && OnTime(w2, BLANK, v) && AllowedRun(w2, evs)
    ensures Run(w2, evs) == Run(Start(s, shared, k).value, Setting(v) + evs)
    ensures OrderlyRun(w2, evs) <==> OrderlyRun(Start(s, shared, k).value, Setting(v) + evs)
  {
    hide AllowedRun, Run, InitialHistory, HistoryOk, PartyOk, Inv;
    var w0 := Start(s, shared, k).value;
    var a, b := Setting(v)[0], Setting(v)[1];
    StartInv(s, shared, k);
    StartBooks(s, shared, k);
    SetBoth(w0, v, evs);
    NextInv(w0, a);
    NextBooks(w0, BLANK, a);
    var w1 := Next(w0, a);
    NextBooks(w1, BLANK, b);
    w2 := Next(w1, b);
    assert ([a, b] + evs)[1..] == [b] + evs && ([b] + evs)[1..] == evs;
    assert OrderlyRun(w1, [b] + evs) <==> OrderlyRun(w2, evs);
  }

  /** Half of both results: where Bob can always send. */
  lemma SendsThroughout(s: Suite, shared: Bytes, k: Setup, v: Intervals, evs: seq<Event>, w: World)
    requires RunsTo(s, shared, k, v, evs, w) && 0 < w.bob.epoch
    requires !(0 < v.bob < U32) || (!v.Stalling() && OrderlyRunsTo(s, shared, k, v, evs, w))
    ensures CanSend(w.bob.t)
  {
    hide AllowedRun, Run, Start, HistoryOk, PartyOk, Inv, Books, OrderlyRun, OnTime, CanSend;
    var w2 := AfterSetting(s, shared, k, v, evs);
    OnTimeIntervals(w2, BLANK, v);
    RunBooks(w2, BLANK, evs);
    RunIntervals(w2, BLANK, v, evs);
    if 0 < v.bob < U32 {
      RunOnTime(w2, BLANK, v, evs);
    }
    BobCanSend(w, Journaled(w2, BLANK, evs), v);
  }

  lemma OnTimeIntervals(w: World, j: Journal, v: Intervals)
    requires OnTime(w, j, v)
    ensures IntervalsAre(w, v)
  {
  }

  // ---------------------------------------------------------------
  // Stalling runs are in order
  // ---------------------------------------------------------------

  lemma QuietOrderly(w: World, v: Intervals, ev: Event)
    requires Quiet(w, v)
    ensures Orderly(w, ev)
  {
  }

  /** No PQ step is ever sent in a stalling run, so none is overtaken. */
  lemma {:induction false} QuietRunOrderly(w: World, v: Intervals, evs: seq<Event>)
    requires Inv(w) && Quiet(w, v) && v.Stalling() && AllowedRun(w, evs) && IntervalsKept(evs)
    ensures OrderlyRun(w, evs)
    decreases |evs|
  {
    hide Next, Allowed, PartyOk, HistoryOk, Quiet, Orderly;
    if evs != [] {
      InvLaws(w);
      QuietOrderly(w, v, evs[0]);
      NextInv(w, evs[0]);
      NextQuiet(w, v, evs[0]);
      QuietRunOrderly(Next(w, evs[0]), v, evs[1..]);
    }
  }

  lemma StallingInOrder(s: Suite, shared: Bytes, k: Setup, v: Intervals, evs: seq<Event>, w: World)
    requires RunsTo(s, shared, k, v, evs, w) && v.Stalling()
    ensures OrderlyRunsTo(s, shared, k, v, evs, w)
  {
    hide AllowedRun, Run, HistoryOk, PartyOk, Inv, Books, OrderlyRun, OnTime, Quiet, InitialHistory;
    var w2 := AfterSetting(s, shared, k, v, evs);
    var w0 := Start(s, shared, k).value;
    StartQuiet(s, shared, k, v);
    QuietRunOrderly(w2, v, evs);
  }
}
