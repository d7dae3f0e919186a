/** When skipped keys are given up: only when more than MAX_SKIPPED_KEYS were skipped. */
module SkippedKeys {
  import opened Wrappers
  import opened Bytes
  import opened Primitives
  import opened SymmetricRatchet
  import opened DhRatchet
  import opened MessageFormat
  import opened Schedule
  import opened TripleRatchet
  import opened HeaderRing
  import opened TripleParty
  import opened TripleDelivery
  import opened TripleProtocol
  import opened TripleGuarantees

  /** Storing a key costs another one its place exactly if 1000 are held: whichever the map yields. */
  lemma StoreEvictsExactly(t: Triple, publicKey: Bytes, number: nat, key: Bytes, victim: Cache -> Slot, slot: Slot)
    requires slot in t.cache && slot != (publicKey, number)
    ensures var t' := Store(t, publicKey, number, key, victim);
            && (slot !in t'.cache <==> |t.cache| >= 1000 && slot == victim(t.cache))
            && (slot in t'.cache ==> t'.cache[slot] == t.cache[slot])
            && t'.dropped == (if |t.cache| >= 1000 then t.dropped + {victim(t.cache)} else t.dropped)
  {
  }

  /** While there is room, storing drops nothing. */
  lemma {:induction false} StoreAllKeeps(t: Triple, publicKey: Bytes, keys: Keys, victim: Cache -> Slot)
    ensures var t' := StoreAll(t, publicKey, keys, victim);
            && (|t.cache| + |keys| <= 1000 ==>
                  t'.dropped == t.dropped && t.cache.Keys <= t'.cache.Keys && |t'.cache| <= |t.cache| + |keys|)
    decreases |keys|
  {
    if keys != [] && |t.cache| + |keys| <= 1000 {
      StoreOneKeeps(t, publicKey, keys[0].0, keys[0].1, victim);
      hide Store;
      StoreAllKeeps(Store(t, publicKey, keys[0].0, keys[0].1, victim), publicKey, keys[1..], victim);
    }
  }

  lemma StoreOneKeeps(t: Triple, publicKey: Bytes, number: nat, key: Bytes, victim: Cache -> Slot)
    requires |t.cache| < 1000
    ensures var t' := Store(t, publicKey, number, key, victim);
            t'.dropped == t.dropped && t'.cache.Keys == t.cache.Keys + {(publicKey, number)}
            && |t'.cache| <= |t.cache| + 1
  {
    var t' := Store(t, publicKey, number, key, victim);
    assert |t'.cache| == |t'.cache.Keys| && |t.cache| == |t.cache.Keys|;
  }

  // ---------------------------------------------------------------
  // One call
  // ---------------------------------------------------------------

  /** The keys of the old chain that `decrypt` sets aside on entering an epoch. */
  function SetAside(s: Suite, t: Triple, h: Header, changed: bool): (n: nat) {
    if !changed || t.dh.remote.None? then 0 else
      match SkipRemaining(s, t.dh, h.previousLength).1
      case Err(_) => 0
      case Ok(keys) => |keys|
  }

  /** The keys `decrypt` steps over to get at the message's own. */
  function SteppedOver(s: Suite, t: Triple, h: Header): (n: nat) {
    match ReceiveKey(s, t.dh, h.number).1
    case Err(_) => 0
    case Ok(incoming) => |incoming.skipped|
  }

  /** How many keys a call of `decrypt` skips. */
  function Skips(s: Suite, t: Triple, m: Encrypted, coins: ReceiveCoins): (n: nat)
    requires DeriveLaw(s)
  {
    if TrySkipped(s, t, m).1 != Ok(None) || Detect(s, t, m).Err? then 0 else
      var (h, changed) := Detect(s, t, m).value;
      var (t2, entered) := if changed then EnterEpoch(s, t, h, coins) else (t, Ok(()));
      SetAside(s, t, h, changed) + if entered.Err? then 0 else SteppedOver(s, t2, h)
  }

  lemma EnterEpochKeeps(s: Suite, t: Triple, h: Header, coins: ReceiveCoins)
    requires DeriveLaw(s)
    ensures var t', n := EnterEpoch(s, t, h, coins).0, SetAside(s, t, h, true);
            |t.cache| + n <= 1000 ==> t'.dropped == t.dropped && |t'.cache| <= |t.cache| + n
  {
    hide StoreAll, SkipRemaining, RatchetStep;
    if t.dh.remote.Some? {
      var (dh, r) := SkipRemaining(s, t.dh, h.previousLength);
      if r.Ok? {
        StoreAllKeeps(t.(dh := dh), t.dh.remote.value, r.value, coins.victim);
      }
    }
  }

  lemma OpenBodyKeeps(s: Suite, t: Triple, h: Header, m: Encrypted, victim: Cache -> Slot)
    ensures var t', n := OpenBody(s, t, h, m, victim).0, SteppedOver(s, t, h);
            |t.cache| + n <= 1000 ==> t'.dropped == t.dropped && |t'.cache| <= |t.cache| + n
  {
    hide StoreAll, ReceiveKey;
    var (dh, r) := ReceiveKey(s, t.dh, h.number);
    if r.Ok? {
      StoreAllKeeps(t.(dh := dh), h.dhPublic, r.value.skipped, victim);
    }
  }

  lemma ReceivePqKeeps(s: Suite, t: Triple, h: Header, coins: ReceiveCoins)
    ensures var t' := ReceivePq(s, t, h, coins); t'.dh == t.dh && t'.cache == t.cache && t'.dropped == t.dropped
  {
  }

  /** A call of `decrypt` on any bytes that leaves at most 1000 keys to hold gives up none. */
  lemma DecryptKeeps(s: Suite, t: Triple, m: Encrypted, coins: ReceiveCoins)
    requires DeriveLaw(s)
    ensures var t', n := Decrypt(s, t, m, coins).0, Skips(s, t, m, coins);
            |t.cache| + n <= 1000 ==> t'.dropped == t.dropped && |t'.cache| <= |t.cache| + n
  {
    hide OpenBody, EnterEpoch, Detect, FirstHeader, ReceiveKey, SkipRemaining, ReceivePq;
    var (t1, cached) := TrySkipped(s, t, m);
    assert |t1.cache| <= |t.cache| && t1.dropped == t.dropped by {
      SubsetBounded(t1.cache.Keys, t.cache.Keys);
      assert |t1.cache| == |t1.cache.Keys| && |t.cache| == |t.cache.Keys|;
    }
    if cached == Ok(None) && Detect(s, t1, m).Ok? {
      var (h, changed) := Detect(s, t1, m).value;
      if changed {
        EnterEpochKeeps(s, t1, h, coins);
      }
      var t2 := if changed then EnterEpoch(s, t1, h, coins).0 else t1;
      ReceivePqKeeps(s, t2, h, coins);
      OpenBodyKeeps(s, ReceivePq(s, t2, h, coins), h, m, coins.victim);
    }
  }

  // ---------------------------------------------------------------
  // Every run
  // ---------------------------------------------------------------

  /** How many keys an event makes a party skip. */
  function SkipsAt(w: World, ev: Event, side: Side): (n: nat)
    requires DeriveLaw(w.g.s)
  {
    if ev.Deliver? && ev.to == side && ev.index < |w.Of(Peer(side)).outbox|
    then Skips(w.g.s, w.Of(side).t, w.Of(Peer(side)).outbox[ev.index].wire, ev.coins) else 0
  }

  /** How many keys a run makes a party skip. */
  ghost function SkippedBy(w: World, evs: seq<Event>, side: Side): (n: nat)
    requires DhLaw(w.g.s) && DeriveLaw(w.g.s) && 0 < |w.g.secrets| == |w.g.roots|
    decreases |evs|
  {
    if evs == [] then 0 else SkipsAt(w, evs[0], side) + SkippedBy(Next(w, evs[0]), evs[1..], side)
  }

  predicate NoPurges(evs: seq<Event>) {
    forall i :: 0 <= i < |evs| ==> !evs[i].PurgeOld?
  }

  lemma EncryptKeepsDropped(s: Suite, t: Triple, plaintext: Bytes, coins: SendCoins)
    ensures Encrypt(s, t, plaintext, coins).0.dropped == t.dropped
  {
    hide SealMessage;
  }

  lemma NextKeeps(w: World, ev: Event, side: Side)
    requires DhLaw(w.g.s) && DeriveLaw(w.g.s) && 0 < |w.g.secrets| == |w.g.roots| && !ev.PurgeOld?
    ensures var t, t', n := w.Of(side).t, Next(w, ev).Of(side).t, SkipsAt(w, ev, side);
            |t.cache| + n <= 1000 ==> t'.dropped == t.dropped && |t'.cache| <= |t.cache| + n
  {
    hide Encrypt, Decrypt, Skips, Extended, Counted, NewMessage, LostAfter;
    match ev
    case Send(from, plaintext, coins) =>
      EncryptKeepsCache(w.g.s, w.Of(from).t, plaintext, coins);
      EncryptKeepsDropped(w.g.s, w.Of(from).t, plaintext, coins);
    case Deliver(to, index, coins) =>
      if index < |w.Of(Peer(to)).outbox| {
        DecryptKeeps(w.g.s, w.Of(to).t, w.Of(Peer(to)).outbox[index].wire, coins);
      }
    case SetInterval(at, interval) =>
  }

  lemma {:induction false} RunKeeps(w: World, evs: seq<Event>, side: Side)
    requires DhLaw(w.g.s) && DeriveLaw(w.g.s) && 0 < |w.g.secrets| == |w.g.roots| && NoPurges(evs)
    requires |w.Of(side).t.cache| + SkippedBy(w, evs, side) <= 1000
    ensures Run(w, evs).Of(side).t.dropped == w.Of(side).t.dropped
    decreases |evs|
  {
    hide Next, SkipsAt;
    if evs != [] {
      NextKeeps(w, evs[0], side);
      RunKeeps(Next(w, evs[0]), evs[1..], side);
    }
  }

  /** Over every run without purges a party that skipped at most 1000 keys has given up none. */
  lemma NothingDropped(s: Suite, shared: Bytes, k: Setup, evs: seq<Event>, w: World, side: Side)
    requires Laws(s) && ReachableBy(s, shared, k, evs, w) && NoPurges(evs)
    requires SkippedBy(Start(s, shared, k).value, evs, side) <= 1000
    ensures w.Of(side).t.dropped == {}
  {
    hide AllowedRun, Run, InitialHistory, SkippedBy, NoPurges;
    RunKeeps(Start(s, shared, k).value, evs, side);
  }

  /**
   * So no message is missing. Over every run without purges in which the receiver skipped at most
   * 1000 keys, in whatever order, with whatever lost or repeated: every message the peer sent that is
   * neither decrypted nor lost is not misread, and is deliverable exactly if it is within the window
   * and of an epoch whose header key is kept.
   */
  lemma NothingMissingWhileRoom(s: Suite, shared: Bytes, k: Setup, evs: seq<Event>, w: World, to: Side, m: Sent)
    requires Laws(s) && ReachableBy(s, shared, k, evs, w) && NoPurges(evs)
    requires SkippedBy(Start(s, shared, k).value, evs, to) <= 1000
    requires m in w.Of(Peer(to)).outbox && (m.epoch, m.header.number) !in w.Of(to).got + w.Of(to).lost
    ensures Inv(w) && FromPeer(w.g, w.Of(to).epoch, m) && w.Of(to).epoch < |w.g.secrets|
    ensures !Misread(s, w.Of(to).t, m)
    ensures Deliverable(w.g, w.Of(to).t, w.Of(to).epoch, m) <==> WithinLimits(w.g, w.Of(to), m)
  {
    hide AllowedRun, Run, Start, SkippedBy, NoPurges, Inv, Misread, Deliverable, WithinLimits, Genuine;
    NothingDropped(s, shared, k, evs, w, to);
    NothingMissing(s, w, to, m);
  }
}
