/** A run of two toy DH ratchets that reaches a stale header. */
module RatchetWitnesses {
  import opened Wrappers
  import opened Bytes
  import opened Primitives
  import opened SymmetricRatchet
  import opened DhRatchet
  import opened Schedule
  import opened DhProtocol
  import opened ToySuite

  /** The party ahead has sent nothing in its epoch yet; ratchet secrets are consecutive numbers. */
  ghost predicate Ready(w: World, from: Side) {
    && DhLaw(Toy()) && DeriveLaw(Toy()) && Inv(Toy(), [], w) && |w.secrets| < 100
    && (forall i: nat :: i < |w.secrets| ==> w.secrets[i] == Num(i))
    && w.Of(from).epoch + 1 == |w.secrets| && SentCount(w.Of(from).dh) == 0
  }

  lemma NextFresh(w: World, from: Side)
    requires Ready(w, from)
    ensures FreshSecret(Toy(), w.secrets, Num(|w.secrets|))
  {
    hide Toy, Num, Inv;
    forall i: nat | i < |w.secrets| ensures PublicKey(Toy(), Num(|w.secrets|)) != PublicKey(Toy(), w.secrets[i]) {
      ToyPublic(i);
      ToyPublic(|w.secrets|);
      NumInjective(i, |w.secrets|);
    }
  }

  /** The two events of a turn: the party ahead sends, the other reads and is then ahead. */
  function Turn(w: World, from: Side): (evs: seq<Event>) {
    [Send(from), Deliver(Peer(from), |w.Of(from).outbox|, Num(|w.secrets|))]
  }

  lemma SendInv(w: World, from: Side)
    requires Ready(w, from)
    ensures var w1 := Next(Toy(), w, Send(from));
            && Allowed(Toy(), w, Send(from)) && Inv(Toy(), [], w1) && w1.secrets == w.secrets
            && w1.Of(Peer(from)) == w.Of(Peer(from)) && w1.Of(from).epoch == w.Of(from).epoch
            && |w1.Of(from).outbox| == |w.Of(from).outbox| + 1 && w.Of(from).outbox <= w1.Of(from).outbox
            && w1.Of(from).outbox[|w.Of(from).outbox|].epoch == w.Of(from).epoch
            && w1.Of(from).outbox[|w.Of(from).outbox|].number == 0
            && w.Of(Peer(from)).epoch + 1 == w.Of(from).epoch
  {
    hide Toy, Num;
    SendPartyOk(Toy(), [], w.secrets, w.Of(from));
  }

  lemma TurnWorks(w: World, from: Side)
    requires Ready(w, from)
    ensures AllowedRun(Toy(), w, Turn(w, from))
    ensures var w2 := Run(Toy(), w, Turn(w, from));
            && (|w2.secrets| < 100 ==> Ready(w2, Peer(from))) && |w2.secrets| == |w.secrets| + 1
            && w2.Of(Peer(from)).epoch == w.Of(from).epoch + 1 && w2.Of(from).epoch == w.Of(from).epoch
            && w.Of(from).outbox <= w2.Of(from).outbox && w2.Of(Peer(from)).outbox == w.Of(Peer(from)).outbox
            && |w2.Of(from).outbox| > |w.Of(from).outbox|
            && w2.Of(from).outbox[|w.Of(from).outbox|].epoch == w.Of(from).epoch
            && w2.Of(from).outbox[|w.Of(from).outbox|].number == 0
  {
    hide Toy, Num, Inv, Next, Allowed;
    SendInv(w, from);
    NextFresh(w, from);
    var w1, evs := Next(Toy(), w, Send(from)), Turn(w, from);
    ReadInv(w1, from, |w.Of(from).outbox|);
    assert evs[1..] == [evs[1]] && [evs[1]][1..] == [];
    var w2 := Next(Toy(), w1, evs[1]);
    assert AllowedRun(Toy(), w2, []) && Run(Toy(), w2, []) == w2;
    assert AllowedRun(Toy(), w1, [evs[1]]) && Run(Toy(), w1, [evs[1]]) == w2;
  }

  lemma ReadInv(w: World, from: Side, index: nat)
    requires DhLaw(Toy()) && DeriveLaw(Toy()) && Inv(Toy(), [], w) && FreshSecret(Toy(), w.secrets, Num(|w.secrets|))
    requires index < |w.Of(from).outbox|
    requires w.Of(from).outbox[index].epoch == w.Of(from).epoch == w.Of(Peer(from)).epoch + 1
    ensures var ev := Deliver(Peer(from), index, Num(|w.secrets|));
            var w' := Next(Toy(), w, ev);
            && Allowed(Toy(), w, ev) && Inv(Toy(), [], w') && w'.secrets == w.secrets + [Num(|w.secrets|)]
            && w'.Of(from) == w.Of(from) && w'.Of(Peer(from)).epoch == w.Of(Peer(from)).epoch + 2
            && w'.Of(Peer(from)).outbox == w.Of(Peer(from)).outbox && SentCount(w'.Of(Peer(from)).dh) == 0
  {
    hide Toy, Num, DecryptKey, RatchetStep, Output, HeaderKeysOk, Segment, KeyAt, DistinctPublics;
    var p, m, x := w.Of(Peer(from)), w.Of(from).outbox[index], Num(|w.secrets|);
    DeliveredEpoch(Toy(), [], w, Peer(from), m);
    DeliverNextInv(Toy(), [], w, Peer(from), index, x);
    RatchetPartyOk(Toy(), [], w.secrets, w.headerKeys, p, m, x);
    DecryptNext(Toy(), [], w.secrets, p.dh, p.epoch, m.number, x);
  }

  lemma {:induction false} RunOn(w: World, evs: seq<Event>, evs': seq<Event>)
    requires DeriveLaw(Toy()) && AllowedRun(Toy(), w, evs) && AllowedRun(Toy(), Run(Toy(), w, evs), evs')
    ensures AllowedRun(Toy(), w, evs + evs') && Run(Toy(), w, evs + evs') == Run(Toy(), Run(Toy(), w, evs), evs')
    decreases |evs|
  {
    hide Toy, Next, Allowed;
    if evs == [] {
      assert evs + evs' == evs';
    } else {
      RunOn(Next(Toy(), w, evs[0]), evs[1..], evs');
      assert (evs + evs')[1..] == evs[1..] + evs' && (evs + evs')[0] == evs[0];
    }
  }

  /** The toy schedule: derivation j yields the number j three times. */
  lemma {:induction false} ToyOutput(secrets: seq<Bytes>, j: nat)
    requires DhLaw(Toy()) && DeriveLaw(Toy()) && j < |secrets| && j < 100
    ensures RootAt(Toy(), [], secrets, j) == if j == 0 then [] else Num(j)
    ensures 0 < j ==> Output(Toy(), [], secrets, j) == RootOutput(Num(j), Num(j), Num(j))
  {
    if j > 0 {
      hide Num, Clip, Mix;
      ToyOutput(secrets, j - 1);
      var shared := SharedSecret(Toy(), secrets[j - 1], PublicKey(Toy(), secrets[j])).value;
      ToyRootKdf(RootAt(Toy(), [], secrets, j - 1), j - 1, shared);
    }
  }

  lemma ToyRootKdf(root: Bytes, n: nat, secret: Bytes)
    requires DeriveLaw(Toy()) && n < 100 && root == if n == 0 then [] else Num(n)
    ensures RootKdf(Toy(), root, secret) == RootOutput(Num(n + 1), Num(n + 1), Num(n + 1))
  {
    hide Num;
    NumValue(n);
    var next := Num(n + 1);
    var out := next + next + next;
    Parts(next, next, next);
    assert out[64..96] == out[64..];
    assert Derive(Toy(), root, secret, DhRootInfo, 96) == out;
  }

  lemma StartReady()
    ensures DhLaw(Toy()) && DeriveLaw(Toy()) && PublicKey(Toy(), Num(0)) != PublicKey(Toy(), Num(1))
    ensures Start(Toy(), [], Num(0), Num(1)).Ok? && Ready(Start(Toy(), [], Num(0), Num(1)).value, Alice)
    ensures |Start(Toy(), [], Num(0), Num(1)).value.secrets| == 2
    ensures Start(Toy(), [], Num(0), Num(1)).value.alice.outbox == []
  {
    hide Toy, Num;
    ToyLawful();
    ToyPublic(0);
    ToyPublic(1);
    NumInjective(0, 1);
    StartInv(Toy(), [], Num(0), Num(1));
  }

  /** Three turns from the start. */
  lemma ThreeTurns() returns (w: World)
    ensures DhLaw(Toy()) && DeriveLaw(Toy()) && Reachable(Toy(), [], w) && Ready(w, Bob)
    ensures w.bob.epoch == 4 && |w.alice.outbox| > 0 && w.alice.outbox[0].epoch == 1 && w.alice.outbox[0].number == 0
  {
    hide Toy, Num, Inv, Next, Allowed, Start, Ready, Turn;
    StartReady();
    var w0 := Start(Toy(), [], Num(0), Num(1)).value;
    ReadySizes(w0, Alice);
    TurnWorks(w0, Alice);
    var w1 := Run(Toy(), w0, Turn(w0, Alice));
    TurnWorks(w1, Bob);
    var w2 := Run(Toy(), w1, Turn(w1, Bob));
    TurnWorks(w2, Alice);
    w := Run(Toy(), w2, Turn(w2, Alice));
    RunOn(w0, Turn(w0, Alice), Turn(w1, Bob));
    RunOn(w0, Turn(w0, Alice) + Turn(w1, Bob), Turn(w2, Alice));
  }

  lemma ReadySizes(w: World, from: Side)
    requires Ready(w, from)
    ensures w.Of(from).epoch + 1 == |w.secrets|
  {
  }

  /** A stale header is reached, and the key the receiver reads for it is not the one it was sent with. */
  lemma StaleReached() returns (w: World, index: nat)
    ensures DhLaw(Toy()) && DeriveLaw(Toy()) && Reachable(Toy(), [], w) && index < |w.alice.outbox|
    ensures Stale(w.bob, w.alice.outbox[index])
    ensures var m := w.alice.outbox[index];
            var r := DecryptKey(Toy(), w.bob.dh, m.publicKey, m.number, Num(100)).1;
            r.Ok? && r.value.key != m.key
  {
    hide Toy, Num, Reachable, DecryptKey, Stale;
    w := ThreeTurns();
    index := 0;
    var m := w.alice.outbox[0];
    StaleIs(w, m);
    StaleHeaderRatchets(Toy(), [], w, Bob, 0, Num(100));
    StrayKey(w, m);
  }

  lemma StaleIs(w: World, m: Sent)
    requires m.epoch == 1 && w.bob.epoch == 4
    ensures Stale(w.bob, m)
  {
  }

  lemma StrayKey(w: World, m: Sent)
    requires Ready(w, Bob) && w.bob.epoch == 4 && m in w.alice.outbox && m.epoch == 1
    requires SharedSecret(Toy(), w.bob.dh.secret, m.publicKey).Some?
    ensures KeyAt(Toy(), StrayChain(Toy(), w.bob.dh, m.publicKey), m.number) != m.key
  {
    hide Toy, Num, RootKdf, HeaderKeysOk, Output, KeyAt;
    DeliveredEpoch(Toy(), [], w, Bob, m);
    ToyOutput(w.secrets, 4);
    ToyOutput(w.secrets, 1);
    ToyRootKdf(w.bob.dh.root, 4, SharedSecret(Toy(), w.bob.dh.secret, m.publicKey).value);
    ToyKeyAt(Num(5), m.number);
    ToyKeyAt(Num(1), m.number);
    NumInjective(5, 1);
  }
}
