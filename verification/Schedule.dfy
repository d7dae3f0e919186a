/**
 * The key schedule two ratchets share. A session is determined by its root key and the list of
 * ratchet secrets in the order they came into use: secrets[0] is the receiver's (Bob's) published
 * pair, secrets[1] the sender's (Alice's) first pair, and so on, the parties taking turns. Epoch j
 * is the sending chain of the owner of secrets[j].
 */
module Schedule {
  import opened Wrappers
  import opened Bytes
  import opened Primitives
  import opened SymmetricRatchet
  import opened DhRatchet

  /** The root key after `j` root derivations. */
  function RootAt(s: Suite, root: Bytes, secrets: seq<Bytes>, j: nat): (r: Bytes)
    requires DhLaw(s) && DeriveLaw(s) && j < |secrets|
    decreases j, 1
  {
    if j == 0 then root else Output(s, root, secrets, j).root
  }

  /** What the j-th root derivation yields: root key, chain seed of epoch j, header key. */
  function Output(s: Suite, root: Bytes, secrets: seq<Bytes>, j: nat): (r: RootOutput)
    requires DhLaw(s) && DeriveLaw(s) && 0 < j < |secrets|
    decreases j, 0
  {
    RootKdf(s, RootAt(s, root, secrets, j - 1), SharedSecret(s, secrets[j - 1], PublicKey(s, secrets[j])).value)
  }

  function Seed(s: Suite, root: Bytes, secrets: seq<Bytes>, j: nat): (r: Bytes)
    requires DhLaw(s) && DeriveLaw(s) && 0 < j < |secrets|
  {
    Output(s, root, secrets, j).chain
  }

  /** Messages handed out by, and taken from, the current chains of a ratchet. */
  function SentCount(d: Dh): (n: nat) {
    if d.send.Some? then d.send.value.number else 0
  }

  function ReceivedCount(d: Dh): (n: nat) {
    if d.recv.Some? then d.recv.value.number else 0
  }

  /** `d` is the ratchet of the owner of secrets[j], sending in epoch j and receiving in epoch j - 1. */
  ghost predicate DhAt(s: Suite, root: Bytes, secrets: seq<Bytes>, d: Dh, j: nat)
    requires DhLaw(s) && DeriveLaw(s)
  {
    && j < |secrets|
    && d.secret == secrets[j]
    && d.root == RootAt(s, root, secrets, j)
    && d.steps == Wrap32(j / 2)
    && d.remote == (if j == 0 then None else Some(PublicKey(s, secrets[j - 1])))
    && d.send == (if j == 0 then None else Some(At(s, Seed(s, root, secrets, j), SentCount(d))))
    && d.recv == (if j < 2 then None else Some(At(s, Seed(s, root, secrets, j - 1), ReceivedCount(d))))
    && ReceivedCount(d) < U32
  }

  /** Past derivations do not change when a new secret comes into use. */
  lemma {:induction false} OutputStable(s: Suite, root: Bytes, secrets: seq<Bytes>, x: Bytes, j: nat)
    requires DhLaw(s) && DeriveLaw(s) && j < |secrets|
    ensures RootAt(s, root, secrets + [x], j) == RootAt(s, root, secrets, j)
    ensures 0 < j ==> Output(s, root, secrets + [x], j) == Output(s, root, secrets, j)
  {
    if j == 0 {
    } else {
      OutputStable(s, root, secrets, x, j - 1);
      assert (secrets + [x])[j] == secrets[j] && (secrets + [x])[j - 1] == secrets[j - 1];
    }
  }

  lemma DhAtStable(s: Suite, root: Bytes, secrets: seq<Bytes>, x: Bytes, d: Dh, j: nat)
    requires DhLaw(s) && DeriveLaw(s)
    requires DhAt(s, root, secrets, d, j)
    ensures DhAt(s, root, secrets + [x], d, j)
  {
    OutputStable(s, root, secrets, x, j);
    if j >= 1 {
      OutputStable(s, root, secrets, x, j - 1);
    }
  }

  /** `init_sender` and `init_receiver` from one root key start the schedule. */
  lemma InitAt(s: Suite, root: Bytes, bobSecret: Bytes, aliceSecret: Bytes)
    requires DhLaw(s) && DeriveLaw(s)
    ensures var r := InitSender(s, root, PublicKey(s, bobSecret), aliceSecret);
            var secrets := [bobSecret, aliceSecret];
            && r.Ok?
            && DhAt(s, root, secrets, r.value.0, 1)
            && r.value.1 == Output(s, root, secrets, 1).header
            && DhAt(s, root, secrets, InitReceiver(root, bobSecret), 0)
  {
    assert SharedSecret(s, aliceSecret, PublicKey(s, bobSecret))
      == SharedSecret(s, bobSecret, PublicKey(s, aliceSecret));
  }

  /**
   * The central step. A party in epoch j that sees the peer's epoch j + 1 key moves to epoch
   * j + 2 of the extended schedule: its new receiving chain is the peer's sending chain, and the
   * header keys it derives are those of derivations j + 1 and j + 2.
   */
  lemma StepAt(s: Suite, root: Bytes, secrets: seq<Bytes>, d: Dh, j: nat, newSecret: Bytes)
    requires DhLaw(s) && DeriveLaw(s)
    requires DhAt(s, root, secrets, d, j) && |secrets| == j + 2
    ensures var (d', r) := RatchetStep(s, d, PublicKey(s, secrets[j + 1]), newSecret);
            var secrets' := secrets + [newSecret];
            && DhAt(s, root, secrets', d', j + 2)
            && SentCount(d') == 0 && ReceivedCount(d') == 0
            && r == Ok(HeaderKeys(Output(s, root, secrets', j + 1).header, Output(s, root, secrets', j + 2).header))
  {
    var secrets' := secrets + [newSecret];
    OutputStable(s, root, secrets, newSecret, j);
    OutputStable(s, root, secrets, newSecret, j + 1);
    assert secrets'[j] == secrets[j] && secrets'[j + 1] == secrets[j + 1] && secrets'[j + 2] == newSecret;
    assert SharedSecret(s, newSecret, PublicKey(s, secrets[j + 1]))
      == SharedSecret(s, secrets[j + 1], PublicKey(s, newSecret));
  }

  /** A header of the epoch being received: the peer's chain is read at that number. */
  lemma DecryptCurrent(s: Suite, root: Bytes, secrets: seq<Bytes>, d: Dh, j: nat, number: nat, newSecret: Bytes)
    requires DhLaw(s) && DeriveLaw(s)
    requires DhAt(s, root, secrets, d, j) && 2 <= j && number + 1 < U32
    ensures var (d', r) := DecryptKey(s, d, PublicKey(s, secrets[j - 1]), number, newSecret);
            var seed, n := Seed(s, root, secrets, j - 1), ReceivedCount(d);
            && DhAt(s, root, secrets, d', j) && SentCount(d') == SentCount(d)
            && r == (if n <= number < n + MAX_SKIP
                     then Ok(Incoming(KeyAt(s, seed, number), Segment(s, seed, n, number)))
                     else Err(Ratchet))
  {
    ReceiveKeyMeaning(s, d, Seed(s, root, secrets, j - 1), ReceivedCount(d), number);
  }

  /** A header of the peer's next epoch: the party ratchets, then reads that epoch's chain. */
  lemma DecryptNext(s: Suite, root: Bytes, secrets: seq<Bytes>, d: Dh, j: nat, number: nat, newSecret: Bytes)
    requires DhLaw(s) && DeriveLaw(s)
    requires DhAt(s, root, secrets, d, j) && |secrets| == j + 2 && number + 1 < U32
    requires d.remote != Some(PublicKey(s, secrets[j + 1]))
    ensures var (d', r) := DecryptKey(s, d, PublicKey(s, secrets[j + 1]), number, newSecret);
            var seed := Seed(s, root, secrets, j + 1);
            && DhAt(s, root, secrets + [newSecret], d', j + 2) && SentCount(d') == 0
            && r == (if number < MAX_SKIP
                     then Ok(Incoming(KeyAt(s, seed, number), Segment(s, seed, 0, number)))
                     else Err(Ratchet))
  {
    StepAt(s, root, secrets, d, j, newSecret);
    OutputStable(s, root, secrets, newSecret, j + 1);
    var d' := RatchetStep(s, d, PublicKey(s, secrets[j + 1]), newSecret).0;
    ReceiveKeyMeaning(s, d', Seed(s, root, secrets, j + 1), 0, number);
  }

  // ---------------------------------------------------------------
  // Two parties taking turns
  // ---------------------------------------------------------------

  datatype Side = Alice | Bob

  function Peer(side: Side): (p: Side) {
    if side == Alice then Bob else Alice
  }

  /** The parties' epochs are neighbours; Alice's are odd and Bob's even. */
  ghost predicate Neighbours(alice: nat, bob: nat, secrets: nat) {
    && alice % 2 == 1 && bob % 2 == 0
    && ((bob == alice + 1 && secrets == bob + 1) || (alice == bob + 1 && secrets == alice + 1))
  }

  predicate FreshSecret(s: Suite, secrets: seq<Bytes>, newSecret: Bytes) {
    forall i :: 0 <= i < |secrets| ==> PublicKey(s, newSecret) != PublicKey(s, secrets[i])
  }

  ghost predicate DistinctPublics(s: Suite, secrets: seq<Bytes>) {
    forall i, j :: 0 <= i < j < |secrets| ==> PublicKey(s, secrets[i]) != PublicKey(s, secrets[j])
  }

  lemma DistinctExtended(s: Suite, secrets: seq<Bytes>, newSecret: Bytes)
    requires DistinctPublics(s, secrets) && FreshSecret(s, secrets, newSecret)
    ensures DistinctPublics(s, secrets + [newSecret])
  {
  }

  /** The party behind becomes the party ahead. */
  lemma NeighboursSwap(alice: nat, bob: nat, secrets: nat)
    requires Neighbours(alice, bob, secrets)
    ensures secrets == alice + 2 ==> Neighbours(alice + 2, bob, secrets + 1)
    ensures secrets == bob + 2 ==> Neighbours(alice, bob + 2, secrets + 1)
  {
  }
}
