/**
 * The shared history of a triple ratchet session, and where the header keys of its epochs sit in
 * a party's key ring.
 */
module HeaderRing {
  import opened Wrappers
  import opened Bytes
  import opened Primitives
  import opened SymmetricRatchet
  import opened DhRatchet
  import opened MessageFormat
  import opened Schedule
  import opened TripleRatchet

  /**
   * The history both parties share. Epoch e is the sending chain of the owner of secrets[e];
   * roots, chain seeds and header keys are listed as they were derived, with the number of
   * messages sent per epoch so far.
   */
  datatype History = History(
    s: Suite,
    secrets: seq<Bytes>,
    roots: seq<Bytes>,
    seeds: seq<Bytes>,
    headerKeys: seq<Bytes>,
    counts: seq<nat>
  )

  /** Sizes and ranges. There are two header keys more than epochs: they are derived ahead. */
  ghost predicate Sound(g: History) {
    && 2 <= |g.secrets| == |g.roots| == |g.seeds| == |g.counts|
    && |g.headerKeys| == |g.secrets| + 2
    && g.counts[0] == 0
    && (forall e :: 0 <= e < |g.counts| ==> g.counts[e] < U32)
    && (forall e :: 0 <= e < |g.headerKeys| ==> |g.headerKeys[e]| == KEY_SIZE)
  }

  /** What the e-th root derivation yields. */
  function Derivation(s: Suite, root: Bytes, secret: Bytes, next: Bytes): (r: RootOutput)
    requires DhLaw(s) && DeriveLaw(s)
  {
    RootKdf(s, root, SharedSecret(s, secret, PublicKey(s, next)).value)
  }

  /** The lists follow the derivations; the header key of derivation e is used in epoch e + 2. */
  ghost predicate Derived(g: History)
    requires Sound(g) && DhLaw(g.s) && DeriveLaw(g.s)
  {
    forall e :: 0 < e < |g.secrets| ==>
      RootOutput(g.roots[e], g.seeds[e], g.headerKeys[e + 2])
      == Derivation(g.s, g.roots[e - 1], g.secrets[e - 1], g.secrets[e])
  }

  function MessageKeyOf(g: History, e: nat, n: nat): (r: Bytes)
    requires e < |g.seeds|
  {
    KeyAt(g.s, g.seeds[e], n)
  }

  /** Messages of the same number in different epochs have different keys. */
  ghost predicate DistinctMessageKeys(g: History)
    requires Sound(g)
  {
    forall e: nat, e': nat, n: nat :: 0 < e < e' < |g.seeds| && n < U32 ==>
      MessageKeyOf(g, e, n) != MessageKeyOf(g, e', n)
  }

  function KeysOf(g: History, es: seq<nat>): (ks: seq<Bytes>)
    requires forall i :: 0 <= i < |es| ==> es[i] < |g.headerKeys|
    ensures |ks| == |es| && forall i :: 0 <= i < |es| ==> ks[i] == g.headerKeys[es[i]]
  {
    seq(|es|, i requires 0 <= i < |es| => g.headerKeys[es[i]])
  }

  // ---------------------------------------------------------------
  // Which epochs' header keys a party in epoch j holds
  // ---------------------------------------------------------------

  /** The next receiving key; at the very start Bob's is the placeholder. */
  function Awaited(j: nat): (e: nat)
    ensures e <= j + 2
  {
    if j == 0 then 2 else j + 1
  }

  /** The receiving header keys in the order they became current. */
  function Heard(j: nat): (es: seq<nat>)
    ensures |es| == j / 2 + 1
    ensures forall i :: 0 <= i < |es| ==> es[i] <= j + 1
  {
    if j < 2 then [1 - j] else Heard(j - 2) + [Awaited(j - 2)]
  }

  function Current(j: nat): (e: nat)
    ensures e <= j + 1
  {
    Heard(j)[j / 2]
  }

  function Earlier(j: nat): (es: seq<nat>) {
    if j < 2 then [] else [Heard(j)[j / 2 - 1]]
  }

  /** Only the first MAX_RETAINED_HEADER_KEYS of the older keys are kept. */
  function Retained(j: nat): (es: seq<nat>)
    ensures forall i :: 0 <= i < |es| ==> es[i] <= j + 1
  {
    if j < 2 then []
    else if j / 2 - 1 <= MAX_RETAINED_HEADER_KEYS then Heard(j)[..j / 2 - 1]
    else Heard(j)[..MAX_RETAINED_HEADER_KEYS]
  }

  function Trial(j: nat): (es: seq<nat>)
    ensures forall i :: 0 <= i < |es| ==> es[i] <= j + 2
  {
    [Current(j), Awaited(j)] + Earlier(j) + Retained(j)
  }

  /** The ring of a party in epoch j. */
  ghost predicate RingAt(g: History, ring: Ring, j: nat)
    requires j + 2 < |g.headerKeys|
  {
    && ring.sending == g.headerKeys[j]
    && ring.nextSending == g.headerKeys[j + 2]
    && ring.receiving == g.headerKeys[Current(j)]
    && ring.nextReceiving == g.headerKeys[Awaited(j)]
    && ring.previous == (if j < 2 then None else Some(g.headerKeys[Heard(j)[j / 2 - 1]]))
    && ring.retained == KeysOf(g, Retained(j))
  }

  /** The peer's epochs before j. */
  predicate PeerEpoch(j: nat, e: nat) {
    0 < e < j && e % 2 != j % 2
  }

  /** The place of a peer epoch among the keys heard; Bob's placeholder shifts his by one. */
  function HeardAt(j: nat, e: nat): (i: nat) {
    if j % 2 == 1 then e / 2 else if e == 1 then 0 else (e + 1) / 2
  }

  lemma {:induction false} HeardPeerEpochs(j: nat, i: nat)
    requires i <= j / 2
    ensures Heard(j)[i] == if j % 2 == 1 then 2 * i else if i < 2 then i + 1 else 2 * i - 1
  {
    if j < 2 {
    } else if i < j / 2 {
      HeardPeerEpochs(j - 2, i);
    } else {
    }
  }

  /**
   * A header key of an earlier peer epoch is still held exactly if it is the current or the
   * previous one, or was among the first ten ever heard.
   */
  lemma HeldEpochs(j: nat, e: nat)
    requires PeerEpoch(j, e)
    ensures e in Trial(j) <==> HeardAt(j, e) + 1 >= j / 2 || HeardAt(j, e) < MAX_RETAINED_HEADER_KEYS
  {
    var i := HeardAt(j, e);
    var n := j / 2;
    assert i <= n;
    HeardPeerEpochs(j, i);
    assert Heard(j)[i] == e;
    forall k | 0 <= k <= n && k != i ensures Heard(j)[k] != e {
      HeardPeerEpochs(j, k);
    }
    if i == n {
      assert Trial(j)[0] == e;
    } else if i == n - 1 {
      assert Trial(j)[2] == e;
    } else if i < MAX_RETAINED_HEADER_KEYS {
      assert Retained(j)[i] == e;
      assert e in Retained(j);
    } else {
      assert e !in Retained(j);
      assert e !in Earlier(j);
      assert Current(j) != e && Awaited(j) != e;
    }
  }

  /** The key that drops out of second place is retained while there is room. */
  lemma RetainedNext(j: nat)
    ensures Heard(j + 2) == Heard(j) + [Awaited(j)]
    ensures Retained(j + 2)
         == if 2 <= j && |Retained(j)| < MAX_RETAINED_HEADER_KEYS then Retained(j) + Earlier(j) else Retained(j)
  {
    assert Heard(j + 2)[..j / 2 + 1] == Heard(j);
  }

  lemma KeysOfAppend(g: History, es: seq<nat>, more: seq<nat>)
    requires forall i :: 0 <= i < |es| ==> es[i] < |g.headerKeys|
    requires forall i :: 0 <= i < |more| ==> more[i] < |g.headerKeys|
    ensures KeysOf(g, es + more) == KeysOf(g, es) + KeysOf(g, more)
  {
  }

  lemma RetainedRotates(g: History, ring: Ring, j: nat)
    requires j + 4 < |g.headerKeys| && RingAt(g, ring, j)
    ensures RotateRing(ring).retained == KeysOf(g, Retained(j + 2))
  {
    RetainedNext(j);
    hide Heard, Retained;
    if 2 <= j && |Retained(j)| < MAX_RETAINED_HEADER_KEYS {
      KeysOfAppend(g, Retained(j), Earlier(j));
      assert KeysOf(g, Earlier(j)) == [ring.previous.value];
    }
  }

  /** Rotating the ring and installing the derived keys moves it two epochs on. */
  lemma RingRotates(g: History, ring: Ring, j: nat, keys: HeaderKeys)
    requires j + 4 < |g.headerKeys| && RingAt(g, ring, j)
    requires keys.receiving == g.headerKeys[j + 3] && keys.sending == g.headerKeys[j + 4]
    ensures RingAt(g, RotateRing(ring).(nextReceiving := keys.receiving, nextSending := keys.sending), j + 2)
  {
    RetainedNext(j);
    RetainedRotates(g, ring, j);
    hide Heard, Retained, KeysOf;
  }

  // ---------------------------------------------------------------
  // Extending the history
  // ---------------------------------------------------------------

  /** A new ratchet secret comes into use: one more derivation. */
  function Extended(g: History, newSecret: Bytes): (g': History)
    requires DhLaw(g.s) && DeriveLaw(g.s) && 0 < |g.secrets| == |g.roots|
  {
    var last := |g.secrets| - 1;
    var out := Derivation(g.s, g.roots[last], g.secrets[last], newSecret);
    g.(secrets := g.secrets + [newSecret], roots := g.roots + [out.root], seeds := g.seeds + [out.chain],
       headerKeys := g.headerKeys + [out.header], counts := g.counts + [0])
  }

  /** One more message was sent in epoch `e`. */
  function Counted(g: History, e: nat): (g': History)
    requires e < |g.counts|
  {
    g.(counts := g.counts[e := g.counts[e] + 1])
  }

  lemma ExtendedSound(g: History, newSecret: Bytes)
    requires Sound(g) && DhLaw(g.s) && DeriveLaw(g.s) && Derived(g)
    ensures Sound(Extended(g, newSecret)) && Derived(Extended(g, newSecret))
  {
  }

  lemma RingStable(g: History, newSecret: Bytes, ring: Ring, j: nat)
    requires Sound(g) && DhLaw(g.s) && DeriveLaw(g.s) && j < |g.secrets| && RingAt(g, ring, j)
    ensures RingAt(Extended(g, newSecret), ring, j)
  {
    assert KeysOf(Extended(g, newSecret), Retained(j)) == KeysOf(g, Retained(j));
  }

  // ---------------------------------------------------------------
  // Messages
  // ---------------------------------------------------------------

  /** A message as its sender made it: epoch, header, plaintext and the bytes handed over. */
  datatype Sent = Sent(epoch: nat, header: Header, plaintext: Bytes, coins: SendCoins, wire: Encrypted)

  /** Length of the sender's previous chain, as the header reports it. */
  function PreviousCount(g: History, e: nat): (n: nat)
    requires e < |g.counts|
  {
    if e < 2 then 0 else g.counts[e - 2]
  }

  /** The bytes are those `encrypt` makes in that epoch for that number. */
  ghost predicate Sealed(g: History, m: Sent)
    requires Sound(g)
  {
    && 0 < m.epoch < |g.secrets|
    && HeaderOk(m.header)
    && m.header.dhPublic == PublicKey(g.s, g.secrets[m.epoch])
    && m.header.number < g.counts[m.epoch]
    && m.header.previousLength == PreviousCount(g, m.epoch)
    && m.wire == SealMessage(g.s, g.headerKeys[m.epoch], MessageKeyOf(g, m.epoch, m.header.number),
                             m.header, m.plaintext, m.coins)
  }

  /**
   * Authenticated encryption, for the one message: no other header key of the session opens its
   * header, and no key of that number from another epoch opens its body.
   */
  ghost predicate Separated(g: History, m: Sent) {
    && (forall e: nat :: e < |g.headerKeys| && e != m.epoch ==>
          Open(g.s, g.headerKeys[e], m.wire.headerNonce, m.wire.header, []) == None)
    && (forall e: nat :: 0 < e < |g.seeds| && e != m.epoch ==>
          Open(g.s, MessageKeyOf(g, e, m.header.number), m.wire.bodyNonce, m.wire.body, m.wire.header) == None)
  }

  ghost predicate Genuine(g: History, m: Sent)
    requires Sound(g)
  {
    Sealed(g, m) && Separated(g, m)
  }

  /** A genuine message's header opens under its epoch's header key and no other of the session. */
  lemma HeaderOpens(g: History, m: Sent, e: nat)
    requires Sound(g) && AeadLaw(g.s) && Genuine(g, m) && e < |g.headerKeys|
    ensures TryHeader(g.s, g.headerKeys[e], m.wire) == if e == m.epoch then Some(m.header) else None
  {
    if e == m.epoch {
      HeaderRoundTrip(m.header, []);
      assert EncodeHeader(m.header) + [] == EncodeHeader(m.header);
    }
  }

  /** Its body opens under its message key to its plaintext, and not under the key of another epoch. */
  lemma BodyOpens(g: History, m: Sent, e: nat)
    requires Sound(g) && AeadLaw(g.s) && DeriveLaw(g.s) && Genuine(g, m) && 0 < e < |g.seeds|
    ensures Open(g.s, MessageKeyOf(g, e, m.header.number), m.wire.bodyNonce, m.wire.body, m.wire.header)
         == if e == m.epoch then Some(m.plaintext) else None
  {
  }

  /** Trying a list of session keys finds the header exactly if its epoch is among them. */
  lemma {:induction false} FirstHeaderFinds(g: History, es: seq<nat>, m: Sent)
    requires Sound(g) && AeadLaw(g.s) && Genuine(g, m)
    requires forall i :: 0 <= i < |es| ==> es[i] < |g.headerKeys|
    ensures FirstHeader(g.s, KeysOf(g, es), m.wire) == if m.epoch in es then Some(m.header) else None
    decreases |es|
  {
    hide Genuine, TryHeader;
    if es == [] {
    } else {
      HeaderOpens(g, m, es[0]);
      FirstHeaderFinds(g, es[1..], m);
      assert KeysOf(g, es)[1..] == KeysOf(g, es[1..]);
      assert es == [es[0]] + es[1..];
    }
  }

  lemma TrialKeysHeld(g: History, ring: Ring, j: nat)
    requires j + 2 < |g.headerKeys| && RingAt(g, ring, j)
    ensures TrialKeys(ring) == KeysOf(g, Trial(j))
  {
  }

  lemma RingFinds(g: History, ring: Ring, j: nat, m: Sent)
    requires Sound(g) && AeadLaw(g.s) && Genuine(g, m) && j < |g.secrets| && RingAt(g, ring, j)
    ensures FirstHeader(g.s, TrialKeys(ring), m.wire) == if m.epoch in Trial(j) then Some(m.header) else None
  {
    TrialKeysHeld(g, ring, j);
    FirstHeaderFinds(g, Trial(j), m);
  }
}
