/** The Diffie-Hellman ratchet of one party. */
module DhRatchet {
  import opened Wrappers
  import opened Bytes
  import opened Primitives
  import opened SymmetricRatchet

  /** The 96 bytes `RootKey::kdf` derives, cut in three. */
  datatype RootOutput = RootOutput(root: Bytes, chain: Bytes, header: Bytes)

  function RootKdf(s: Suite, root: Bytes, secret: Bytes): (r: RootOutput)
    requires |Derive(s, root, secret, DhRootInfo, 96)| == 96
    ensures |r.root| == KEY_SIZE && |r.chain| == KEY_SIZE && |r.header| == KEY_SIZE
  {
    var output := Derive(s, root, secret, DhRootInfo, 96);
    RootOutput(output[..32], output[32..64], output[64..96])
  }

  /** The three keys are the 96 bytes derived from the old root and the exchanged secret: root, chain, header. */
  lemma RootKdfParts(s: Suite, root: Bytes, secret: Bytes)
    requires |Derive(s, root, secret, DhRootInfo, 96)| == 96
    ensures var r := RootKdf(s, root, secret); r.root + r.chain + r.header == s.derive(root, secret, DhRootInfo, 96)
  {
    var output := Derive(s, root, secret, DhRootInfo, 96);
    assert output[..32] + output[32..64] + output[64..96] == output;
  }

  /** The value of a `DhRatchetState`. A key pair is its secret key; the public key is computed. */
  datatype Dh = Dh(
    secret: Bytes,
    remote: Option<Bytes>,
    root: Bytes,
    send: Option<Chain>,
    recv: Option<Chain>,
    steps: nat
  )

  datatype HeaderKeys = HeaderKeys(receiving: Bytes, sending: Bytes)

  /** `init_sender`, with the generated secret key as an argument. */
  function InitSender(s: Suite, root: Bytes, remote: Bytes, newSecret: Bytes): (r: Result<(Dh, Bytes)>)
    requires DeriveLaw(s)
  {
    match SharedSecret(s, newSecret, remote)
    case None => Err(KeyExchange)
    case Some(secret) =>
      var out := RootKdf(s, root, secret);
      Ok((Dh(newSecret, Some(remote), out.root, Some(Chain(out.chain, 0)), None, 0), out.header))
  }

  /** `init_receiver`. */
  function InitReceiver(root: Bytes, secret: Bytes): (d: Dh) {
    Dh(secret, None, root, None, None, 0)
  }

  /**
   * `ratchet_step`, with the generated secret key as an argument. A failing second exchange
   * leaves the first half of the step in place, as in the code.
   */
  function RatchetStep(s: Suite, d: Dh, remote: Bytes, newSecret: Bytes): (r: (Dh, Result<HeaderKeys>))
    requires DeriveLaw(s)
  {
    match SharedSecret(s, d.secret, remote)
    case None => (d, Err(KeyExchange))
    case Some(received) =>
      var out := RootKdf(s, d.root, received);
      var half := d.(root := out.root, recv := Some(Chain(out.chain, 0)), secret := newSecret);
      match SharedSecret(s, newSecret, remote)
      case None => (half, Err(KeyExchange))
      case Some(sent) =>
        var out' := RootKdf(s, out.root, sent);
        (half.(root := out'.root, send := Some(Chain(out'.chain, 0)), remote := Some(remote),
               steps := Wrap32(d.steps + 1)),
         Ok(HeaderKeys(out.header, out'.header)))
  }

  /**
   * A step that fails. If the first exchange fails nothing has changed; if only the second does, the
   * new root, the receiving chain and the key pair are in place, but not the sending chain, the remote
   * key and the count.
   */
  lemma FailedStep(s: Suite, d: Dh, remote: Bytes, newSecret: Bytes)
    requires DeriveLaw(s) && RatchetStep(s, d, remote, newSecret).1.Err?
    ensures var (d', r) := RatchetStep(s, d, remote, newSecret);
            && r == Err(KeyExchange) && d'.send == d.send && d'.remote == d.remote && d'.steps == d.steps
            && (if SharedSecret(s, d.secret, remote).None? then d' == d
                else
                  && SharedSecret(s, newSecret, remote).None? && d'.secret == newSecret
                  && var out := RootKdf(s, d.root, SharedSecret(s, d.secret, remote).value);
                     d'.root == out.root && d'.recv == Some(Chain(out.chain, 0)))
  {
  }

  /** What `encrypt_message_key` hands out. */
  datatype Outgoing = Outgoing(key: Bytes, number: nat, publicKey: Bytes)

  function EncryptKey(s: Suite, d: Dh): (r: (Dh, Result<Outgoing>)) {
    match d.send
    case None => (d, Err(Ratchet))
    case Some(c) =>
      (d.(send := Some(Advanced(s, c))), Ok(Outgoing(MessageKey(s, c.key), c.number, PublicKey(s, d.secret))))
  }

  /** What `receive_message_key` hands out: the target key and the keys stepped over. */
  datatype Incoming = Incoming(key: Bytes, skipped: Keys)

  function ReceiveKey(s: Suite, d: Dh, number: nat): (r: (Dh, Result<Incoming>)) {
    match d.recv
    case None => (d, Err(Ratchet))
    case Some(c) =>
      if number < c.number then (d, Err(Ratchet))
      else if number == c.number then
        (d.(recv := Some(Advanced(s, c))), Ok(Incoming(MessageKey(s, c.key), [])))
      else
        var (c', r) := Skip(s, c, number);
        match r
        case Err(e) => (d.(recv := Some(c')), Err(e))
        case Ok(keys) =>
          if keys == [] then (d.(recv := Some(c')), Err(Panic))
          else (d.(recv := Some(c')), Ok(Incoming(keys[|keys| - 1].1, keys[..|keys| - 1])))
  }

  function SkipRemaining(s: Suite, d: Dh, upTo: nat): (r: (Dh, Result<Keys>)) {
    match d.recv
    case None => (d, Ok([]))
    case Some(c) =>
      if upTo <= c.number then (d, Ok([]))
      else
        var (c', r) := Skip(s, c, upTo - 1);
        (d.(recv := Some(c')), r)
  }

  /** `decrypt_message_key`. */
  function DecryptKey(s: Suite, d: Dh, remote: Bytes, number: nat, newSecret: Bytes): (r: (Dh, Result<Incoming>))
    requires DeriveLaw(s)
  {
    if d.remote == Some(remote) then ReceiveKey(s, d, number)
    else
      var (d', r) := RatchetStep(s, d, remote, newSecret);
      match r
      case Err(e) => (d', Err(e))
      case Ok(_) => ReceiveKey(s, d', number)
  }

  // ---------------------------------------------------------------
  // Message-key accounting on one receiving chain
  // ---------------------------------------------------------------

  /** One receiving chain, as the ratchet sees it. */
  ghost predicate ReceivingAt(s: Suite, d: Dh, seed: Bytes, n: nat) {
    d.recv == Some(At(s, seed, n))
  }

  /**
   * `receive_message_key` for every number: it aborts for the one request whose count wraps;
   * otherwise it succeeds exactly for an unconsumed number within MAX_SKIP, and then hands out the
   * next consecutive keys of the chain, the target last; a refusal changes nothing.
   */
  lemma ReceiveKeyMeaning(s: Suite, d: Dh, seed: Bytes, n: nat, number: nat)
    requires ReceivingAt(s, d, seed, n) && n < U32 && number < U32
    ensures var (d', r) := ReceiveKey(s, d, number);
            if CountWraps(n, number) then d' == d && r == Err(Panic)
            else if n <= number < n + MAX_SKIP then
              && d' == d.(recv := Some(AtWrapped(s, seed, number + 1)))
              && r == Ok(Incoming(KeyAt(s, seed, number), Segment(s, seed, n, number)))
            else d' == d && r == Err(Ratchet)
  {
    SkipYieldsSegment(s, seed, n, number);
    if n < number < n + MAX_SKIP {
      SegmentSplit(s, seed, n, number, number + 1);
      var keys := Segment(s, seed, n, number + 1);
      assert keys[..|keys| - 1] == Segment(s, seed, n, number);
    }
  }

  /** `skip_remaining_receiving_keys` collects exactly the keys up to the given length. */
  lemma SkipRemainingMeaning(s: Suite, d: Dh, seed: Bytes, n: nat, upTo: nat)
    requires ReceivingAt(s, d, seed, n) && n < U32 && upTo < U32
    ensures var (d', r) := SkipRemaining(s, d, upTo);
            if upTo <= n then d' == d && r == Ok([])
            else if upTo <= n + MAX_SKIP then
              d' == d.(recv := Some(At(s, seed, upTo))) && r == Ok(Segment(s, seed, n, upTo))
            else d' == d && r == Err(Ratchet)
  {
    if n < upTo {
      SkipYieldsSegment(s, seed, n, upTo - 1);
    }
  }

  /** The calls a session makes on one receiving chain. */
  datatype ReceiveCall = Receive(number: nat) | Finish(upTo: nat)

  /** The numbered keys a call hands out: the skipped ones, then the target under its number. */
  function HandedOut(s: Suite, d: Dh, call: ReceiveCall): (r: (Dh, Keys)) {
    match call
    case Receive(number) =>
      var (d', r) := ReceiveKey(s, d, number);
      (d', if r.Ok? then r.value.skipped + [(number, r.value.key)] else [])
    case Finish(upTo) =>
      var (d', r) := SkipRemaining(s, d, upTo);
      (d', if r.Ok? then r.value else [])
  }

  /** All keys handed out by a sequence of calls, in order. */
  function Account(s: Suite, d: Dh, calls: seq<ReceiveCall>): (r: (Dh, Keys))
    decreases |calls|
  {
    if calls == [] then (d, []) else
      var (d', keys) := HandedOut(s, d, calls[0]);
      var (d'', rest) := Account(s, d', calls[1..]);
      (d'', keys + rest)
  }

  /** All arguments are `u32`. */
  predicate InU32(calls: seq<ReceiveCall>) {
    forall i :: 0 <= i < |calls| ==> (if calls[i].Receive? then calls[i].number else calls[i].upTo) < U32
  }

  /** The number a chain stands at after a call, by arithmetic alone. */
  function NumberAfter(n: nat, call: ReceiveCall): (m: nat) {
    match call
    case Receive(number) => if n <= number < n + MAX_SKIP && !CountWraps(n, number) then number + 1 else n
    case Finish(upTo) => if n < upTo <= n + MAX_SKIP then upTo else n
  }

  /** The call neither aborts nor takes the last `u32` number. */
  predicate SafeCall(n: nat, call: ReceiveCall) {
    call == Receive(U32 - 1) ==> 0 < n && n + MAX_SKIP < U32
  }

  predicate SafeCalls(n: nat, calls: seq<ReceiveCall>)
    decreases |calls|
  {
    calls == [] || (SafeCall(n, calls[0]) && SafeCalls(NumberAfter(n, calls[0]), calls[1..]))
  }

  /** What one safe call hands out: the next keys of the chain, up to the number it then stands at. */
  lemma HandedOutSegment(s: Suite, d: Dh, seed: Bytes, n: nat, call: ReceiveCall)
    requires ReceivingAt(s, d, seed, n) && n < U32 && InU32([call]) && SafeCall(n, call)
    ensures n <= NumberAfter(n, call) < U32
    ensures HandedOut(s, d, call)
         == (d.(recv := Some(At(s, seed, NumberAfter(n, call)))), Segment(s, seed, n, NumberAfter(n, call)))
  {
    assert [call][0] == call;
    assert Segment(s, seed, n, n) == [];
    match call
    case Receive(number) =>
      ReceiveKeyMeaning(s, d, seed, n, number);
      if n <= number < n + MAX_SKIP {
        assert Segment(s, seed, n, number) + [(number, KeyAt(s, seed, number))] == Segment(s, seed, n, number + 1);
      }
    case Finish(upTo) => SkipRemainingMeaning(s, d, seed, n, upTo);
  }

  /**
   * Over any run of calls on one chain that never takes the last `u32` number, every key number
   * below the final message number is handed out exactly once and in order, and each key is the
   * one of the pure chain.
   */
  lemma {:induction false} EveryKeyHandedOutOnce(s: Suite, d: Dh, seed: Bytes, n: nat, calls: seq<ReceiveCall>)
      returns (m: nat)
    requires ReceivingAt(s, d, seed, n) && n < U32 && InU32(calls) && SafeCalls(n, calls)
    ensures n <= m < U32
    ensures ReceivingAt(s, Account(s, d, calls).0, seed, m)
    ensures Account(s, d, calls).1 == Segment(s, seed, n, m)
    decreases |calls|
  {
    if calls == [] {
      m := n;
    } else {
      hide HandedOut, NumberAfter, SafeCall;
      var mid := NumberAfter(n, calls[0]);
      HandedOutSegment(s, d, seed, n, calls[0]);
      m := EveryKeyHandedOutOnce(s, HandedOut(s, d, calls[0]).0, seed, mid, calls[1..]);
      SegmentSplit(s, seed, n, mid, m);
    }
  }

  /**
   * And the exclusion is exact: the first unsafe call either aborts, on a fresh chain, or takes the
   * last number, after which the chain counts from 0 again and hands number 0 out a second time.
   */
  lemma UnsafeCallStartsOver(s: Suite, d: Dh, seed: Bytes, n: nat)
    requires ReceivingAt(s, d, seed, n) && n < U32 && !SafeCall(n, Receive(U32 - 1))
    ensures var (d', r) := ReceiveKey(s, d, U32 - 1);
            if n == 0 then r == Err(Panic)
            else r.Ok? && HandedOut(s, d', Receive(0)).1 == [(0, KeyAt(s, seed, U32))]
  {
    ReceiveKeyMeaning(s, d, seed, n, U32 - 1);
  }

  /** Exactly when `receive_message_key` aborts: for message 2^32 - 1 of a fresh chain. */
  lemma ReceiveAborts(s: Suite, d: Dh, number: nat)
    requires (d.recv.Some? ==> d.recv.value.number < U32) && number < U32
    ensures ReceiveKey(s, d, number).1 == Err(Panic) <==> d.recv.Some? && CountWraps(d.recv.value.number, number)
  {
    if d.recv.Some? {
      SkipWithoutKeys(s, d.recv.value, number);
    }
  }

  // ---------------------------------------------------------------
  // The object
  // ---------------------------------------------------------------

  function Peek(c: SymmetricRatchet?): (v: Option<Chain>)
    reads c
  {
    if c == null then None else Some(Chain(c.chainKey, c.messageNumber))
  }

  /** `DhRatchetState`. */
  class DhRatchetState {
    const suite: Suite
    var dhSecret: Bytes
    var remotePublic: Option<Bytes>
    var rootKey: Bytes
    var sendingChain: SymmetricRatchet?
    var receivingChain: SymmetricRatchet?
    var stepCount: nat

    ghost predicate Valid()
      reads this, sendingChain, receivingChain
    {
      && DeriveLaw(suite)
      && stepCount < U32
      && (sendingChain != null ==> sendingChain.suite == suite && sendingChain.Valid())
      && (receivingChain != null ==> receivingChain.suite == suite && receivingChain.Valid())
      && (sendingChain != null ==> sendingChain != receivingChain)
    }

    ghost function Value(): (d: Dh)
      reads this, sendingChain, receivingChain
    {
      Dh(dhSecret, remotePublic, rootKey, Peek(sendingChain), Peek(receivingChain), stepCount)
    }

    /** The object that holds the outcome of `init_sender`. */
    constructor Sender(s: Suite, remote: Bytes, newSecret: Bytes, out: RootOutput)
      requires DeriveLaw(s)
      ensures Valid() && suite == s
      ensures fresh(sendingChain)
      ensures Value() == Dh(newSecret, Some(remote), out.root, Some(Chain(out.chain, 0)), None, 0)
    {
      suite := s;
      dhSecret := newSecret;
      remotePublic := Some(remote);
      rootKey := out.root;
      sendingChain := new SymmetricRatchet(s, out.chain);
      receivingChain := null;
      stepCount := 0;
    }

    constructor Receiver(s: Suite, root: Bytes, secret: Bytes)
      requires DeriveLaw(s)
      ensures Valid() && suite == s
      ensures Value() == InitReceiver(root, secret)
    {
      suite := s;
      dhSecret := secret;
      remotePublic := None;
      rootKey := root;
      sendingChain, receivingChain := null, null;
      stepCount := 0;
    }

    static method Init(s: Suite, root: Bytes, remote: Bytes, newSecret: Bytes)
        returns (state: DhRatchetState?, header: Bytes)
      requires DeriveLaw(s)
      ensures match InitSender(s, root, remote, newSecret)
              case Err(_) => state == null
              case Ok((d, hk)) =>
                state != null && fresh(state) && fresh(state.sendingChain) && state.Valid() && state.suite == s
                && state.Value() == d && header == hk
    {
      var secret := SharedSecret(s, newSecret, remote);
      if secret.None? {
        return null, [];
      }
      var out := RootKdf(s, root, secret.value);
      state := new DhRatchetState.Sender(s, remote, newSecret, out);
      header := out.header;
    }

    method Step(remote: Bytes, newSecret: Bytes) returns (r: Result<HeaderKeys>)
      requires Valid()
      modifies this
      ensures Valid()
      ensures receivingChain == old(receivingChain) || fresh(receivingChain)
      ensures sendingChain == old(sendingChain) || fresh(sendingChain)
      ensures (Value(), r) == RatchetStep(suite, old(Value()), remote, newSecret)
    {
      hide RootKdf, Wrap32, SharedSecret;
      var received := SharedSecret(suite, dhSecret, remote);
      if received.None? {
        return Err(KeyExchange);
      }
      var out := RootKdf(suite, rootKey, received.value);
      rootKey := out.root;
      receivingChain := new SymmetricRatchet(suite, out.chain);

      dhSecret := newSecret;
      ghost var half := Value();
      assert half == old(Value()).(root := out.root, recv := Some(Chain(out.chain, 0)), secret := newSecret);
      var sent := SharedSecret(suite, dhSecret, remote);
      if sent.None? {
        return Err(KeyExchange);
      }
      var out' := RootKdf(suite, rootKey, sent.value);
      rootKey := out'.root;
      sendingChain := new SymmetricRatchet(suite, out'.chain);

      remotePublic := Some(remote);
      stepCount := Wrap32(stepCount + 1);
      r := Ok(HeaderKeys(out.header, out'.header));
    }

    method EncryptMessageKey() returns (r: Result<Outgoing>)
      requires Valid()
      modifies sendingChain
      ensures Valid()
      ensures (Value(), r) == EncryptKey(suite, old(Value()))
    {
      if sendingChain == null {
        return Err(Ratchet);
      }
      var number := sendingChain.messageNumber;
      var mk := sendingChain.Advance();
      r := Ok(Outgoing(mk, number, PublicKey(suite, dhSecret)));
    }

    method ReceiveMessageKey(number: nat) returns (r: Result<Incoming>)
      requires Valid() && number < U32
      modifies receivingChain
      ensures Valid()
      ensures (Value(), r) == ReceiveKey(suite, old(Value()), number)
    {
      if receivingChain == null {
        return Err(Ratchet);
      }
      var current := receivingChain.messageNumber;
      if number < current {
        return Err(Ratchet);
      }
      if number == current {
        var mk := receivingChain.Advance();
        return Ok(Incoming(mk, []));
      }
      var skipped := receivingChain.SkipTo(number);
      match skipped {
        case Err(e) =>
          return Err(e);
        case Ok(keys) =>
          if keys == [] {
            return Err(Panic);
          }
          return Ok(Incoming(keys[|keys| - 1].1, keys[..|keys| - 1]));
      }
    }

    method SkipRemainingReceivingKeys(upTo: nat) returns (r: Result<Keys>)
      requires Valid() && upTo < U32
      modifies receivingChain
      ensures Valid()
      ensures (Value(), r) == SkipRemaining(suite, old(Value()), upTo)
    {
      if receivingChain == null {
        return Ok([]);
      }
      if upTo <= receivingChain.messageNumber {
        return Ok([]);
      }
      r := receivingChain.SkipTo(upTo - 1);
    }

    method DecryptMessageKey(remote: Bytes, number: nat, newSecret: Bytes) returns (r: Result<Incoming>)
      requires Valid() && number < U32
      modifies this, receivingChain
      ensures Valid()
      ensures receivingChain == old(receivingChain) || fresh(receivingChain)
      ensures sendingChain == old(sendingChain) || fresh(sendingChain)
      ensures (Value(), r) == DecryptKey(suite, old(Value()), remote, number, newSecret)
    {
      if remotePublic != Some(remote) {
        var stepped := Step(remote, newSecret);
        if stepped.Err? {
          return Err(stepped.error);
        }
      }
      r := ReceiveMessageKey(number);
    }
  }
}
