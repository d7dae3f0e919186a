/** The lifecycle of a P2P session: gathering, offer or answer, checks. */
module Session {
  import opened Wrappers
  import opened Bytes
  import opened Text
  import opened Ice
  import opened Connectivity

  datatype SessionState = Idle | GatheringCandidates | OfferSent | AnswerSent | Checking | Connected | SessionFailed

  datatype Reason = NoRemoteCandidates | ChecksFailed | Timeout

  datatype SessionEvent =
    | SendOffer(target: string, lines: seq<string>)
    | SendAnswer(target: string, lines: seq<string>)
    | SendIceCandidate(target: string, line: string)
    | ConnectionEstablished(target: string, local: Address, remote: Address)
    | ConnectionFailed(target: string, reason: Reason)

  /** The value of a `P2pSession`; `log` is history: every event it ever emitted. */
  datatype Peering = Peering(
    state: SessionState,
    target: string,
    locals: seq<Candidate>,
    remotes: seq<Candidate>,
    nominatedLocal: Option<Address>,
    nominatedRemote: Option<Address>,
    events: seq<SessionEvent>,
    log: seq<SessionEvent>
  )

  /** What the network does to a check phase: the session's own timeout, or a result per check. */
  datatype Phase = TimedOut | Probed(probe: nat -> Probe)

  // ---------------------------------------------------------------
  // Operations
  // ---------------------------------------------------------------

  function NewPeering(target: string): (s: Peering) {
    Peering(Idle, target, [], [], None, None, [], [])
  }

  function Emit(s: Peering, evs: seq<SessionEvent>): (s': Peering) {
    s.(events := s.events + evs, log := s.log + evs)
  }

  function Lines(x: IpText, cs: seq<Candidate>): (lines: seq<string>)
    ensures |lines| == |cs|
  {
    seq(|cs|, i requires 0 <= i < |cs| => ToSdp(x, cs[i]))
  }

  function Trickle(x: IpText, target: string, cs: seq<Candidate>): (evs: seq<SessionEvent>)
    ensures |evs| == |cs|
  {
    seq(|cs|, i requires 0 <= i < |cs| => SendIceCandidate(target, ToSdp(x, cs[i])))
  }

  /** `gather_candidates`; a failure leaves the session gathering. */
  function GatherInto(x: IpText, s: Peering, found: Result<Discovery>): (r: (Peering, Result<()>)) {
    var s1 := s.(state := GatheringCandidates);
    match found
    case Err(e) => (s1, Err(e))
    case Ok(d) => (Emit(s1.(locals := Gathered(d)), Trickle(x, s.target, Gathered(d))), Ok(()))
  }

  function Initiate(x: IpText, s: Peering, found: Result<Discovery>): (r: (Peering, Result<()>)) {
    if s.state != Idle then (s, Err(Error.Ice)) else
      var (s1, r) := GatherInto(x, s, found);
      if r.Err? then (s1, r)
      else (Emit(s1.(state := OfferSent), [SendOffer(s.target, Lines(x, s1.locals))]), Ok(()))
  }

  function Respond(x: IpText, s: Peering, remotes: seq<Candidate>,
                   found: Result<Discovery>): (r: (Peering, Result<()>)) {
    if s.state != Idle then (s, Err(Error.Ice)) else
      var (s1, r) := GatherInto(x, s.(remotes := remotes), found);
      if r.Err? then (s1, r)
      else (Emit(s1.(state := AnswerSent), [SendAnswer(s.target, Lines(x, s1.locals))]), Ok(()))
  }

  function SetRemotes(s: Peering, remotes: seq<Candidate>): (s': Peering) {
    s.(remotes := remotes)
  }

  function AddRemote(s: Peering, c: Candidate): (s': Peering) {
    s.(remotes := s.remotes + [c])
  }

  function Fail(s: Peering, reason: Reason): (s': Peering) {
    Emit(s.(state := SessionFailed), [ConnectionFailed(s.target, reason)])
  }

  function Nominate(s: Peering, local: Address, remote: Address): (s': Peering) {
    Emit(s.(state := Connected, nominatedLocal := Some(local), nominatedRemote := Some(remote)),
         [ConnectionEstablished(s.target, local, remote)])
  }

  /** The initiator controls. */
  function RoleOf(s: Peering): (role: IceRole) {
    if s.state == OfferSent then Controlling else Controlled
  }

  function RunChecks(s: Peering, phase: Phase): (r: (Peering, Result<()>)) {
    if s.state != OfferSent && s.state != AnswerSent then (s, Err(Error.Ice))
    else if s.remotes == [] then (Fail(s, NoRemoteCandidates), Err(Error.Ice))
    else
      match phase
      case TimedOut => (Fail(s, Timeout), Err(Error.Ice))
      case Probed(probe) =>
        match Elected(s.locals, s.remotes, RoleOf(s), probe)
        case None => (Fail(s, ChecksFailed), Err(Error.Ice))
        case Some(p) =>
          (Nominate(s, p.local.address, p.remote.address), Ok(()))
  }

  function Drain(s: Peering): (r: (Peering, seq<SessionEvent>)) {
    (s.(events := []), s.events)
  }

  // ---------------------------------------------------------------
  // The object
  // ---------------------------------------------------------------

  class P2pSession {
    const addresses: IpText
    const target: string
    var state: SessionState
    var localCandidates: seq<Candidate>
    var remoteCandidates: seq<Candidate>
    var nominatedLocal: Option<Address>
    var nominatedRemote: Option<Address>
    var events: seq<SessionEvent>
    ghost var log: seq<SessionEvent>

    ghost function Value(): (s: Peering)
      reads this
    {
      Peering(state, target, localCandidates, remoteCandidates, nominatedLocal, nominatedRemote, events, log)
    }

    constructor (x: IpText, target: string)
      ensures addresses == x && Value() == NewPeering(target)
    {
      addresses, this.target, state := x, target, Idle;
      localCandidates, remoteCandidates, nominatedLocal, nominatedRemote := [], [], None, None;
      events, log := [], [];
    }

    method Push(ev: SessionEvent)
      modifies this
      ensures Value() == Emit(old(Value()), [ev])
    {
      events := events + [ev];
      log := log + [ev];
    }

    method GatherCandidates(found: Result<Discovery>) returns (r: Result<()>)
      modifies this
      ensures (Value(), r) == GatherInto(addresses, old(Value()), found)
    {
      hide ToSdp, Gathered;
      state := GatheringCandidates;
      if found.Err? {
        return Err(found.error);
      }
      localCandidates := Gather(found.value);
      ghost var before := Value();
      for i := 0 to |localCandidates|
        invariant Value() == Emit(before, Trickle(addresses, target, before.locals)[..i])
      {
        Push(SendIceCandidate(target, ToSdp(addresses, localCandidates[i])));
      }
      assert Trickle(addresses, target, before.locals)[..|localCandidates|]
        == Trickle(addresses, target, before.locals);
      r := Ok(());
    }

    method InitiateSession(found: Result<Discovery>) returns (r: Result<()>)
      modifies this
      ensures (Value(), r) == Initiate(addresses, old(Value()), found)
    {
      if state != Idle {
        return Err(Error.Ice);
      }
      r := GatherCandidates(found);
      if r.Err? {
        return;
      }
      state := OfferSent;
      Push(SendOffer(target, Lines(addresses, localCandidates)));
    }

    method RespondToOffer(remotes: seq<Candidate>, found: Result<Discovery>) returns (r: Result<()>)
      modifies this
      ensures (Value(), r) == Respond(addresses, old(Value()), remotes, found)
    {
      if state != Idle {
        return Err(Error.Ice);
      }
      remoteCandidates := remotes;
      r := GatherCandidates(found);
      if r.Err? {
        return;
      }
      state := AnswerSent;
      Push(SendAnswer(target, Lines(addresses, localCandidates)));
    }

    method SetRemoteCandidates(remotes: seq<Candidate>)
      modifies this`remoteCandidates
      ensures Value() == SetRemotes(old(Value()), remotes)
    {
      remoteCandidates := remotes;
    }

    method AddRemoteCandidate(c: Candidate)
      modifies this`remoteCandidates
      ensures Value() == AddRemote(old(Value()), c)
    {
      remoteCandidates := remoteCandidates + [c];
    }

    method FailWith(reason: Reason)
      modifies this
      ensures Value() == Fail(old(Value()), reason)
    {
      state := SessionFailed;
      Push(ConnectionFailed(target, reason));
    }

    method Check(phase: Phase) returns (r: Result<()>)
      modifies this
      ensures (Value(), r) == RunChecks(old(Value()), phase)
    {
      hide CheckList, Checked, Nominated;
      if state != OfferSent && state != AnswerSent {
        return Err(Error.Ice);
      }
      if remoteCandidates == [] {
        FailWith(NoRemoteCandidates);
        return Err(Error.Ice);
      }
      var role := if state == OfferSent then Controlling else Controlled;
      state := Checking;
      if phase.TimedOut? {
        FailWith(Timeout);
        return Err(Error.Ice);
      }
      var checker := new ConnectivityChecker(localCandidates, remoteCandidates, role);
      var checked := checker.RunChecks(phase.probe);
      if checked.Err? {
        FailWith(ChecksFailed);
        return Err(Error.Ice);
      }
      var p := checked.value;
      state := Connected;
      nominatedLocal, nominatedRemote := Some(p.local.address), Some(p.remote.address);
      Push(ConnectionEstablished(target, p.local.address, p.remote.address));
      r := Ok(());
    }

    method DrainEvents() returns (drained: seq<SessionEvent>)
      modifies this`events
      ensures (Value(), drained) == Drain(old(Value()))
    {
      drained := events;
      events := [];
    }
  }

  // ---------------------------------------------------------------
  // Every sequence of calls
  // ---------------------------------------------------------------

  datatype Call =
    | CallInitiate(found: Result<Discovery>)
    | CallRespond(offered: seq<Candidate>, discovered: Result<Discovery>)
    | CallSetRemotes(remotes: seq<Candidate>)
    | CallAddRemote(remote: Candidate)
    | CallRunChecks(phase: Phase)
    | CallDrain

  function Apply(x: IpText, s: Peering, call: Call): (s': Peering) {
    match call
    case CallInitiate(found) => Initiate(x, s, found).0
    case CallRespond(offered, discovered) => Respond(x, s, offered, discovered).0
    case CallSetRemotes(remotes) => SetRemotes(s, remotes)
    case CallAddRemote(remote) => AddRemote(s, remote)
    case CallRunChecks(phase) => RunChecks(s, phase).0
    case CallDrain => Drain(s).0
  }

  function ApplyAll(x: IpText, s: Peering, calls: seq<Call>): (s': Peering)
    decreases |calls|
  {
    if calls == [] then s else ApplyAll(x, Apply(x, s, calls[0]), calls[1..])
  }

  function Rank(state: SessionState): (n: nat) {
    match state
    case Idle => 0
    case GatheringCandidates => 1
    case OfferSent => 2
    case AnswerSent => 2
    case Checking => 3
    case Connected => 4
    case SessionFailed => 4
  }

  predicate Opening(ev: SessionEvent) {
    ev.SendOffer? || ev.SendAnswer?
  }

  predicate Terminal(ev: SessionEvent) {
    ev.ConnectionEstablished? || ev.ConnectionFailed?
  }

  /** What a session has emitted when it starts checking: its candidates one by one, then all in an offer or answer. */
  function Opened(x: IpText, s: Peering, offer: bool): (log: seq<SessionEvent>) {
    var lines := Lines(x, s.locals);
    Trickle(x, s.target, s.locals) + [if offer then SendOffer(s.target, lines) else SendAnswer(s.target, lines)]
  }

  /** The whole log is fixed by the state: nothing, the opening, or the opening and one terminal event. */
  ghost predicate LogOk(x: IpText, s: Peering) {
    match s.state
    case Idle => s.log == [] && s.locals == []
    case GatheringCandidates => s.log == [] && s.locals == []
    case OfferSent => s.log == Opened(x, s, true)
    case AnswerSent => s.log == Opened(x, s, false)
    case Checking => false
    case Connected => s.nominatedLocal.Some? && s.nominatedRemote.Some? && exists offer: bool ::
      s.log == Opened(x, s, offer) + [ConnectionEstablished(s.target, s.nominatedLocal.value, s.nominatedRemote.value)]
    case SessionFailed => exists offer: bool, reason ::
      s.log == Opened(x, s, offer) + [ConnectionFailed(s.target, reason)]
  }

  ghost predicate PeeringInv(x: IpText, s: Peering) {
    && LogOk(x, s)
    && (s.state != Connected ==> s.nominatedLocal.None? && s.nominatedRemote.None?)
    && |s.events| <= |s.log| && s.events == s.log[|s.log| - |s.events|..]
  }

  lemma EmitPending(s: Peering, evs: seq<SessionEvent>)
    requires |s.events| <= |s.log| && s.events == s.log[|s.log| - |s.events|..]
    ensures var s' := Emit(s, evs);
            |s'.events| <= |s'.log| && s'.events == s'.log[|s'.log| - |s'.events|..] && s.log <= s'.log
  {
  }

  lemma StartInv(x: IpText, s: Peering, found: Result<Discovery>, remotes: seq<Candidate>)
    requires PeeringInv(x, s)
    ensures PeeringInv(x, Initiate(x, s, found).0) && s.log <= Initiate(x, s, found).0.log
    ensures PeeringInv(x, Respond(x, s, remotes, found).0) && s.log <= Respond(x, s, remotes, found).0.log
  {
    hide Gathered, Trickle, Lines;
    if s.state == Idle && found.Ok? {
      var cs := Gathered(found.value);
      var trickle := Trickle(x, s.target, cs);
      assert [] + trickle == trickle;
    }
  }

  lemma FailInv(x: IpText, s: Peering, reason: Reason)
    requires PeeringInv(x, s) && (s.state == OfferSent || s.state == AnswerSent)
    ensures PeeringInv(x, Fail(s, reason)) && s.log <= Fail(s, reason).log
  {
    hide Opened;
    var s' := Fail(s, reason);
    var offer := s.state == OfferSent;
    OpenedSame(x, s, s', offer);
    EmitPending(s, [ConnectionFailed(s.target, reason)]);
    assert s'.log == Opened(x, s', offer) + [ConnectionFailed(s'.target, reason)];
  }

  lemma ConnectedInv(x: IpText, s: Peering, local: Address, remote: Address)
    requires PeeringInv(x, s) && (s.state == OfferSent || s.state == AnswerSent)
    ensures PeeringInv(x, Nominate(s, local, remote)) && s.log <= Nominate(s, local, remote).log
  {
    hide Opened, LogOk;
    var ev, s' := ConnectionEstablished(s.target, local, remote), Nominate(s, local, remote);
    var offer := s.state == OfferSent;
    OpenLog(x, s);
    OpenedSame(x, s, s', offer);
    EmitPending(s, [ev]);
    ConnectedLog(x, s', offer);
  }

  /** What a session with an offer or answer out has said. */
  lemma OpenLog(x: IpText, s: Peering)
    requires LogOk(x, s) && (s.state == OfferSent || s.state == AnswerSent)
    ensures s.log == Opened(x, s, s.state == OfferSent)
  {
    hide Opened;
  }

  lemma ConnectedLog(x: IpText, s: Peering, offer: bool)
    requires s.state == Connected && s.nominatedLocal.Some? && s.nominatedRemote.Some?
    requires s.log == Opened(x, s, offer)
               + [ConnectionEstablished(s.target, s.nominatedLocal.value, s.nominatedRemote.value)]
    ensures LogOk(x, s)
  {
    hide Opened;
  }

  lemma ChecksInv(x: IpText, s: Peering, phase: Phase)
    requires PeeringInv(x, s)
    ensures PeeringInv(x, RunChecks(s, phase).0) && s.log <= RunChecks(s, phase).0.log
  {
    hide Elected, Fail, LogOk, Nominate;
    if s.state == OfferSent || s.state == AnswerSent {
      FailInv(x, s, NoRemoteCandidates);
      FailInv(x, s, Timeout);
      FailInv(x, s, ChecksFailed);
      if s.remotes != [] && phase.Probed? {
        var elected := Elected(s.locals, s.remotes, RoleOf(s), phase.probe);
        if elected.Some? {
          ConnectedInv(x, s, elected.value.local.address, elected.value.remote.address);
        }
      }
    }
  }

  lemma OpenedSame(x: IpText, s: Peering, s': Peering, offer: bool)
    requires s'.locals == s.locals && s'.target == s.target
    ensures Opened(x, s', offer) == Opened(x, s, offer)
  {
  }

  lemma LogOkSame(x: IpText, s: Peering, s': Peering)
    requires LogOk(x, s) && s' == s.(remotes := s'.remotes, events := s'.events)
    ensures LogOk(x, s')
  {
    assert Opened(x, s', true) == Opened(x, s, true) && Opened(x, s', false) == Opened(x, s, false);
    hide Opened;
  }

  lemma ApplyInv(x: IpText, s: Peering, call: Call)
    requires PeeringInv(x, s)
    ensures PeeringInv(x, Apply(x, s, call)) && s.log <= Apply(x, s, call).log
  {
    hide Initiate, Respond, RunChecks, Trickle, Lines;
    match call
    case CallInitiate(found) => StartInv(x, s, found, []);
    case CallRespond(offered, discovered) => StartInv(x, s, discovered, offered);
    case CallRunChecks(phase) => ChecksInv(x, s, phase);
    case CallSetRemotes(remotes) => LogOkSame(x, s, SetRemotes(s, remotes));
    case CallAddRemote(remote) => LogOkSame(x, s, AddRemote(s, remote));
    case CallDrain => LogOkSame(x, s, Drain(s).0);
  }

  /** No call, not even a failing one, takes the session back. */
  lemma RankGrows(x: IpText, s: Peering, call: Call)
    ensures Rank(s.state) <= Rank(Apply(x, s, call).state)
  {
    hide Elected, Gathered, Trickle, Lines;
  }

  lemma {:induction false} RunInv(x: IpText, s: Peering, calls: seq<Call>)
    requires PeeringInv(x, s)
    ensures PeeringInv(x, ApplyAll(x, s, calls)) && s.log <= ApplyAll(x, s, calls).log
    ensures Rank(s.state) <= Rank(ApplyAll(x, s, calls).state)
    decreases |calls|
  {
    hide Apply, PeeringInv, Rank;
    if calls != [] {
      var s1 := Apply(x, s, calls[0]);
      ApplyInv(x, s, calls[0]);
      RankGrows(x, s, calls[0]);
      RunInv(x, s1, calls[1..]);
    }
  }

  /**
   * Session lifecycle. After any sequence of calls on a new session: at most one offer or answer
   * and at most one terminal event were ever emitted, nothing follows the terminal one, and the
   * session is connected exactly if the established event was emitted, exactly if a local address
   * is nominated, exactly if a remote one is.
   */
  lemma Lifecycle(x: IpText, target: string, calls: seq<Call>)
    ensures var s := ApplyAll(x, NewPeering(target), calls);
            && Shaped(s.log)
            && (s.state == Connected <==> s.nominatedLocal.Some?)
            && (s.state == Connected <==> s.nominatedRemote.Some?)
            && (s.state == Connected <==> exists i :: 0 <= i < |s.log| && s.log[i].ConnectionEstablished?)
  {
    hide ApplyAll;
    var s := ApplyAll(x, NewPeering(target), calls);
    RunInv(x, NewPeering(target), calls);
    LogShape(x, s);
  }

  /** At most one offer or answer, and nothing behind a terminal event. */
  ghost predicate Shaped(log: seq<SessionEvent>) {
    && (forall i, j :: 0 <= i < |log| && 0 <= j < |log| && Opening(log[i]) && Opening(log[j]) ==> i == j)
    && (forall i :: 0 <= i < |log| && Terminal(log[i]) ==> i == |log| - 1)
  }

  /** The opening ends in the one offer or answer, and holds no terminal event. */
  ghost predicate OpeningLog(log: seq<SessionEvent>) {
    && (forall i :: 0 <= i < |log| ==> !Terminal(log[i]))
    && (forall i :: 0 <= i < |log| && Opening(log[i]) ==> i == |log| - 1)
  }

  lemma OpenedShape(x: IpText, s: Peering, offer: bool)
    ensures OpeningLog(Opened(x, s, offer))
  {
    hide ToSdp, Lines;
  }

  lemma EndedShape(log: seq<SessionEvent>, ev: SessionEvent)
    requires OpeningLog(log)
    ensures Shaped(log) && (forall i :: 0 <= i < |log| ==> !log[i].ConnectionEstablished?)
    ensures Terminal(ev) ==>
              && Shaped(log + [ev])
              && (ev.ConnectionEstablished? <==>
                   exists i :: 0 <= i < |log + [ev]| && (log + [ev])[i].ConnectionEstablished?)
  {
    var all := log + [ev];
    assert all[|log|] == ev;
    assert forall i :: 0 <= i < |log| ==> all[i] == log[i];
  }

  /** Nothing but an established event in the log can tell that a session connected. */
  ghost predicate TellsConnected(log: seq<SessionEvent>, connected: bool) {
    connected <==> exists i :: 0 <= i < |log| && log[i].ConnectionEstablished?
  }

  lemma EndedLogShape(x: IpText, s: Peering, offer: bool, ev: SessionEvent)
    requires s.log == Opened(x, s, offer) + [ev] && Terminal(ev)
    ensures Shaped(s.log) && TellsConnected(s.log, ev.ConnectionEstablished?)
  {
    hide Opened, Shaped;
    OpenedShape(x, s, offer);
    EndedShape(Opened(x, s, offer), ev);
  }

  lemma OpenLogShape(x: IpText, s: Peering, offer: bool)
    requires s.log == Opened(x, s, offer)
    ensures Shaped(s.log) && TellsConnected(s.log, false)
  {
    hide Opened, Shaped;
    OpenedShape(x, s, offer);
    EndedShape(Opened(x, s, offer), ConnectionFailed(s.target, Timeout));
  }

  lemma EmptyLogShape()
    ensures Shaped([]) && TellsConnected([], false)
  {
  }

  lemma LogShape(x: IpText, s: Peering)
    requires LogOk(x, s)
    ensures Shaped(s.log) && TellsConnected(s.log, s.state == Connected)
  {
    hide Opened, Shaped, TellsConnected;
    match s.state
    case Connected =>
      var ev := ConnectionEstablished(s.target, s.nominatedLocal.value, s.nominatedRemote.value);
      var offer: bool :| s.log == Opened(x, s, offer) + [ev];
      EndedLogShape(x, s, offer, ev);
    case SessionFailed =>
      var offer: bool, reason :| s.log == Opened(x, s, offer) + [ConnectionFailed(s.target, reason)];
      EndedLogShape(x, s, offer, ConnectionFailed(s.target, reason));
    case OfferSent => OpenLogShape(x, s, true);
    case AnswerSent => OpenLogShape(x, s, false);
    case Idle => EmptyLogShape();
    case GatheringCandidates => EmptyLogShape();
  }

  /** Every line of an offer or answer a session emits parses back to its local candidate. */
  lemma LinesParse(x: IpText, cs: seq<Candidate>, i: nat)
    requires IpLaw(x) && Printable(cs) && i < |cs|
    ensures FromSdp(x, Lines(x, cs)[i]) == Ok(cs[i])
  {
    SdpRoundTrip(x, cs[i]);
  }

  // ---------------------------------------------------------------
  // Remote candidates, and how checks end
  // ---------------------------------------------------------------

  /** The candidates trickled in. */
  function Added(calls: seq<Call>): (cs: seq<Candidate>) {
    if calls == [] then [] else (if calls[0].CallAddRemote? then [calls[0].remote] else []) + Added(calls[1..])
  }

  /** Every trickled candidate is kept, in order, behind those of the offer or answer. */
  lemma {:induction false} TrickledAreKept(x: IpText, s: Peering, calls: seq<Call>)
    requires forall i :: 0 <= i < |calls| ==> !calls[i].CallRespond? && !calls[i].CallSetRemotes?
    ensures ApplyAll(x, s, calls).remotes == s.remotes + Added(calls)
    decreases |calls|
  {
    hide Apply;
    if calls != [] {
      var s1, rest := Apply(x, s, calls[0]), calls[1..];
      AddedOne(x, s, calls[0]);
      TrickledAreKept(x, s1, rest);
      var one := if calls[0].CallAddRemote? then [calls[0].remote] else [];
      assert s.remotes + one + Added(rest) == s.remotes + (one + Added(rest));
    }
  }

  lemma AddedOne(x: IpText, s: Peering, call: Call)
    requires !call.CallRespond? && !call.CallSetRemotes?
    ensures Apply(x, s, call).remotes == s.remotes + if call.CallAddRemote? then [call.remote] else []
  {
    hide Apply;
    RemotesAfter(x, s, call);
  }

  /** An offer or answer replaces them: a response only while idle. */
  lemma RemotesAfter(x: IpText, s: Peering, call: Call)
    ensures Apply(x, s, call).remotes
         == match call
            case CallRespond(offered, _) => if s.state == Idle then offered else s.remotes
            case CallSetRemotes(remotes) => remotes
            case CallAddRemote(remote) => s.remotes + [remote]
            case _ => s.remotes
  {
    hide Elected, Gathered, ToSdp;
  }

  /**
   * How a check phase ends, exactly: refused without change unless an offer or answer is out; failed
   * for want of remote candidates, for the timeout, or because no check worked, in that order;
   * otherwise connected with the addresses of the pair elected in the session's role.
   */
  lemma ChecksEndBy(s: Peering, phase: Phase)
    ensures var (s', r) := RunChecks(s, phase);
            if s.state != OfferSent && s.state != AnswerSent then s' == s && r.Err?
            else
              && |s'.events| == |s.events| + 1 && s'.events[..|s.events|] == s.events
              && s'.log == s.log + [s'.events[|s.events|]]
              && var ev := s'.events[|s.events|];
                 var role := if s.state == OfferSent then Controlling else Controlled;
              && ev.target == s.target && (ev.ConnectionEstablished? || ev.ConnectionFailed?)
              && (r.Ok? <==> ev.ConnectionEstablished?)
              && (ev.ConnectionFailed? && ev.reason == NoRemoteCandidates <==> s.remotes == [])
              && (ev.ConnectionFailed? && ev.reason == Timeout <==> s.remotes != [] && phase.TimedOut?)
              && (ev.ConnectionEstablished? ==>
                    && phase.Probed? && Elected(s.locals, s.remotes, role, phase.probe).Some?
                    && var p := Elected(s.locals, s.remotes, role, phase.probe).value;
                       ev.local == p.local.address && ev.remote == p.remote.address)
              && (s.remotes != [] && phase.Probed? && Elected(s.locals, s.remotes, role, phase.probe).Some? ==>
                    ev.ConnectionEstablished?)
  {
    hide Elected;
  }

  /** A session that is gathering stays so, and says nothing. */
  lemma {:induction false} GatheringLasts(x: IpText, s: Peering, calls: seq<Call>)
    requires s.state == GatheringCandidates
    ensures ApplyAll(x, s, calls).state == GatheringCandidates && ApplyAll(x, s, calls).log == s.log
    decreases |calls|
  {
    if calls != [] {
      GatheringLasts(x, Apply(x, s, calls[0]), calls[1..]);
    }
  }

  /** So a session whose gathering failed is of no more use: it can be neither opened again nor checked. */
  lemma FailedGathering(x: IpText, s: Peering, call: Call, calls: seq<Call>)
    requires s.state == Idle
    requires (call.CallInitiate? && call.found.Err?) || (call.CallRespond? && call.discovered.Err?)
    ensures var s' := ApplyAll(x, Apply(x, s, call), calls); s'.state == GatheringCandidates && s'.log == s.log
  {
    hide ApplyAll;
    GatheringLasts(x, Apply(x, s, call), calls);
  }
}
