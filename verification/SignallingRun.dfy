/**
 * One initiator, one responder, and a server that carries the messages of each to the other in
 * order. A run is a list of events; what the sockets and the checks yield is input.
 */
module SignallingRun {
  import opened Wrappers
  import opened Text
  import opened Ice
  import opened Connectivity
  import opened Session
  import opened Signalling

  /** The address text and the two nicks. */
  datatype Setting = Setting(x: IpText, initiator: string, responder: string)

  /** A check phase: who ran it, with which candidates, how it went and which addresses it nominated. */
  datatype Check = Check(
    role: IceRole,
    locals: seq<Candidate>,
    remotes: seq<Candidate>,
    phase: Phase,
    nominatedLocal: Option<Address>,
    nominatedRemote: Option<Address>
  )

  /** Both session tables, the two queues, and as history every check phase started. */
  datatype World = World(a: Sessions, b: Sessions, toB: seq<Signal>, toA: seq<Signal>, checks: seq<Check>)

  datatype Event =
    | Begin(found: Result<Discovery>)
    | AtResponder(discovered: Result<Discovery>, phase: Phase)
    | AtInitiator(phase: Phase)

  const START: World := World(map[], map[], [], [], [])

  /** The check phase that `run_checks` on this session is. */
  function CheckOf(s: Peering, phase: Phase): (c: Check) {
    var s' := RunChecks(s, phase).0;
    Check(RoleOf(s), s.locals, s.remotes, phase, s'.nominatedLocal, s'.nominatedRemote)
  }

  /** The check phase that handling this message starts, if any. */
  function CheckStarted(x: IpText, m: Sessions, sender: string, signal: Signal, found: Result<Discovery>, phase: Phase)
    : (c: seq<Check>)
  {
    match signal
    case Offer(lines) =>
      var (s, done) := Respond(x, NewPeering(sender), ParseLines(x, lines), found);
      if ParseLines(x, lines) == [] || done.Err? then [] else [CheckOf(s, phase)]
    case Answer(lines) =>
      if sender !in m || m[sender].state != OfferSent then []
      else [CheckOf(SetRemotes(m[sender], ParseLines(x, lines)), phase)]
    case _ => []
  }

  function Next(k: Setting, w: World, ev: Event): (w': World) {
    match ev
    case Begin(found) =>
      var (m, out) := InitiateTo(k.x, w.a, k.responder, found);
      w.(a := m, toB := w.toB + out)
    case AtResponder(found, phase) =>
      if w.toB == [] then w else
        var (m, out) := Handle(k.x, w.b, k.initiator, w.toB[0], found, phase);
        w.(b := m, toB := w.toB[1..], toA := w.toA + out,
           checks := w.checks + CheckStarted(k.x, w.b, k.initiator, w.toB[0], found, phase))
    case AtInitiator(phase) =>
      if w.toA == [] then w else
        var (m, out) := Handle(k.x, w.a, k.responder, w.toA[0], Err(Error.Ice), phase);
        w.(a := m, toA := w.toA[1..], toB := w.toB + out,
           checks := w.checks + CheckStarted(k.x, w.a, k.responder, w.toA[0], Err(Error.Ice), phase))
  }

  function Run(k: Setting, w: World, evs: seq<Event>): (w': World)
    decreases |evs|
  {
    if evs == [] then w else Run(k, Next(k, w, evs[0]), evs[1..])
  }

  /** Sockets yield proper addresses. */
  ghost predicate Possible(ev: Event) {
    match ev
    case Begin(found) => found.Ok? ==> DiscoveryOk(found.value)
    case AtResponder(found, _) => found.Ok? ==> DiscoveryOk(found.value)
    case AtInitiator(_) => true
  }

  // ---------------------------------------------------------------
  // What is in flight
  // ---------------------------------------------------------------

  /** Messages that end a session. */
  predicate Ending(m: Signal) {
    m.Established? || m.Failure?
  }

  function IceLines(x: IpText, cs: seq<Candidate>): (q: seq<Signal>)
    ensures |q| == |cs|
  {
    seq(|cs|, i requires 0 <= i < |cs| => IceLine(ToSdp(x, cs[i])))
  }

  /** What the initiator sends to open a session, and the responder to accept it. */
  function OfferBlock(x: IpText, cs: seq<Candidate>): (q: seq<Signal>) {
    IceLines(x, cs) + [Offer(Lines(x, cs))]
  }

  function AnswerBlock(x: IpText, cs: seq<Candidate>, last: Signal): (q: seq<Signal>) {
    IceLines(x, cs) + [Answer(Lines(x, cs)), last]
  }

  ghost predicate Suffix(q: seq<Signal>, block: seq<Signal>) {
    |q| <= |block| && q == block[|block| - |q|..]
  }

  /** Candidates as `gather` lists them. */
  ghost predicate Good(cs: seq<Candidate>) {
    cs != [] && Ranked(cs) && Printable(cs)
  }

  /** What is left of the answer, before it is handled. */
  ghost predicate AnswerInFlight(x: IpText, q: seq<Signal>, cs: seq<Candidate>, last: Signal) {
    2 <= |q| && Suffix(q, AnswerBlock(x, cs, last))
  }

  // ---------------------------------------------------------------
  // What a check leaves
  // ---------------------------------------------------------------

  /** The check nominated a pair of addresses. */
  predicate Worked(c: Check) {
    c.nominatedLocal.Some? && c.nominatedRemote.Some?
  }

  /** The message that tells the peer how the check went. */
  function Ended(c: Check): (m: Signal)
    ensures Ending(m)
  {
    if Worked(c) then Established else Failure(if c.phase.TimedOut? then Timeout else ChecksFailed)
  }

  /** The table still holds the session that ran the check, as the check left it. */
  predicate Keeps(m: Sessions, peer: string, c: Check) {
    && peer in m && m[peer].state == (if Worked(c) then Connected else SessionFailed)
    && m[peer].nominatedLocal == c.nominatedLocal && m[peer].nominatedRemote == c.nominatedRemote
  }

  /** The last two checks, of the responder and then of the initiator. */
  predicate InPairs(checks: seq<Check>) {
    var n := |checks|;
    n >= 2 && checks[n - 2].role == Controlled && checks[n - 1].role == Controlling
  }

  /**
   * The responder's side after a pair of checks: it keeps its session until it reads that the
   * initiator's check failed. `pending` is what it has yet to read about that.
   */
  ghost predicate ResponderSide(k: Setting, b: Sessions, checks: seq<Check>, pending: seq<Signal>) {
    if checks == [] then pending == [] && k.initiator !in b else
      && InPairs(checks)
      && var n := |checks|;
      if pending == [] && !Worked(checks[n - 1]) then k.initiator !in b
      else (pending == [] || pending == [Ended(checks[n - 1])]) && Keeps(b, k.initiator, checks[n - 2])
  }

  datatype Stage = NoSession | Offering | Answering | Unanswered | Over

  /** How the sessions, the queues and the last checks belong together. */
  ghost predicate StageOk(k: Setting, w: World, stage: Stage) {
    match stage
    case NoSession =>
      && k.responder !in w.a && ResponderSide(k, w.b, w.checks, w.toB) && w.toA == []
      && (w.checks != [] ==> !Worked(w.checks[|w.checks| - 2]))
    case Offering =>
      && k.responder in w.a && OfferOut(w.a[k.responder]) && w.toA == []
      && exists n: nat :: OfferBehind(k, w, n)
    case Answering =>
      && k.responder in w.a && OfferOut(w.a[k.responder]) && w.toB == []
      && k.initiator in w.b && Good(w.b[k.initiator].locals)
      && w.b[k.initiator].remotes == w.a[k.responder].locals
      && w.checks != []
      && var c := w.checks[|w.checks| - 1];
      && AnswerInFlight(k.x, w.toA, w.b[k.initiator].locals, Ended(c)) && Keeps(w.b, k.initiator, c)
      && Counterpart(c, w.b[k.initiator].locals, w.a[k.responder].locals)
    case Unanswered => k.responder in w.a && w.a[k.responder].state == OfferSent && w.toB == [] && w.toA == []
    case Over =>
      && InPairs(w.checks)
      && var n := |w.checks|;
      && Keeps(w.a, k.responder, w.checks[n - 1]) && ResponderSide(k, w.b, w.checks, w.toB)
      && (if w.toA == [] then Worked(w.checks[n - 2]) else w.toA == [Ended(w.checks[n - 2])])
  }

  /** What is left of the offer comes behind the n messages about the last checks. */
  ghost predicate OfferBehind(k: Setting, w: World, n: nat)
    requires k.responder in w.a
  {
    && n < |w.toB| && ResponderSide(k, w.b, w.checks, w.toB[..n])
    && Suffix(w.toB[n..], OfferBlock(k.x, w.a[k.responder].locals))
  }

  ghost predicate OfferOut(s: Peering) {
    s.state == OfferSent && s.events == [] && s.nominatedLocal.None? && s.nominatedRemote.None? && Good(s.locals)
  }

  /** Every check of the initiator comes right after the responder's, with the candidates exchanged. */
  ghost predicate ChecksMirrored(checks: seq<Check>) {
    forall i :: 0 <= i < |checks| ==> MirroredAt(checks, i)
  }

  ghost predicate MirroredAt(checks: seq<Check>, i: nat)
    requires i < |checks|
  {
    && Good(checks[i].locals) && Good(checks[i].remotes) && Faithful(checks[i])
    && (checks[i].role == Controlling ==>
          i > 0 && Counterpart(checks[i - 1], checks[i].remotes, checks[i].locals))
  }

  /** A check of the responder with these candidates. */
  predicate Counterpart(c: Check, locals: seq<Candidate>, remotes: seq<Candidate>) {
    c.role == Controlled && c.locals == locals && c.remotes == remotes
  }

  /** The addresses nominated are those of the pair elected, none if there is none. */
  ghost predicate Faithful(c: Check) {
    if c.phase.TimedOut? || Elected(c.locals, c.remotes, c.role, c.phase.probe).None?
    then c.nominatedLocal.None? && c.nominatedRemote.None?
    else
      var p := Elected(c.locals, c.remotes, c.role, c.phase.probe).value;
      c.nominatedLocal == Some(p.local.address) && c.nominatedRemote == Some(p.remote.address)
  }

  lemma OneMoreCheck(checks: seq<Check>, c: Check)
    requires ChecksMirrored(checks) && Good(c.locals) && Good(c.remotes) && Faithful(c)
    requires c.role == Controlling ==> checks != [] && Counterpart(checks[|checks| - 1], c.remotes, c.locals)
    ensures ChecksMirrored(checks + [c])
  {
    hide Good, Faithful;
    forall i | 0 <= i < |checks + [c]| ensures MirroredAt(checks + [c], i) {
      if i < |checks| {
        assert MirroredAt(checks, i);
      }
    }
  }

  lemma ChecksAreFaithful(s: Peering, phase: Phase)
    requires (s.state == OfferSent || s.state == AnswerSent) && s.remotes != []
    requires s.nominatedLocal.None? && s.nominatedRemote.None?
    ensures Faithful(CheckOf(s, phase))
  {
    hide Elected;
  }

  ghost predicate Inv(k: Setting, w: World) {
    ChecksMirrored(w.checks) && exists stage :: StageOk(k, w, stage)
  }

  // ---------------------------------------------------------------
  // What each handler sends
  // ---------------------------------------------------------------

  lemma TrickleMessages(x: IpText, target: string, cs: seq<Candidate>, evs: seq<SessionEvent>)
    ensures Messages(Trickle(x, target, cs) + evs) == IceLines(x, cs) + Messages(evs)
  {
    hide ToSdp;
  }

  lemma InitiateMeaning(x: IpText, m: Sessions, target: string, d: Discovery)
    requires target !in m && DiscoveryOk(d)
    ensures var (m', out) := InitiateTo(x, m, target, Ok(d));
            && target in m' && OfferOut(m'[target]) && out == OfferBlock(x, m'[target].locals)
  {
    hide Gathered, Trickle, Lines, Messages, IceLines;
    GatheredRanked(d);
    GatheredPrintable(d);
    var cs := Gathered(d);
    var offer := [SendOffer(target, Lines(x, cs))];
    TrickleMessages(x, target, cs, offer);
    assert Initiate(x, NewPeering(target), Ok(d)).0.events == Trickle(x, target, cs) + offer;
    OneMessage(offer[0]);
  }

  lemma OneMessage(ev: SessionEvent)
    ensures Messages([ev]) == [Message(ev)]
  {
  }

  lemma TwoMessages(ev: SessionEvent, ev': SessionEvent)
    ensures Messages([ev, ev']) == [Message(ev), Message(ev')]
  {
  }

  /** However the checks end, the session leaves its state with one more event. */
  lemma ChecksEnd(s: Peering, phase: Phase) returns (ev: SessionEvent)
    requires (s.state == OfferSent || s.state == AnswerSent) && s.remotes != []
    requires s.nominatedLocal.None? && s.nominatedRemote.None?
    ensures var s', c := RunChecks(s, phase).0, CheckOf(s, phase);
            && s'.locals == s.locals && s'.remotes == s.remotes
            && s'.state == (if Worked(c) then Connected else SessionFailed)
            && s'.nominatedLocal == c.nominatedLocal && s'.nominatedRemote == c.nominatedRemote
            && s'.events == s.events + [ev] && Message(ev) == Ended(c)
  {
    hide Elected;
    ev := RunChecks(s, phase).0.events[|s.events|];
  }

  /** The session a responder starts its checks with. */
  lemma RespondMeaning(x: IpText, sender: string, cs: seq<Candidate>, d: Discovery)
    ensures var (s, r) := Respond(x, NewPeering(sender), cs, Ok(d));
            && r == Ok(()) && s.state == AnswerSent && s.locals == Gathered(d) && s.remotes == cs
            && s.nominatedLocal.None? && s.nominatedRemote.None?
            && s.events == Trickle(x, sender, Gathered(d)) + [SendAnswer(sender, Lines(x, Gathered(d)))]
  {
    hide Gathered, Trickle, Lines;
    assert [] + Trickle(x, sender, Gathered(d)) == Trickle(x, sender, Gathered(d));
  }

  /** What such a session has to send when its checks are over. */
  lemma AnswerGoesOut(x: IpText, s: Peering, phase: Phase)
    requires s.state == AnswerSent && s.remotes != [] && s.nominatedLocal.None? && s.nominatedRemote.None?
    requires s.events == Trickle(x, s.target, s.locals) + [SendAnswer(s.target, Lines(x, s.locals))]
    ensures AnswerInFlight(x, Messages(RunChecks(s, phase).0.events), s.locals, Ended(CheckOf(s, phase)))
  {
    hide Trickle, Lines, Messages, IceLines, RunChecks, Ended;
    var answer := SendAnswer(s.target, Lines(x, s.locals));
    var ev := ChecksEnd(s, phase);
    assert s.events + [ev] == Trickle(x, s.target, s.locals) + [answer, ev];
    TrickleMessages(x, s.target, s.locals, [answer, ev]);
    TwoMessages(answer, ev);
    assert Messages(s.events + [ev]) == AnswerBlock(x, s.locals, Message(ev));
  }

  /** `handle_offer`, given the candidates it parses and the session it starts. */
  lemma HandleOfferBy(x: IpText, m: Sessions, sender: string, lines: seq<string>, d: Discovery, phase: Phase,
                      s: Peering)
    requires ParseLines(x, lines) != [] && Respond(x, NewPeering(sender), ParseLines(x, lines), Ok(d)) == (s, Ok(()))
    ensures HandleOffer(x, m, sender, lines, Ok(d), phase)
         == (m[sender := RunChecks(s, phase).0.(events := [])], Messages(RunChecks(s, phase).0.events))
    ensures CheckStarted(x, m, sender, Offer(lines), Ok(d), phase) == [CheckOf(s, phase)]
  {
    hide RunChecks, Respond, ParseLines, Messages;
  }

  lemma GatheredGood(d: Discovery)
    requires DiscoveryOk(d)
    ensures Good(Gathered(d))
  {
    hide Gathered, Ranked, Printable;
    GatheredRanked(d);
    GatheredPrintable(d);
  }

  lemma OfferMeaning(x: IpText, m: Sessions, sender: string, cs: seq<Candidate>, d: Discovery, phase: Phase)
    requires IpLaw(x) && Good(cs) && DiscoveryOk(d)
    ensures ParseLines(x, Lines(x, cs)) == cs
    ensures var (m', out) := HandleOffer(x, m, sender, Lines(x, cs), Ok(d), phase);
            var checks := CheckStarted(x, m, sender, Offer(Lines(x, cs)), Ok(d), phase);
            && |checks| == 1 && Counterpart(checks[0], Gathered(d), cs) && Faithful(checks[0])
            && sender in m' && m'[sender].remotes == cs && m'[sender].locals == Gathered(d) && Good(Gathered(d))
            && Keeps(m', sender, checks[0]) && AnswerInFlight(x, out, Gathered(d), Ended(checks[0]))
  {
    hide Gathered, Trickle, Lines, Messages, RunChecks, ParseLines, Respond, HandleOffer, CheckStarted, AnswerInFlight;
    hide Faithful, Ranked, Printable;
    GatheredGood(d);
    GoodPrintable(cs);
    LinesRoundTrip(x, cs);
    RespondMeaning(x, sender, cs, d);
    var s := Respond(x, NewPeering(sender), cs, Ok(d)).0;
    HandleOfferBy(x, m, sender, Lines(x, cs), d, phase, s);
    RespondTarget(x, sender, cs, d);
    AnswerGoesOut(x, s, phase);
    var ev := ChecksEnd(s, phase);
    ChecksAreFaithful(s, phase);
  }

  lemma RespondTarget(x: IpText, sender: string, cs: seq<Candidate>, d: Discovery)
    ensures Respond(x, NewPeering(sender), cs, Ok(d)).0.target == sender
  {
  }

  /** `handle_answer`, given the candidates it parses. */
  lemma HandleAnswerBy(x: IpText, m: Sessions, sender: string, lines: seq<string>, phase: Phase, s: Peering)
    requires sender in m && m[sender].state == OfferSent && s == SetRemotes(m[sender], ParseLines(x, lines))
    ensures HandleAnswer(x, m, sender, lines, phase)
         == (m[sender := RunChecks(s, phase).0.(events := [])], Messages(RunChecks(s, phase).0.events))
    ensures CheckStarted(x, m, sender, Answer(lines), Err(Error.Ice), phase) == [CheckOf(s, phase)]
  {
    hide RunChecks, ParseLines, Messages;
  }

  lemma AnswerMeaning(x: IpText, m: Sessions, sender: string, cs: seq<Candidate>, phase: Phase)
    requires IpLaw(x) && Good(cs) && sender in m && OfferOut(m[sender])
    ensures ParseLines(x, Lines(x, cs)) == cs
    ensures var (m', out) := HandleAnswer(x, m, sender, Lines(x, cs), phase);
            var checks := CheckStarted(x, m, sender, Answer(Lines(x, cs)), Err(Error.Ice), phase);
            && |checks| == 1 && checks[0].role == Controlling && checks[0].locals == m[sender].locals
            && checks[0].remotes == cs && Faithful(checks[0])
            && Keeps(m', sender, checks[0]) && out == [Ended(checks[0])]
  {
    hide Lines, RunChecks, ParseLines, Messages, HandleAnswer, CheckStarted, Faithful, Ranked, Printable;
    GoodPrintable(cs);
    LinesRoundTrip(x, cs);
    var s := SetRemotes(m[sender], cs);
    HandleAnswerBy(x, m, sender, Lines(x, cs), phase, s);
    var ev := ChecksEnd(s, phase);
    ChecksAreFaithful(s, phase);
    assert s.events + [ev] == [ev];
    OneMessage(ev);
  }

  // ---------------------------------------------------------------
  // Stage by stage
  // ---------------------------------------------------------------

  lemma BeginInv(k: Setting, w: World, found: Result<Discovery>)
    requires Inv(k, w) && Possible(Begin(found))
    ensures Inv(k, Next(k, w, Begin(found)))
  {
    hide OfferBlock, AnswerBlock, Good, ChecksMirrored, Initiate;
    var stage :| StageOk(k, w, stage);
    var w' := Next(k, w, Begin(found));
    if stage == NoSession && found.Ok? {
      InitiateMeaning(k.x, w.a, k.responder, found.value);
      var block := OfferBlock(k.x, w'.a[k.responder].locals);
      assert w'.toB[..|w.toB|] == w.toB && w'.toB[|w.toB|..] == block;
      BlockNotEmpty(k.x, w'.a[k.responder].locals);
      assert OfferBehind(k, w', |w.toB|);
      assert StageOk(k, w', Offering);
    } else if stage == NoSession {
      FailedInitiate(k.x, w.a, k.responder, found);
      assert w'.toB == w.toB;
      assert StageOk(k, w', stage);
    } else {
      assert w'.toB == w.toB;
      if stage == Offering {
        var n: nat :| OfferBehind(k, w, n);
        assert OfferBehind(k, w', n);
      }
      assert StageOk(k, w', stage);
    }
  }

  lemma FailedInitiate(x: IpText, m: Sessions, target: string, found: Result<Discovery>)
    requires found.Err?
    ensures InitiateTo(x, m, target, found) == (m, [])
  {
  }

  lemma BlockNotEmpty(x: IpText, cs: seq<Candidate>)
    ensures OfferBlock(x, cs) != []
  {
  }

  /** The head of what is left of a block. */
  lemma SuffixHead(q: seq<Signal>, block: seq<Signal>)
    requires Suffix(q, block) && q != []
    ensures q[0] == block[|block| - |q|] && Suffix(q[1..], block)
  {
  }

  lemma ResponderInv(k: Setting, w: World, found: Result<Discovery>, phase: Phase)
    requires IpLaw(k.x) && Inv(k, w) && Possible(AtResponder(found, phase)) && w.toB != []
    ensures Inv(k, Next(k, w, AtResponder(found, phase)))
  {
    hide OfferBlock, AnswerBlock, ChecksMirrored, HandleOffer, ParseLines;
    var stage :| StageOk(k, w, stage);
    if stage == Offering {
      OfferingStep(k, w, found, phase);
    } else {
      assert w.toB == [w.toB[0]];
      var w' := Next(k, w, AtResponder(found, phase));
      ToldResponder(k, w.b, w.checks, w.toB[0], found, phase);
      assert w'.checks == w.checks && w'.toA == w.toA;
      assert StageOk(k, w', stage);
    }
  }

  /** The responder reads how the initiator's check went. */
  lemma ToldResponder(k: Setting, b: Sessions, checks: seq<Check>, m: Signal, found: Result<Discovery>, phase: Phase)
    requires ResponderSide(k, b, checks, [m])
    ensures Ending(m) && Handle(k.x, b, k.initiator, m, found, phase).1 == []
    ensures CheckStarted(k.x, b, k.initiator, m, found, phase) == []
    ensures ResponderSide(k, Handle(k.x, b, k.initiator, m, found, phase).0, checks, [])
  {
    hide HandleOffer, HandleAnswer, ParseLines;
  }

  lemma OfferingStep(k: Setting, w: World, found: Result<Discovery>, phase: Phase)
    requires IpLaw(k.x) && ChecksMirrored(w.checks) && StageOk(k, w, Offering) && Possible(AtResponder(found, phase))
    ensures Inv(k, Next(k, w, AtResponder(found, phase)))
  {
    hide Inv, Next, ToSdp, Good, ChecksMirrored, ResponderSide, Suffix;
    var n: nat :| OfferBehind(k, w, n);
    if n > 0 {
      EndingStep(k, w, n, found, phase);
    } else {
      assert w.toB[0..] == w.toB;
      OfferHeadStep(k, w, found, phase);
    }
  }

  /** Something of the offer is next. */
  lemma OfferHeadStep(k: Setting, w: World, found: Result<Discovery>, phase: Phase)
    requires IpLaw(k.x) && ChecksMirrored(w.checks) && StageOk(k, w, Offering) && Possible(AtResponder(found, phase))
    requires OfferBehind(k, w, 0) && w.toB != [] && Suffix(w.toB, OfferBlock(k.x, w.a[k.responder].locals))
    ensures Inv(k, Next(k, w, AtResponder(found, phase)))
  {
    hide Inv, Next, ChecksMirrored, OfferBehind, Good;
    SuffixHead(w.toB, OfferBlock(k.x, w.a[k.responder].locals));
    OfferHead(k.x, w.toB, w.a[k.responder].locals);
    hide Suffix, Lines;
    if |w.toB| > 1 {
      EarlyStep(k, w, found, phase);
    } else if found.Ok? {
      OfferStep(k, w, found.value, phase);
    } else {
      FailedOfferStep(k, w, found.error, phase);
    }
  }

  lemma OfferHead(x: IpText, q: seq<Signal>, cs: seq<Candidate>)
    requires Suffix(q, OfferBlock(x, cs)) && q != []
    ensures |q| > 1 ==> q[0].IceLine?
    ensures |q| == 1 ==> q == [Offer(Lines(x, cs))]
  {
    hide ToSdp, Lines;
  }

  /** A message about an earlier session comes before the offer. */
  lemma EndingStep(k: Setting, w: World, n: nat, found: Result<Discovery>, phase: Phase)
    requires ChecksMirrored(w.checks) && StageOk(k, w, Offering) && 0 < n && OfferBehind(k, w, n)
    ensures Inv(k, Next(k, w, AtResponder(found, phase)))
  {
    hide Handle, CheckStarted, OfferBlock, Good, ChecksMirrored, Suffix, Ended;
    var w' := Next(k, w, AtResponder(found, phase));
    assert n == 1 && w.toB[..n] == [w.toB[0]];
    ToldResponder(k, w.b, w.checks, w.toB[0], found, phase);
    assert w'.checks == w.checks && w'.toA == w.toA;
    assert w'.toB[..0] == [] && w'.toB[0..] == w.toB[1..];
    assert OfferBehind(k, w', 0);
    assert StageOk(k, w', Offering);
  }

  /** A trickled candidate comes before the offer: dropped, or added to a session about to be replaced. */
  lemma EarlyStep(k: Setting, w: World, found: Result<Discovery>, phase: Phase)
    requires ChecksMirrored(w.checks) && StageOk(k, w, Offering) && OfferBehind(k, w, 0)
    requires |w.toB| > 1 && w.toB[0].IceLine?
    requires Suffix(w.toB[1..], OfferBlock(k.x, w.a[k.responder].locals))
    ensures Inv(k, Next(k, w, AtResponder(found, phase)))
  {
    hide HandleOffer, HandleAnswer, ParseLines, OfferBlock, Good, ChecksMirrored, Suffix, FromSdp, Ended;
    var w' := Next(k, w, AtResponder(found, phase));
    assert w'.checks == w.checks && w'.toA == w.toA;
    assert w'.toB[..0] == [] && w'.toB[0..] == w'.toB && w.toB[..0] == [];
    assert OfferBehind(k, w', 0);
    assert StageOk(k, w', Offering);
  }

  /** The offer itself arrives, and the responder can gather. */
  lemma OfferStep(k: Setting, w: World, d: Discovery, phase: Phase)
    requires IpLaw(k.x) && ChecksMirrored(w.checks) && DiscoveryOk(d)
    requires k.responder in w.a && OfferOut(w.a[k.responder]) && w.toA == []
    requires w.toB == [Offer(Lines(k.x, w.a[k.responder].locals))]
    ensures Inv(k, Next(k, w, AtResponder(Ok(d), phase)))
  {
    hide AnswerInFlight, ParseLines, Lines, Good, Gathered, HandleOffer, ChecksMirrored, CheckStarted, Faithful, Ended;
    hide Keeps;
    var cs := w.a[k.responder].locals;
    GoodPrintable(cs);
    OfferMeaning(k.x, w.b, k.initiator, cs, d, phase);
    var w' := Next(k, w, AtResponder(Ok(d), phase));
    assert HandleOffer(k.x, w.b, k.initiator, Lines(k.x, cs), Ok(d), phase).1 == w'.toA;
    var check := CheckStarted(k.x, w.b, k.initiator, Offer(Lines(k.x, cs)), Ok(d), phase)[0];
    OneMoreCheck(w.checks, check);
    assert w'.checks == w.checks + [check];
    assert StageOk(k, w', Answering);
  }

  /** The offer arrives, but the responder cannot gather. */
  lemma FailedOfferStep(k: Setting, w: World, error: Error, phase: Phase)
    requires IpLaw(k.x) && ChecksMirrored(w.checks)
    requires k.responder in w.a && OfferOut(w.a[k.responder]) && w.toA == []
    requires w.toB == [Offer(Lines(k.x, w.a[k.responder].locals))]
    ensures Inv(k, Next(k, w, AtResponder(Err(error), phase)))
  {
    hide ParseLines, Lines, Good, ChecksMirrored;
    var w' := Next(k, w, AtResponder(Err(error), phase));
    GoodPrintable(w.a[k.responder].locals);
    LinesRoundTrip(k.x, w.a[k.responder].locals);
    assert w'.checks == w.checks && w'.toA == [];
    assert StageOk(k, w', Unanswered);
  }

  lemma GoodPrintable(cs: seq<Candidate>)
    requires Good(cs)
    ensures Printable(cs) && cs != []
  {
  }

  lemma InitiatorInv(k: Setting, w: World, phase: Phase)
    requires IpLaw(k.x) && Inv(k, w) && w.toA != []
    ensures Inv(k, Next(k, w, AtInitiator(phase)))
  {
    hide OfferBlock, AnswerBlock, ChecksMirrored, HandleAnswer, ParseLines, Good;
    var stage :| StageOk(k, w, stage);
    var w' := Next(k, w, AtInitiator(phase));
    if stage == Answering {
      AnsweringStep(k, w, phase);
    } else {
      assert stage == Over && w.toA == [Ended(w.checks[|w.checks| - 2])];
      assert w'.checks == w.checks && w'.toB == w.toB;
      assert StageOk(k, w', if w.toA[0].Failure? then NoSession else Over);
    }
  }

  lemma AnsweringStep(k: Setting, w: World, phase: Phase)
    requires IpLaw(k.x) && ChecksMirrored(w.checks) && StageOk(k, w, Answering)
    ensures Inv(k, Next(k, w, AtInitiator(phase)))
  {
    hide ChecksMirrored, HandleAnswer, ParseLines, ToSdp, Good;
    var cs, last := w.b[k.initiator].locals, Ended(w.checks[|w.checks| - 1]);
    SuffixHead(w.toA, AnswerBlock(k.x, cs, last));
    if |w.toA| > 2 {
      assert w.toA[0].IceLine?;
      TrickleStep(k, w, phase);
    } else {
      assert w.toA == [Answer(Lines(k.x, cs)), last];
      AnswerStep(k, w, phase);
    }
  }

  /** A trickled candidate arrives: it is appended, to be overwritten by the answer. */
  lemma TrickleStep(k: Setting, w: World, phase: Phase)
    requires ChecksMirrored(w.checks) && StageOk(k, w, Answering) && |w.toA| > 2 && w.toA[0].IceLine?
    requires Suffix(w.toA[1..], AnswerBlock(k.x, w.b[k.initiator].locals, Ended(w.checks[|w.checks| - 1])))
    ensures Inv(k, Next(k, w, AtInitiator(phase)))
  {
    hide ChecksMirrored, AnswerBlock, FromSdp, Good, Suffix;
    var w' := Next(k, w, AtInitiator(phase));
    assert w'.checks == w.checks && w'.toB == w.toB;
    assert StageOk(k, w', Answering);
  }

  lemma AnswerStep(k: Setting, w: World, phase: Phase)
    requires IpLaw(k.x) && ChecksMirrored(w.checks) && StageOk(k, w, Answering)
    requires w.toA == [Answer(Lines(k.x, w.b[k.initiator].locals)), Ended(w.checks[|w.checks| - 1])]
    ensures Inv(k, Next(k, w, AtInitiator(phase)))
  {
    hide AnswerInFlight, ParseLines, Lines, Good, HandleAnswer, ChecksMirrored, CheckStarted, Faithful, Ended, Keeps;
    var w' := Next(k, w, AtInitiator(phase));
    AnswerMeaning(k.x, w.a, k.responder, w.b[k.initiator].locals, phase);
    assert w'.toA == [Ended(w.checks[|w.checks| - 1])];
    var check := CheckStarted(k.x, w.a, k.responder, w.toA[0], Err(Error.Ice), phase)[0];
    OneMoreCheck(w.checks, check);
    assert w'.checks == w.checks + [check];
    assert StageOk(k, w', Over);
  }

  lemma StartInv(k: Setting)
    ensures Inv(k, START)
  {
    assert StageOk(k, START, NoSession);
  }

  lemma NextInv(k: Setting, w: World, ev: Event)
    requires IpLaw(k.x) && Inv(k, w) && Possible(ev)
    ensures Inv(k, Next(k, w, ev))
  {
    hide Inv, InitiateTo, Handle, CheckStarted;
    match ev
    case Begin(found) => BeginInv(k, w, found);
    case AtResponder(found, phase) => if w.toB != [] { ResponderInv(k, w, found, phase); }
    case AtInitiator(phase) => if w.toA != [] { InitiatorInv(k, w, phase); }
  }

  lemma {:induction false} RunInv(k: Setting, w: World, evs: seq<Event>)
    requires IpLaw(k.x) && Inv(k, w) && forall i :: 0 <= i < |evs| ==> Possible(evs[i])
    ensures Inv(k, Run(k, w, evs))
    decreases |evs|
  {
    hide Inv, Next, Possible;
    if evs != [] {
      NextInv(k, w, evs[0]);
      RunInv(k, Next(k, w, evs[0]), evs[1..]);
    }
  }

  // ---------------------------------------------------------------
  // Main results
  // ---------------------------------------------------------------

  /**
   * Signalling. In every run of one initiator, however often it retries, whatever is discovered
   * and however the checks turn out: the initiator starts its checks right after the responder's
   * with exactly the responder's candidates, as the responder started with exactly its own; no
   * candidate is doubled by a trickled one. So both walk mirror-image check lists, and if the
   * checks turn out alike, the addresses one side nominates are those the other nominates, exchanged.
   */
  lemma ChecksAgree(k: Setting, evs: seq<Event>, i: nat)
    requires IpLaw(k.x) && forall j :: 0 <= j < |evs| ==> Possible(evs[j])
    requires i < |Run(k, START, evs).checks| && Run(k, START, evs).checks[i].role == Controlling
    ensures i > 0
    ensures var mine, theirs := Run(k, START, evs).checks[i], Run(k, START, evs).checks[i - 1];
            && theirs.role == Controlled && mine.remotes == theirs.locals && theirs.remotes == mine.locals
            && MirrorAll(CheckList(mine.locals, mine.remotes, Controlling))
                == CheckList(theirs.locals, theirs.remotes, Controlled)
            && (mine.phase == theirs.phase ==>
                  mine.nominatedLocal == theirs.nominatedRemote && mine.nominatedRemote == theirs.nominatedLocal)
  {
    hide Run, CheckList, Elected, Ranked;
    StartInv(k);
    RunInv(k, START, evs);
    var checks := Run(k, START, evs).checks;
    assert MirroredAt(checks, i) && MirroredAt(checks, i - 1);
    MirrorImage(checks[i].locals, checks[i].remotes);
    if checks[i].phase.Probed? {
      SamePairElected(checks[i].locals, checks[i].remotes, checks[i].phase.probe);
    }
  }

  /**
   * When the responder starts its checks, its remote candidates are exactly the initiator's local
   * ones; when the initiator does, its own are exactly the responder's. An answer always finds the
   * initiator waiting for it.
   */
  lemma RemotesAreThePeersLocals(k: Setting, evs: seq<Event>)
    requires IpLaw(k.x) && forall j :: 0 <= j < |evs| ==> Possible(evs[j])
    ensures var w := Run(k, START, evs);
            && (w.toB != [] && w.toB[0].Offer? ==>
                  && k.responder in w.a && w.a[k.responder].state == OfferSent
                  && ParseLines(k.x, w.toB[0].offered) == w.a[k.responder].locals)
            && (w.toA != [] && w.toA[0].Answer? ==>
                  && k.responder in w.a && w.a[k.responder].state == OfferSent && k.initiator in w.b
                  && ParseLines(k.x, w.toA[0].answered) == w.b[k.initiator].locals
                  && w.b[k.initiator].remotes == w.a[k.responder].locals)
  {
    hide Run, ParseLines, ToSdp, Ranked;
    StartInv(k);
    RunInv(k, START, evs);
    var w := Run(k, START, evs);
    var stage :| StageOk(k, w, stage);
    if stage == Offering {
      LinesRoundTrip(k.x, w.a[k.responder].locals);
    } else if stage == Answering {
      LinesRoundTrip(k.x, w.b[k.initiator].locals);
    }
  }

  /** The last check of a role. */
  function LastBy(checks: seq<Check>, role: IceRole): (c: Option<Check>) {
    if checks == [] then None else
      var n := |checks| - 1;
      if checks[n].role == role then Some(checks[n]) else LastBy(checks[..n], role)
  }

  /** Every message in the queue that ends a session tells how this check went. */
  ghost predicate Tells(q: seq<Signal>, c: Option<Check>) {
    forall i :: 0 <= i < |q| && Ending(q[i]) ==> c.Some? && q[i] == Ended(c.value)
  }

  /**
   * What a peer is told. In every run, whatever message ends a session: one on its way to the
   * initiator says Established exactly if the responder's last check nominated addresses, one on its
   * way to the responder exactly if the initiator's did; otherwise it says Failed with that check's
   * reason.
   */
  lemma EndingsTell(k: Setting, evs: seq<Event>)
    requires IpLaw(k.x) && forall j :: 0 <= j < |evs| ==> Possible(evs[j])
    ensures var w := Run(k, START, evs);
            Tells(w.toA, LastBy(w.checks, Controlled)) && Tells(w.toB, LastBy(w.checks, Controlling))
  {
    hide Run, ChecksMirrored, Tells, StageOk;
    StartInv(k);
    RunInv(k, START, evs);
    var w := Run(k, START, evs);
    var stage :| StageOk(k, w, stage);
    InitiatorTold(k, w, stage);
    ResponderTold(k, w, stage);
  }

  lemma InitiatorTold(k: Setting, w: World, stage: Stage)
    requires StageOk(k, w, stage)
    ensures Tells(w.toA, LastBy(w.checks, Controlled))
  {
    hide ToSdp, Lines, Good, ResponderSide, Ended, LastBy;
    LastPair(w.checks);
    if stage == Answering {
      assert forall i :: 0 <= i < |w.toA| - 1 ==> !Ending(w.toA[i]);
    }
  }

  lemma ResponderTold(k: Setting, w: World, stage: Stage)
    requires StageOk(k, w, stage)
    ensures Tells(w.toB, LastBy(w.checks, Controlling))
  {
    hide ResponderSide, Good, AnswerInFlight, LastBy;
    match stage
    case NoSession => PendingTells(k, w.b, w.checks, w.toB);
    case Over => PendingTells(k, w.b, w.checks, w.toB);
    case Offering =>
      hide Tells, OfferBlock, Suffix;
      var n: nat :| OfferBehind(k, w, n);
      PendingTells(k, w.b, w.checks, w.toB[..n]);
      OfferEndsNothing(k.x, w.toB[n..], w.a[k.responder].locals);
      TellsBefore(w.toB, n, LastBy(w.checks, Controlling));
    case Answering =>
    case Unanswered =>
  }

  lemma PendingTells(k: Setting, b: Sessions, checks: seq<Check>, pending: seq<Signal>)
    requires ResponderSide(k, b, checks, pending)
    ensures Tells(pending, LastBy(checks, Controlling))
  {
    hide Ended, LastBy, Keeps;
    LastPair(checks);
  }

  lemma TellsBefore(q: seq<Signal>, n: nat, c: Option<Check>)
    requires n <= |q| && Tells(q[..n], c) && forall i :: 0 <= i < |q[n..]| ==> !Ending(q[n..][i])
    ensures Tells(q, c)
  {
    hide Ended;
    assert forall i :: 0 <= i < n ==> q[i] == q[..n][i];
    assert forall i :: n <= i < |q| ==> q[i] == q[n..][i - n];
  }

  lemma OfferEndsNothing(x: IpText, q: seq<Signal>, cs: seq<Candidate>)
    requires Suffix(q, OfferBlock(x, cs))
    ensures forall i :: 0 <= i < |q| ==> !Ending(q[i])
  {
    hide ToSdp, Lines;
  }

  lemma LastPair(checks: seq<Check>)
    ensures checks != [] ==> LastBy(checks, checks[|checks| - 1].role) == Some(checks[|checks| - 1])
    ensures InPairs(checks) ==> LastBy(checks, Controlled) == Some(checks[|checks| - 2])
  {
    if InPairs(checks) {
      var n := |checks| - 1;
      assert checks[..n][n - 1] == checks[n - 1];
    }
  }

  /**
   * How a run ends. When every message has been read and no offer is left open, the last checks are
   * the responder's and then the initiator's, and each side has kept its session, as its own check
   * left it, exactly if the other side's check worked.
   */
  lemma TablesAtTheEnd(k: Setting, evs: seq<Event>)
    requires IpLaw(k.x) && forall j :: 0 <= j < |evs| ==> Possible(evs[j])
    ensures var w := Run(k, START, evs);
            w.toA == [] && w.toB == [] && w.checks != []
            && (k.responder in w.a ==> w.a[k.responder].state != OfferSent) ==>
              && InPairs(w.checks)
              && var theirs, mine := w.checks[|w.checks| - 2], w.checks[|w.checks| - 1];
              && (Worked(theirs) ==> Keeps(w.a, k.responder, mine)) && (!Worked(theirs) ==> k.responder !in w.a)
              && (Worked(mine) ==> Keeps(w.b, k.initiator, theirs)) && (!Worked(mine) ==> k.initiator !in w.b)
  {
    hide Run, ToSdp, Ranked, ChecksMirrored, Good, Ended;
    StartInv(k);
    RunInv(k, START, evs);
    var w := Run(k, START, evs);
    var stage :| StageOk(k, w, stage);
  }

  /**
   * In particular, if the checks of both sides went alike and worked, both tables hold a connected
   * session, and the addresses one side nominated are those of the other, exchanged.
   */
  lemma ConnectedAtTheEnd(k: Setting, evs: seq<Event>)
    requires IpLaw(k.x) && forall j :: 0 <= j < |evs| ==> Possible(evs[j])
    requires var w := Run(k, START, evs);
             && w.toA == [] && w.toB == [] && InPairs(w.checks)
             && (k.responder in w.a ==> w.a[k.responder].state != OfferSent)
             && w.checks[|w.checks| - 2].phase == w.checks[|w.checks| - 1].phase && Worked(w.checks[|w.checks| - 1])
    ensures var w := Run(k, START, evs);
            && k.responder in w.a && w.a[k.responder].state == Connected
            && k.initiator in w.b && w.b[k.initiator].state == Connected
            && w.a[k.responder].nominatedLocal == w.b[k.initiator].nominatedRemote
            && w.a[k.responder].nominatedRemote == w.b[k.initiator].nominatedLocal
  {
    hide Run, CheckList;
    TablesAtTheEnd(k, evs);
    ChecksAgree(k, evs, |Run(k, START, evs).checks| - 1);
  }
}
