/** The client's session table: signalling messages in, signalling messages out. */
module Signalling {
  import opened Wrappers
  import opened Text
  import opened Ice
  import opened Connectivity
  import opened Session

  /** The five P2P subcommands with their parameters behind the target. */
  datatype Signal =
    | Offer(offered: seq<string>)
    | Answer(answered: seq<string>)
    | IceLine(line: string)
    | Established
    | Failure(reason: Reason)

  type Sessions = map<string, Peering>

  /** `event_to_message`, without the target. */
  function Message(ev: SessionEvent): (m: Signal) {
    match ev
    case SendOffer(_, lines) => Offer(lines)
    case SendAnswer(_, lines) => Answer(lines)
    case SendIceCandidate(_, line) => IceLine(line)
    case ConnectionEstablished(_, _, _) => Established
    case ConnectionFailed(_, reason) => Failure(reason)
  }

  function Messages(evs: seq<SessionEvent>): (ms: seq<Signal>)
    ensures |ms| == |evs|
  {
    seq(|evs|, i requires 0 <= i < |evs| => Message(evs[i]))
  }

  /** The lines that parse, in order. */
  function ParseLines(x: IpText, lines: seq<string>): (cs: seq<Candidate>) {
    if lines == [] then [] else
      var init, line := lines[..|lines| - 1], lines[|lines| - 1];
      ParseLines(x, init) + (if FromSdp(x, line).Ok? then [FromSdp(x, line).value] else [])
  }

  // ---------------------------------------------------------------
  // Handlers
  // ---------------------------------------------------------------

  function InitiateTo(x: IpText, m: Sessions, target: string, found: Result<Discovery>): (r: (Sessions, seq<Signal>)) {
    if target in m then (m, []) else
      var (s, done) := Initiate(x, NewPeering(target), found);
      if done.Err? then (m, []) else
        var (s', evs) := Drain(s);
        (m[target := s'], Messages(evs))
  }

  function HandleOffer(x: IpText, m: Sessions, sender: string, lines: seq<string>, found: Result<Discovery>,
                       phase: Phase)
    : (r: (Sessions, seq<Signal>))
  {
    var remotes := ParseLines(x, lines);
    if remotes == [] then (m, []) else
      var (s, done) := Respond(x, NewPeering(sender), remotes, found);
      if done.Err? then (m - {sender}, []) else
        var (s', evs) := Drain(RunChecks(s, phase).0);
        (m[sender := s'], Messages(evs))
  }

  function HandleAnswer(x: IpText, m: Sessions, sender: string, lines: seq<string>,
                        phase: Phase): (r: (Sessions, seq<Signal>)) {
    if sender !in m || m[sender].state != OfferSent then (m, []) else
      var (s', evs) := Drain(RunChecks(SetRemotes(m[sender], ParseLines(x, lines)), phase).0);
      (m[sender := s'], Messages(evs))
  }

  function HandleIceLine(x: IpText, m: Sessions, sender: string, line: string): (m': Sessions) {
    if sender in m && FromSdp(x, line).Ok? then m[sender := AddRemote(m[sender], FromSdp(x, line).value)] else m
  }

  function HandleFailed(m: Sessions, sender: string): (m': Sessions) {
    m - {sender}
  }

  /** What the client does with a message from a peer. */
  function Handle(x: IpText, m: Sessions, sender: string, signal: Signal, found: Result<Discovery>, phase: Phase)
    : (r: (Sessions, seq<Signal>))
  {
    match signal
    case Offer(lines) => HandleOffer(x, m, sender, lines, found, phase)
    case Answer(lines) => HandleAnswer(x, m, sender, lines, phase)
    case IceLine(line) => (HandleIceLine(x, m, sender, line), [])
    case Established => (m, [])
    case Failure(_) => (HandleFailed(m, sender), [])
  }

  /** The parser of an offer or answer: a line that does not parse is skipped. */
  method ParseCandidates(x: IpText, lines: seq<string>) returns (cs: seq<Candidate>)
    ensures cs == ParseLines(x, lines)
  {
    cs := [];
    for i := 0 to |lines|
      invariant cs == ParseLines(x, lines[..i])
    {
      assert lines[..i + 1][..i] == lines[..i];
      var parsed := FromSdp(x, lines[i]);
      if parsed.Ok? {
        cs := cs + [parsed.value];
      }
    }
    assert lines[..|lines|] == lines;
  }

  /** `P2pManager`. The table owns its sessions, so they are values. */
  class P2pManager {
    const addresses: IpText
    var sessions: Sessions

    constructor (x: IpText)
      ensures addresses == x && sessions == map[]
    {
      addresses, sessions := x, map[];
    }

    method OnInitiate(target: string, found: Result<Discovery>) returns (out: seq<Signal>)
      modifies this
      ensures (sessions, out) == InitiateTo(addresses, old(sessions), target, found)
    {
      if target in sessions {
        return [];
      }
      var (session, done) := Initiate(addresses, NewPeering(target), found);
      if done.Err? {
        return [];
      }
      var (drained, evs) := Drain(session);
      sessions := sessions[target := drained];
      out := Messages(evs);
    }

    method OnOffer(sender: string, lines: seq<string>, found: Result<Discovery>,
                   phase: Phase) returns (out: seq<Signal>)
      modifies this
      ensures (sessions, out) == HandleOffer(addresses, old(sessions), sender, lines, found, phase)
    {
      hide RunChecks, Respond, ParseLines, Messages, NewPeering;
      var remotes := ParseCandidates(addresses, lines);
      if remotes == [] {
        return [];
      }
      sessions := sessions - {sender};
      var (session, done) := Respond(addresses, NewPeering(sender), remotes, found);
      if done.Err? {
        return [];
      }
      var (drained, evs) := Drain(RunChecks(session, phase).0);
      assert (old(sessions) - {sender})[sender := drained] == old(sessions)[sender := drained];
      sessions := sessions[sender := drained];
      out := Messages(evs);
    }

    method OnAnswer(sender: string, lines: seq<string>, phase: Phase) returns (out: seq<Signal>)
      modifies this
      ensures (sessions, out) == HandleAnswer(addresses, old(sessions), sender, lines, phase)
    {
      if sender !in sessions || sessions[sender].state != OfferSent {
        return [];
      }
      var remotes := ParseCandidates(addresses, lines);
      var (drained, evs) := Drain(RunChecks(SetRemotes(sessions[sender], remotes), phase).0);
      sessions := sessions[sender := drained];
      out := Messages(evs);
    }

    method OnIceLine(sender: string, line: string)
      modifies this
      ensures sessions == HandleIceLine(addresses, old(sessions), sender, line)
    {
      if sender in sessions {
        var parsed := FromSdp(addresses, line);
        if parsed.Ok? {
          sessions := sessions[sender := AddRemote(sessions[sender], parsed.value)];
        }
      }
    }

    method OnFailed(sender: string)
      modifies this
      ensures sessions == HandleFailed(old(sessions), sender)
    {
      sessions := sessions - {sender};
    }
  }

  /** Lines that do not parse are skipped, whatever comes before or after them. */
  lemma {:induction false} ParsedInOrder(x: IpText, before: seq<string>, after: seq<string>)
    ensures ParseLines(x, before + after) == ParseLines(x, before) + ParseLines(x, after)
    ensures |after| == 1 ==>
              ParseLines(x, after) == (if FromSdp(x, after[0]).Ok? then [FromSdp(x, after[0]).value] else [])
    decreases |after|
  {
    hide FromSdp;
    if after == [] {
      assert before + after == before;
    } else {
      var n := |after| - 1;
      assert (before + after)[..|before| + n] == before + after[..n];
      ParsedInOrder(x, before, after[..n]);
      assert |after| == 1 ==> after[..n] == [];
    }
  }

  /** Handling a message, and initiating, concern the session with that peer alone. */
  lemma OthersUntouched(x: IpText, m: Sessions, peer: string, signal: Signal, found: Result<Discovery>, phase: Phase)
    ensures Handle(x, m, peer, signal, found, phase).0 - {peer} == m - {peer}
    ensures InitiateTo(x, m, peer, found).0 - {peer} == m - {peer}
  {
    hide RunChecks, Respond, Initiate, ParseLines, Messages, FromSdp;
  }

  /**
   * What leaves the table as it is and sends nothing: initiating to a peer there is a session with, an
   * offer without a valid candidate, an answer nobody waits for, a candidate line for no session or
   * that does not parse, and the news that a connection is established.
   */
  lemma Ignored(x: IpText, m: Sessions, peer: string, signal: Signal, found: Result<Discovery>, phase: Phase)
    ensures peer in m ==> InitiateTo(x, m, peer, found) == (m, [])
    ensures (signal.Offer? && ParseLines(x, signal.offered) == [])
            || (signal.Answer? && (peer !in m || m[peer].state != OfferSent))
            || (signal.IceLine? && (peer !in m || FromSdp(x, signal.line).Err?))
            || signal.Established? ==>
              Handle(x, m, peer, signal, found, phase) == (m, [])
  {
    hide RunChecks, Respond, Initiate, ParseLines, Messages, FromSdp;
  }

  /** A new offer supersedes the old session, even if it cannot be answered; a failure removes it. */
  lemma Superseded(x: IpText, m: Sessions, peer: string, signal: Signal, found: Result<Discovery>, phase: Phase)
    requires signal.Failure? || (signal.Offer? && ParseLines(x, signal.offered) != [] && found.Err?)
    ensures Handle(x, m, peer, signal, found, phase) == (m - {peer}, [])
  {
    hide RunChecks, ParseLines, Messages, FromSdp;
  }

  /** Each event becomes the message of its kind, with its own lines or reason. */
  lemma MessageKinds(ev: SessionEvent)
    ensures Message(ev).Offer? <==> ev.SendOffer?
    ensures Message(ev).Answer? <==> ev.SendAnswer?
    ensures Message(ev).IceLine? <==> ev.SendIceCandidate?
    ensures Message(ev).Established? <==> ev.ConnectionEstablished?
    ensures Message(ev).Failure? <==> ev.ConnectionFailed?
    ensures Message(ev).Offer? ==> Message(ev).offered == ev.lines
    ensures Message(ev).Answer? ==> Message(ev).answered == ev.lines
    ensures Message(ev).IceLine? ==> Message(ev).line == ev.line
    ensures Message(ev).Failure? ==> Message(ev).reason == ev.reason
  {
  }

  /** A peer reads exactly the candidates the sender listed. */
  lemma {:induction false} LinesRoundTrip(x: IpText, cs: seq<Candidate>)
    requires IpLaw(x) && Printable(cs)
    ensures ParseLines(x, Lines(x, cs)) == cs
  {
    if cs != [] {
      hide FromSdp, ToSdp;
      var init := cs[..|cs| - 1];
      LinesRoundTrip(x, init);
      assert Lines(x, cs)[..|cs| - 1] == Lines(x, init);
      LinesParse(x, cs, |cs| - 1);
      assert cs == init + [cs[|cs| - 1]];
    }
  }
}
