/** ICE candidates: priorities, the signalling text, and the list `gather` builds. */
module Ice {
  import opened Wrappers
  import opened Bytes
  import opened Text
  import opened Sorting

  datatype CandidateType = Host | ServerReflexive | Relay

  function TypePreference(t: CandidateType): (n: nat) {
    match t
    case Host => 126
    case ServerReflexive => 100
    case Relay => 0
  }

  function TypeName(t: CandidateType): (s: string) {
    match t
    case Host => "host"
    case ServerReflexive => "srflx"
    case Relay => "relay"
  }

  function ParseType(s: string): (r: Option<CandidateType>) {
    if s == "host" then Some(Host)
    else if s == "srflx" then Some(ServerReflexive)
    else if s == "relay" then Some(Relay)
    else None
  }

  /** An IP address by its octets; IPv6 flow and scope ids are zero. */
  datatype Ip = V4(octets: Bytes) | V6(octets: Bytes)
  datatype Address = Address(ip: Ip, port: nat)

  /** Four octets or sixteen. */
  predicate IpOk(ip: Ip) {
    |ip.octets| == if ip.V4? then 4 else 16
  }

  predicate AddressOk(a: Address) {
    IpOk(a.ip) && a.port < U16
  }

  datatype Candidate = Candidate(kind: CandidateType, address: Address, priority: nat, foundation: string,
    component: nat)

  /** `component` and `port` are `u16`, `priority` is `u32`. */
  predicate InRange(c: Candidate) {
    c.component < U16 && c.priority < U32 && AddressOk(c.address)
  }

  // ---------------------------------------------------------------
  // Priorities, section 4.1.2.1 of RFC 5245
  // ---------------------------------------------------------------

  /** In `u32` arithmetic; `256 - component` wraps for a component above 256. */
  function ComputePriority(t: CandidateType, localPreference: nat, component: nat): (p: nat)
    ensures p < U32
  {
    (TypePreference(t) * 0x100_0000 + localPreference * 0x100 + 256 - component) % U32
  }

  function NewCandidate(t: CandidateType, address: Address, localPreference: nat, foundation: string,
                        component: nat): (c: Candidate) {
    Candidate(t, address, ComputePriority(t, localPreference, component), foundation, component)
  }

  /** Better type first, then the higher local preference, then the lower component. */
  predicate Before(t: CandidateType, l: nat, c: nat, t': CandidateType, l': nat, c': nat) {
    || TypePreference(t) > TypePreference(t')
    || (t == t' && (l > l' || (l == l' && c < c')))
  }

  /** For components 1 to 256 the priority is below 2^31 and orders candidates lexicographically. */
  lemma PriorityOrder(t: CandidateType, l: nat, c: nat, t': CandidateType, l': nat, c': nat)
    requires l < U16 && l' < U16 && 1 <= c <= 256 && 1 <= c' <= 256
    ensures ComputePriority(t, l, c) < 0x8000_0000
    ensures ComputePriority(t, l, c) > ComputePriority(t', l', c') <==> Before(t, l, c, t', l', c')
    ensures ComputePriority(t, l, c) == ComputePriority(t', l', c') <==> t == t' && l == l' && c == c'
  {
    var p := TypePreference(t) * 0x100_0000 + l * 0x100 + 256 - c;
    var p' := TypePreference(t') * 0x100_0000 + l' * 0x100 + 256 - c';
    assert ComputePriority(t, l, c) == p && ComputePriority(t', l', c') == p';
  }

  /** A candidate with component c gets the priority of a different one with a component from 1 to 256. */
  ghost predicate Collides(c: nat) {
    exists t: CandidateType, l: nat, t': CandidateType, l': nat, c': nat ::
      && l < U16 && l' < U16 && 1 <= c' <= 256 && (t != t' || l != l' || c != c')
      && ComputePriority(t, l, c) == ComputePriority(t', l', c')
  }

  /**
   * The range is exact: a `u16` component has priorities of its own exactly if it is 1 to 256.
   * Component 0 runs into the next local preference, a component above 256 into a lower one.
   */
  lemma ComponentRange(c: nat)
    requires c < U16
    ensures !Collides(c) <==> 1 <= c <= 256
  {
    if 1 <= c <= 256 {
      forall t: CandidateType, l: nat, t': CandidateType, l': nat, c': nat
        | l < U16 && l' < U16 && 1 <= c' <= 256 && (t != t' || l != l' || c != c')
        ensures ComputePriority(t, l, c) != ComputePriority(t', l', c')
      {
        PriorityOrder(t, l, c, t', l', c');
      }
    } else if c == 0 {
      assert ComputePriority(Host, 0, 0) == ComputePriority(Host, 1, 256);
    } else {
      var l := (c - 1) / 256;
      assert ComputePriority(Host, l, c) == ComputePriority(Host, 0, c - 256 * l);
    }
  }

  /** Above 256 the difference wraps around: the lowest candidate then outranks the highest. */
  lemma ComponentWraps(c: nat)
    requires 256 < c < U16
    ensures ComputePriority(Relay, 0, c) > ComputePriority(Host, 65535, 1)
  {
  }

  // ---------------------------------------------------------------
  // The signalling text
  // ---------------------------------------------------------------

  /** The standard library's text form of IP addresses. */
  datatype IpText = IpText(show: Ip -> string, parse: string -> Option<Ip>)

  /** Parsing undoes printing, and the text has no whitespace. */
  ghost predicate IpLaw(x: IpText) {
    && (forall ip | IpOk(ip) :: IsWord(x.show(ip)) && x.parse(x.show(ip)) == Some(ip))
    && (forall s :: x.parse(s).Some? ==> IpOk(x.parse(s).value))
  }

  function IpFields(c: Candidate, x: IpText): (fields: seq<string>) {
    [c.foundation, Decimal(c.component), "udp", Decimal(c.priority), x.show(c.address.ip), Decimal(c.address.port),
      "typ",
     TypeName(c.kind)]
  }

  /** `to_sdp_string`. */
  function ToSdp(x: IpText, c: Candidate): (line: string) {
    Join(IpFields(c, x))
  }

  /** `from_sdp_string`. */
  function FromSdp(x: IpText, line: string): (r: Result<Candidate>) {
    var parts := SplitWhitespace(line);
    if |parts| != 8 || parts[2] != "udp" || parts[6] != "typ" then Err(Error.Ice) else
      match (ParseUnsigned(parts[1], U16), ParseUnsigned(parts[3], U32), x.parse(parts[4]),
             ParseUnsigned(parts[5], U16), ParseType(parts[7]))
      case (Some(component), Some(priority), Some(ip), Some(port), Some(kind)) =>
        Ok(Candidate(kind, Address(ip, port), priority, parts[0], component))
      case _ => Err(Error.Ice)
  }

  lemma FieldsOfCandidate(x: IpText, c: Candidate)
    requires IpLaw(x) && InRange(c) && IsWord(c.foundation)
    ensures SplitWhitespace(ToSdp(x, c)) == IpFields(c, x)
  {
    hide Decimal, IsSpace;
    DecimalDigits(c.component);
    DecimalDigits(c.priority);
    DecimalDigits(c.address.port);
    KeywordsAreWords(c.kind);
    var fields := IpFields(c, x);
    assert IsWord(fields[4]);
    forall i | 0 <= i < |fields| ensures IsWord(fields[i]) {
    }
    SplitJoined(fields);
  }

  lemma KeywordsAreWords(t: CandidateType)
    ensures IsWord("udp") && IsWord("typ") && IsWord(TypeName(t)) && ParseType(TypeName(t)) == Some(t)
  {
  }

  lemma FieldsParse(x: IpText, c: Candidate)
    requires IpLaw(x) && InRange(c) && IsWord(c.foundation)
    ensures FromSdp(x, ToSdp(x, c)) == Ok(c)
  {
    hide Decimal, ParseUnsigned, ToSdp, IsSpace, TypeName, ParseType, SplitWhitespace;
    FieldsOfCandidate(x, c);
    DecimalRoundTrip(c.component, U16);
    DecimalRoundTrip(c.priority, U32);
    DecimalRoundTrip(c.address.port, U16);
    KeywordsAreWords(c.kind);
  }

  /**
   * The text round trip: parsing a candidate's own line gives the candidate back exactly if its
   * foundation is a word.
   */
  lemma SdpRoundTrip(x: IpText, c: Candidate)
    requires IpLaw(x) && InRange(c)
    ensures FromSdp(x, ToSdp(x, c)) == Ok(c) <==> IsWord(c.foundation)
  {
    hide FromSdp, ToSdp;
    if IsWord(c.foundation) {
      FieldsParse(x, c);
    }
    if FromSdp(x, ToSdp(x, c)) == Ok(c) {
      ParsedFoundation(x, ToSdp(x, c));
    }
  }

  lemma ParsedFoundation(x: IpText, line: string)
    requires FromSdp(x, line).Ok?
    ensures IsWord(FromSdp(x, line).value.foundation)
  {
    FieldsAreWords(line, "");
  }

  /** Whatever line parses, the candidate it yields survives being printed and parsed again. */
  lemma ParsedIsStable(x: IpText, line: string)
    requires IpLaw(x) && FromSdp(x, line).Ok?
    ensures FromSdp(x, ToSdp(x, FromSdp(x, line).value)) == FromSdp(x, line)
  {
    ParsedFoundation(x, line);
    SdpRoundTrip(x, FromSdp(x, line).value);
  }

  // ---------------------------------------------------------------
  // Gathering
  // ---------------------------------------------------------------

  const MAX_PRIORITY: nat := 0x8000_0000
  const COMPONENT_RTP: nat := 1
  const CandidatePriority: Candidate -> nat := (c: Candidate) => c.priority

  /** Priorities below 2^31, no two the same. */
  ghost predicate Ranked(cs: seq<Candidate>) {
    && (forall i :: 0 <= i < |cs| ==> cs[i].priority < MAX_PRIORITY)
    && (forall i, j :: 0 <= i < j < |cs| ==> cs[i].priority != cs[j].priority)
  }

  /** What the sockets yield: the local address, and those the STUN and TURN servers report, if they do. */
  datatype Discovery = Discovery(host: Address, reflexive: Option<Address>, relay: Option<Address>)

  function Optional(t: CandidateType, address: Option<Address>, foundation: string): (cs: seq<Candidate>) {
    if address.None? then [] else [NewCandidate(t, address.value, 65535, foundation, COMPONENT_RTP)]
  }

  function Gathered(d: Discovery): (cs: seq<Candidate>) {
    [NewCandidate(Host, d.host, 65535, "host1", COMPONENT_RTP)]
    + Optional(ServerReflexive, d.reflexive, "srflx1") + Optional(Relay, d.relay, "relay1")
  }

  /** `gather`, after the sockets were queried. Its sort has nothing to do. */
  method Gather(d: Discovery) returns (candidates: seq<Candidate>)
    ensures candidates == Gathered(d)
  {
    hide NewCandidate, SortDesc, Ranked;
    candidates := [NewCandidate(Host, d.host, 65535, "host1", COMPONENT_RTP)];
    if d.reflexive.Some? {
      candidates := candidates + [NewCandidate(ServerReflexive, d.reflexive.value, 65535, "srflx1", COMPONENT_RTP)];
    }
    if d.relay.Some? {
      candidates := candidates + [NewCandidate(Relay, d.relay.value, 65535, "relay1", COMPONENT_RTP)];
    }
    assert candidates == Gathered(d);
    GatheredRanked(d);
    SortSorted(candidates, CandidatePriority);
    candidates := SortDesc(candidates, CandidatePriority);
  }

  /** Candidates whose lines parse back. */
  ghost predicate Printable(cs: seq<Candidate>) {
    forall i :: 0 <= i < |cs| ==> InRange(cs[i]) && IsWord(cs[i].foundation)
  }

  ghost predicate DiscoveryOk(d: Discovery) {
    && AddressOk(d.host) && (d.reflexive.Some? ==> AddressOk(d.reflexive.value))
    && (d.relay.Some? ==> AddressOk(d.relay.value))
  }

  /** The priorities `gather` assigns, highest first. */
  lemma GatheredPriorities()
    ensures ComputePriority(Host, 65535, COMPONENT_RTP) == 0x7EFF_FFFF
    ensures ComputePriority(ServerReflexive, 65535, COMPONENT_RTP) == 0x64FF_FFFF
    ensures ComputePriority(Relay, 65535, COMPONENT_RTP) == 0x00FF_FFFF
  {
  }

  /** Whatever is discovered, the gathered list is strictly sorted with priorities below 2^31, so they are distinct. */
  lemma GatheredRanked(d: Discovery)
    ensures Gathered(d) != [] && Ranked(Gathered(d)) && Descending(Gathered(d), CandidatePriority)
  {
    GatheredPriorities();
    hide ComputePriority;
  }

  /** And its lines parse back. */
  lemma GatheredPrintable(d: Discovery)
    requires DiscoveryOk(d)
    ensures Printable(Gathered(d))
  {
    GatheredPriorities();
    hide ComputePriority, IsSpace;
    assert IsWord("host1") && IsWord("srflx1") && IsWord("relay1") by {
      FoundationsAreWords();
    }
  }

  lemma FoundationsAreWords()
    ensures IsWord("host1") && IsWord("srflx1") && IsWord("relay1")
  {
  }

  /**
   * Exactly what is gathered: one host candidate with the local address; one server-reflexive and one
   * relay candidate exactly if the STUN and the TURN server reported, each with the address its own
   * server reported; all for component 1.
   */
  lemma GatheredAddresses(d: Discovery, c: Candidate)
    ensures c in Gathered(d) ==>
              && c.component == 1
              && (c.kind == Host ==> c.address == d.host && c.foundation == "host1" && c.priority == 0x7EFF_FFFF)
              && (c.kind == ServerReflexive ==>
                    d.reflexive == Some(c.address) && c.foundation == "srflx1" && c.priority == 0x64FF_FFFF)
              && (c.kind == Relay ==>
                    d.relay == Some(c.address) && c.foundation == "relay1" && c.priority == 0x00FF_FFFF)
    ensures |Gathered(d)| == 1 + (if d.reflexive.Some? then 1 else 0) + (if d.relay.Some? then 1 else 0)
    ensures exists h :: h in Gathered(d) && h.kind == Host
    ensures d.reflexive.Some? ==> exists h :: h in Gathered(d) && h.kind == ServerReflexive
    ensures d.relay.Some? ==> exists h :: h in Gathered(d) && h.kind == Relay
  {
    GatheredPriorities();
    hide ComputePriority;
    var cs, n := Gathered(d), |Gathered(d)|;
    assert cs[0].kind == Host && cs[0] in cs;
    assert d.reflexive.Some? ==> cs[1].kind == ServerReflexive && cs[1] in cs;
    assert d.relay.Some? ==> cs[n - 1].kind == Relay && cs[n - 1] in cs;
  }
}
