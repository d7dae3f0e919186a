/** The group session: sets of members, a state computed by counting, and a log of state changes. */
module GroupSession {
  import opened Wrappers

  datatype GroupState = Creating | Establishing | Active | Degraded

  datatype GroupEvent =
    | MemberConnected(member: string)
    | MemberDisconnected(member: string)
    | MemberFallbackToRelay(member: string, reason: string)
    | StateChanged(newState: GroupState)

  /** The value of a `GroupSession`; `log` is history: every event it ever emitted. */
  datatype Group = Group(
    state: GroupState,
    expected: set<string>,
    connected: set<string>,
    relay: set<string>,
    sessions: map<string, string>,
    events: seq<GroupEvent>,
    log: seq<GroupEvent>
  )

  // ---------------------------------------------------------------
  // Operations
  // ---------------------------------------------------------------

  function NewGroup(expected: set<string>): (g: Group) {
    Group(Creating, expected, {}, {}, map[], [], [])
  }

  function Emit(g: Group, ev: GroupEvent): (g': Group) {
    g.(events := g.events + [ev], log := g.log + [ev])
  }

  function Transition(g: Group, state: GroupState): (g': Group) {
    if g.state == state then g else Emit(g.(state := state), StateChanged(state))
  }

  /** The state as the code counts it. */
  function CountedState(g: Group): (s: GroupState) {
    if g.expected == {} then Active
    else if |g.connected| == |g.expected| then Active
    else if |g.connected| + |g.relay| == |g.expected| then Degraded
    else Establishing
  }

  function Recalculate(g: Group): (g': Group) {
    Transition(g, CountedState(g))
  }

  function Begin(g: Group): (g': Group) {
    if g.state == Creating then Transition(g, Establishing) else g
  }

  function Connect(g: Group, member: string): (g': Group) {
    if member !in g.expected then g else
      Recalculate(Emit(g.(connected := g.connected + {member}, relay := g.relay - {member}), MemberConnected(member)))
  }

  function Disconnect(g: Group, member: string): (g': Group) {
    if member !in g.connected then g else
      Recalculate(Emit(g.(connected := g.connected - {member}), MemberDisconnected(member)))
  }

  function FallBack(g: Group, member: string, reason: string): (g': Group) {
    if member !in g.expected then g else
      Recalculate(Emit(g.(connected := g.connected - {member}, relay := g.relay + {member}),
                       MemberFallbackToRelay(member, reason)))
  }

  function SetSession(g: Group, member: string, id: string): (g': Group) {
    g.(sessions := g.sessions[member := id])
  }

  function AddExpected(g: Group, member: string): (g': Group) {
    Recalculate(g.(expected := g.expected + {member}))
  }

  function RemoveMember(g: Group, member: string): (g': Group) {
    Recalculate(g.(expected := g.expected - {member}, connected := g.connected - {member}, relay := g.relay - {member},
                   sessions := g.sessions - {member}))
  }

  function Drain(g: Group): (r: (Group, seq<GroupEvent>)) {
    (g.(events := []), g.events)
  }

  class GroupSession {
    var state: GroupState
    var expectedMembers: set<string>
    var connectedMembers: set<string>
    var relayMembers: set<string>
    var memberSessions: map<string, string>
    var events: seq<GroupEvent>
    ghost var log: seq<GroupEvent>

    ghost function Value(): (g: Group)
      reads this
    {
      Group(state, expectedMembers, connectedMembers, relayMembers, memberSessions, events, log)
    }

    constructor (expected: set<string>)
      ensures Value() == NewGroup(expected)
    {
      state, expectedMembers, connectedMembers, relayMembers := Creating, expected, {}, {};
      memberSessions, events, log := map[], [], [];
    }

    method Push(ev: GroupEvent)
      modifies this`events, this`log
      ensures Value() == Emit(old(Value()), ev)
    {
      events := events + [ev];
      log := log + [ev];
    }

    method TransitionTo(newState: GroupState)
      modifies this
      ensures Value() == Transition(old(Value()), newState)
    {
      if state != newState {
        state := newState;
        Push(StateChanged(newState));
      }
    }

    method RecalculateState()
      modifies this
      ensures Value() == Recalculate(old(Value()))
    {
      if expectedMembers == {} {
        TransitionTo(Active);
        return;
      }
      var allAccounted := |connectedMembers| + |relayMembers| == |expectedMembers|;
      var allConnected := |connectedMembers| == |expectedMembers|;
      var newState := if allConnected then Active else if allAccounted then Degraded else Establishing;
      TransitionTo(newState);
    }

    method BeginEstablishing()
      modifies this
      ensures Value() == Begin(old(Value()))
    {
      if state == Creating {
        TransitionTo(Establishing);
      }
    }

    method OnConnected(member: string)
      modifies this
      ensures Value() == Connect(old(Value()), member)
    {
      if member !in expectedMembers {
        return;
      }
      connectedMembers := connectedMembers + {member};
      relayMembers := relayMembers - {member};
      Push(MemberConnected(member));
      RecalculateState();
    }

    method OnDisconnected(member: string)
      modifies this
      ensures Value() == Disconnect(old(Value()), member)
    {
      if member in connectedMembers {
        connectedMembers := connectedMembers - {member};
        Push(MemberDisconnected(member));
        RecalculateState();
      }
    }

    method OnFallback(member: string, reason: string)
      modifies this
      ensures Value() == FallBack(old(Value()), member, reason)
    {
      if member !in expectedMembers {
        return;
      }
      connectedMembers := connectedMembers - {member};
      relayMembers := relayMembers + {member};
      Push(MemberFallbackToRelay(member, reason));
      RecalculateState();
    }

    method SetMemberSession(member: string, id: string)
      modifies this
      ensures Value() == SetSession(old(Value()), member, id)
    {
      memberSessions := memberSessions[member := id];
    }

    method AddExpectedMember(member: string)
      modifies this
      ensures Value() == AddExpected(old(Value()), member)
    {
      expectedMembers := expectedMembers + {member};
      RecalculateState();
    }

    method Remove(member: string)
      modifies this
      ensures Value() == RemoveMember(old(Value()), member)
    {
      expectedMembers := expectedMembers - {member};
      connectedMembers := connectedMembers - {member};
      relayMembers := relayMembers - {member};
      memberSessions := memberSessions - {member};
      RecalculateState();
    }

    method DrainEvents() returns (drained: seq<GroupEvent>)
      modifies this`events
      ensures (Value(), drained) == Drain(old(Value()))
    {
      drained := events;
      events := [];
    }
  }

  // ---------------------------------------------------------------
  // Every sequence of calls
  // ---------------------------------------------------------------

  datatype Call =
    | CallBegin
    | CallConnected(member: string)
    | CallDisconnected(member: string)
    | CallFallback(member: string, reason: string)
    | CallSetSession(member: string, id: string)
    | CallAdd(member: string)
    | CallRemove(member: string)
    | CallDrain

  function Apply(g: Group, call: Call): (g': Group) {
    match call
    case CallBegin => Begin(g)
    case CallConnected(member) => Connect(g, member)
    case CallDisconnected(member) => Disconnect(g, member)
    case CallFallback(member, reason) => FallBack(g, member, reason)
    case CallSetSession(member, id) => SetSession(g, member, id)
    case CallAdd(member) => AddExpected(g, member)
    case CallRemove(member) => RemoveMember(g, member)
    case CallDrain => Drain(g).0
  }

  function ApplyAll(g: Group, calls: seq<Call>): (g': Group)
    decreases |calls|
  {
    if calls == [] then g else ApplyAll(Apply(g, calls[0]), calls[1..])
  }

  ghost predicate SetsOk(g: Group) {
    g.connected !! g.relay && g.connected <= g.expected && g.relay <= g.expected
  }

  /** The state as the sets say. */
  function MeantState(g: Group): (s: GroupState) {
    if g.connected == g.expected then Active
    else if g.connected + g.relay == g.expected then Degraded
    else Establishing
  }

  lemma SameSize<T>(a: set<T>, b: set<T>)
    requires a <= b
    ensures |a| == |b| <==> a == b
  {
    assert |b - a| == |b| - |a|;
    if |a| == |b| {
      assert b - a == {};
    }
  }

  /** Counting is exact: while the sets are in order, the counts are equal exactly if the sets are. */
  lemma CountsMeanSets(g: Group)
    requires SetsOk(g)
    ensures CountedState(g) == MeantState(g)
  {
    SameSize(g.connected, g.expected);
    SameSize(g.connected + g.relay, g.expected);
    assert |g.connected + g.relay| == |g.connected| + |g.relay|;
  }

  /** The states a log reports, in order. */
  function Changes(log: seq<GroupEvent>): (states: seq<GroupState>) {
    if log == [] then [] else
      var last := log[|log| - 1];
      Changes(log[..|log| - 1]) + if last.StateChanged? then [last.newState] else []
  }

  lemma ChangesPush(log: seq<GroupEvent>, ev: GroupEvent)
    ensures Changes(log + [ev]) == Changes(log) + if ev.StateChanged? then [ev.newState] else []
  {
    assert (log + [ev])[..|log|] == log;
  }

  /** With the initial state in front: each differs from the one before, and the last is current. */
  ghost predicate LogOk(g: Group) {
    var states := [Creating] + Changes(g.log);
    AllChange(states) && states[|states| - 1] == g.state
  }

  /** No state is followed by itself. */
  predicate AllChange(states: seq<GroupState>) {
    forall i, j :: 0 <= i < |states| - 1 && j == i + 1 ==> states[i] != states[j]
  }

  /** The two situations in which the state does not follow the sets. */
  ghost predicate Untouched(g: Group) {
    && g.connected == {} && g.relay == {}
    && (g.state == Creating || (g.state == Establishing && g.expected == {}))
  }

  ghost predicate GroupInv(g: Group) {
    SetsOk(g) && LogOk(g) && (g.state == MeantState(g) || Untouched(g))
  }

  lemma EmitLog(g: Group, ev: GroupEvent)
    requires LogOk(g) && !ev.StateChanged?
    ensures LogOk(Emit(g, ev))
  {
    ChangesPush(g.log, ev);
    assert Changes(g.log) + [] == Changes(g.log);
  }

  lemma TransitionLog(g: Group, state: GroupState)
    requires LogOk(g)
    ensures LogOk(Transition(g, state))
  {
    if g.state != state {
      var states := [Creating] + Changes(g.log);
      ChangesPush(g.log, StateChanged(state));
      hide Changes;
      assert [Creating] + (Changes(g.log) + [state]) == states + [state];
      assert AllChange(states + [state]);
    }
  }

  lemma RecalculateInv(g: Group)
    requires SetsOk(g) && LogOk(g)
    ensures GroupInv(Recalculate(g))
  {
    hide LogOk;
    CountsMeanSets(g);
    TransitionLog(g, CountedState(g));
  }

  lemma ApplyInv(g: Group, call: Call)
    requires GroupInv(g)
    ensures GroupInv(Apply(g, call))
  {
    hide Changes, Recalculate;
    match call
    case CallBegin => TransitionLog(g, Establishing);
    case CallConnected(member) =>
      if member in g.expected {
        var g1 := g.(connected := g.connected + {member}, relay := g.relay - {member});
        EmitLog(g1, MemberConnected(member));
        RecalculateInv(Emit(g1, MemberConnected(member)));
      }
    case CallDisconnected(member) =>
      if member in g.connected {
        var g1 := g.(connected := g.connected - {member});
        EmitLog(g1, MemberDisconnected(member));
        RecalculateInv(Emit(g1, MemberDisconnected(member)));
      }
    case CallFallback(member, reason) =>
      if member in g.expected {
        var g1 := g.(connected := g.connected - {member}, relay := g.relay + {member});
        EmitLog(g1, MemberFallbackToRelay(member, reason));
        RecalculateInv(Emit(g1, MemberFallbackToRelay(member, reason)));
      }
    case CallAdd(member) => RecalculateInv(g.(expected := g.expected + {member}));
    case CallRemove(member) =>
      RecalculateInv(g.(expected := g.expected - {member}, connected := g.connected - {member},
                        relay := g.relay - {member}, sessions := g.sessions - {member}));
    case CallSetSession(_, _) =>
    case CallDrain =>
  }

  lemma {:induction false} ApplyAllInv(g: Group, calls: seq<Call>)
    requires GroupInv(g)
    ensures GroupInv(ApplyAll(g, calls))
    decreases |calls|
  {
    hide GroupInv, Apply;
    if calls != [] {
      ApplyInv(g, calls[0]);
      ApplyAllInv(Apply(g, calls[0]), calls[1..]);
    }
  }

  /**
   * Over every sequence of calls: connected and relayed members are disjoint and expected, so the
   * counts mean set equality; the state is what the sets say, except before anything happened or
   * while establishing an empty group; and the reported changes are changes, ending in the current
   * state.
   */
  lemma CountingRefinesSets(expected: set<string>, calls: seq<Call>)
    ensures var g := ApplyAll(NewGroup(expected), calls);
            && SetsOk(g) && CountedState(g) == MeantState(g)
            && (g.state == MeantState(g) || Untouched(g))
            && LogOk(g)
  {
    hide ApplyAll;
    assert [Creating] + Changes([]) == [Creating];
    ApplyAllInv(NewGroup(expected), calls);
    CountsMeanSets(ApplyAll(NewGroup(expected), calls));
  }

  // ---------------------------------------------------------------
  // The simple view: one link per member
  // ---------------------------------------------------------------

  /** How an expected member is reached. */
  datatype Link = Unlinked | Direct | Relayed

  /** What a group means: a link per expected member, the state reported last, and all that was reported. */
  datatype View = View(links: map<string, Link>, state: GroupState, log: seq<GroupEvent>)

  predicate AllDirect(links: map<string, Link>) {
    forall member :: member in links ==> links[member] == Direct
  }

  predicate AllLinked(links: map<string, Link>) {
    forall member :: member in links ==> links[member] != Unlinked
  }

  /** The state of a group with these links. */
  function LinkState(links: map<string, Link>): (s: GroupState) {
    if AllDirect(links) then Active else if AllLinked(links) then Degraded else Establishing
  }

  /** The links after a call. */
  function Relink(links: map<string, Link>, call: Call): (links': map<string, Link>) {
    match call
    case CallConnected(member) => if member in links then links[member := Direct] else links
    case CallDisconnected(member) =>
      if member in links && links[member] == Direct then links[member := Unlinked] else links
    case CallFallback(member, _) => if member in links then links[member := Relayed] else links
    case CallAdd(member) => if member in links then links else links[member := Unlinked]
    case CallRemove(member) => links - {member}
    case _ => links
  }

  /** The event about a member that a call reports, if any. */
  function MemberReport(links: map<string, Link>, call: Call): (evs: seq<GroupEvent>) {
    match call
    case CallConnected(member) => if member in links then [MemberConnected(member)] else []
    case CallDisconnected(member) =>
      if member in links && links[member] == Direct then [MemberDisconnected(member)] else []
    case CallFallback(member, reason) => if member in links then [MemberFallbackToRelay(member, reason)] else []
    case _ => []
  }

  /** The state after a call: beginning leaves `Creating`, and whatever concerns a member settles it anew. */
  function ViewState(v: View, call: Call): (s: GroupState) {
    if call.CallBegin? then (if v.state == Creating then Establishing else v.state)
    else if call.CallAdd? || call.CallRemove? || MemberReport(v.links, call) != [] then LinkState(Relink(v.links, call))
    else v.state
  }

  function ApplyView(v: View, call: Call): (v': View) {
    var state := ViewState(v, call);
    View(Relink(v.links, call), state,
         v.log + MemberReport(v.links, call) + if state == v.state then [] else [StateChanged(state)])
  }

  function ApplyViewAll(v: View, calls: seq<Call>): (v': View)
    decreases |calls|
  {
    if calls == [] then v else ApplyViewAll(ApplyView(v, calls[0]), calls[1..])
  }

  function NewView(expected: set<string>): (v: View) {
    View(map member | member in expected :: Unlinked, Creating, [])
  }

  function LinkedBy(links: map<string, Link>, link: Link): (members: set<string>) {
    set member | member in links && links[member] == link
  }

  /** The group is as the view says. */
  ghost predicate Represents(g: Group, v: View) {
    HasLinks(g, v.links) && g.state == v.state && g.log == v.log
  }

  lemma RepresentedSets(g: Group, links: map<string, Link>)
    requires HasLinks(g, links)
    ensures SetsOk(g) && CountedState(g) == LinkState(links)
  {
    CountsMeanSets(g);
    hide CountedState;
    assert g.connected == g.expected <==> AllDirect(links);
    assert g.connected + g.relay == g.expected <==> AllLinked(links) by {
      if AllLinked(links) {
        assert forall member :: member in links ==> links[member] == Direct || links[member] == Relayed;
      }
    }
  }

  /** One member relinked. */
  lemma Relinked(g: Group, links: map<string, Link>, member: string, link: Link)
    requires HasLinks(g, links)
    ensures var links' := links[member := link];
            && links'.Keys == g.expected + {member}
            && LinkedBy(links', Direct) == (if link == Direct then g.connected + {member} else g.connected - {member})
            && LinkedBy(links', Relayed) == (if link == Relayed then g.relay + {member} else g.relay - {member})
  {
  }

  /** The sets of the group are the links. */
  ghost predicate HasLinks(g: Group, links: map<string, Link>) {
    g.expected == links.Keys && g.connected == LinkedBy(links, Direct) && g.relay == LinkedBy(links, Relayed)
  }

  /** What recalculating leaves, once the sets are right and the member's event is out. */
  lemma Recalculated(g: Group, v: View, call: Call)
    requires HasLinks(g, Relink(v.links, call)) && g.state == v.state && g.log == v.log + MemberReport(v.links, call)
    requires call.CallAdd? || call.CallRemove? || MemberReport(v.links, call) != []
    ensures Represents(Recalculate(g), ApplyView(v, call))
  {
    hide LinkState, LinkedBy, Relink;
    RepresentedSets(g, Relink(v.links, call));
    hide CountedState;
    assert g.log + [] == g.log;
  }

  lemma ApplyRepresents(g: Group, v: View, call: Call)
    requires Represents(g, v)
    ensures Represents(Apply(g, call), ApplyView(v, call))
  {
    hide Recalculate, LinkedBy, LinkState;
    match call
    case CallConnected(member) =>
      Relinked(g, v.links, member, Direct);
      if member in g.expected {
        assert g.expected + {member} == g.expected;
        Recalculated(Emit(g.(connected := g.connected + {member}, relay := g.relay - {member}),
                          MemberConnected(member)), v, call);
      }
    case CallDisconnected(member) =>
      Relinked(g, v.links, member, Unlinked);
      RepresentedMember(g, v, member);
      if member in g.connected {
        assert g.expected + {member} == g.expected && g.relay - {member} == g.relay;
        Recalculated(Emit(g.(connected := g.connected - {member}), MemberDisconnected(member)), v, call);
      }
    case CallFallback(member, reason) =>
      Relinked(g, v.links, member, Relayed);
      if member in g.expected {
        assert g.expected + {member} == g.expected;
        Recalculated(Emit(g.(connected := g.connected - {member}, relay := g.relay + {member}),
                          MemberFallbackToRelay(member, reason)), v, call);
      }
    case CallAdd(member) =>
      Relinked(g, v.links, member, Unlinked);
      RepresentedMember(g, v, member);
      if member in g.expected {
        assert g.expected + {member} == g.expected;
      } else {
        assert g.connected - {member} == g.connected && g.relay - {member} == g.relay;
      }
      Recalculated(g.(expected := g.expected + {member}), v, call);
    case CallRemove(member) =>
      Unlink(g, v.links, member);
      Recalculated(g.(expected := g.expected - {member}, connected := g.connected - {member},
                      relay := g.relay - {member}, sessions := g.sessions - {member}), v, call);
    case CallBegin =>
    case CallSetSession(_, _) =>
    case CallDrain =>
  }

  lemma RepresentedMember(g: Group, v: View, member: string)
    requires Represents(g, v)
    ensures member in g.connected <==> member in v.links && v.links[member] == Direct
    ensures member in g.relay <==> member in v.links && v.links[member] == Relayed
  {
  }

  lemma Unlink(g: Group, links: map<string, Link>, member: string)
    requires HasLinks(g, links)
    ensures var links' := links - {member};
            && links'.Keys == g.expected - {member}
            && LinkedBy(links', Direct) == g.connected - {member} && LinkedBy(links', Relayed) == g.relay - {member}
  {
  }

  lemma {:induction false} ApplyAllRepresents(g: Group, v: View, calls: seq<Call>)
    requires Represents(g, v)
    ensures Represents(ApplyAll(g, calls), ApplyViewAll(v, calls))
    decreases |calls|
  {
    hide Represents, Apply, ApplyView;
    if calls != [] {
      ApplyRepresents(g, v, calls[0]);
      ApplyAllRepresents(Apply(g, calls[0]), ApplyView(v, calls[0]), calls[1..]);
    }
  }

  /**
   * Refinement, over every sequence of calls: the expected, connected and relayed members are exactly
   * those the view of one link per member has so, the state is the view's, and the events emitted are
   * exactly, and in order, those the view reports.
   */
  lemma GroupRefinesView(expected: set<string>, calls: seq<Call>)
    ensures var g, v := ApplyAll(NewGroup(expected), calls), ApplyViewAll(NewView(expected), calls);
            && g.expected == v.links.Keys
            && (forall member :: member in g.connected <==> member in v.links && v.links[member] == Direct)
            && (forall member :: member in g.relay <==> member in v.links && v.links[member] == Relayed)
            && g.state == v.state && g.log == v.log
  {
    hide ApplyAll, ApplyViewAll;
    ApplyAllRepresents(NewGroup(expected), NewView(expected), calls);
  }

  // ---------------------------------------------------------------
  // Session ids and drained events
  // ---------------------------------------------------------------

  /** The id given to a member last, unless it was removed since. */
  function LastId(calls: seq<Call>, member: string): (id: Option<string>) {
    if calls == [] then None else
      var last := calls[|calls| - 1];
      if last.CallSetSession? && last.member == member then Some(last.id)
      else if last.CallRemove? && last.member == member then None
      else LastId(calls[..|calls| - 1], member)
  }

  lemma {:induction false} ApplyAllLast(g: Group, calls: seq<Call>)
    requires calls != []
    ensures var n := |calls| - 1; ApplyAll(g, calls) == Apply(ApplyAll(g, calls[..n]), calls[n])
    decreases |calls|
  {
    hide Apply;
    var n := |calls| - 1;
    if n == 0 {
      assert ApplyAll(Apply(g, calls[0]), calls[1..]) == Apply(g, calls[0]);
    } else {
      ApplyAllLast(Apply(g, calls[0]), calls[1..]);
      assert calls[1..][..n - 1] == calls[..n][1..] && calls[1..][n - 1] == calls[n];
    }
  }

  function IdOf(g: Group, member: string): (id: Option<string>) {
    if member in g.sessions then Some(g.sessions[member]) else None
  }

  lemma ApplyIds(g: Group, call: Call, member: string)
    ensures IdOf(Apply(g, call), member)
         == if call.CallSetSession? && call.member == member then Some(call.id)
            else if call.CallRemove? && call.member == member then None else IdOf(g, member)
  {
    hide CountedState;
  }

  /** Over every sequence of calls a member's session id is the one it was given last. */
  lemma {:induction false} SessionIds(expected: set<string>, calls: seq<Call>, member: string)
    ensures IdOf(ApplyAll(NewGroup(expected), calls), member) == LastId(calls, member)
    decreases |calls|
  {
    if calls != [] {
      hide ApplyAll, Apply, IdOf;
      var n := |calls| - 1;
      SessionIds(expected, calls[..n], member);
      ApplyAllLast(NewGroup(expected), calls);
      ApplyIds(ApplyAll(NewGroup(expected), calls[..n]), calls[n], member);
    } else {
    }
  }

  /** Everything `drain_events` ever returned. */
  function DrainedBy(g: Group, calls: seq<Call>): (evs: seq<GroupEvent>)
    decreases |calls|
  {
    if calls == [] then []
    else (if calls[0].CallDrain? then Drain(g).1 else []) + DrainedBy(Apply(g, calls[0]), calls[1..])
  }

  lemma ApplyEmits(g: Group, call: Call, before: seq<GroupEvent>)
    requires g.log == before + g.events
    ensures Apply(g, call).log == before + (if call.CallDrain? then g.events else []) + Apply(g, call).events
  {
    hide CountedState;
  }

  /** Every event emitted is drained once, in order, or still pending. */
  lemma {:induction false} DrainedOnce(g: Group, calls: seq<Call>, before: seq<GroupEvent>)
    requires g.log == before + g.events
    ensures ApplyAll(g, calls).log == before + DrainedBy(g, calls) + ApplyAll(g, calls).events
    decreases |calls|
  {
    hide Apply;
    if calls != [] {
      ApplyEmits(g, calls[0], before);
      var drained := if calls[0].CallDrain? then Drain(g).1 else [];
      DrainedOnce(Apply(g, calls[0]), calls[1..], before + drained);
      assert before + drained + DrainedBy(Apply(g, calls[0]), calls[1..]) == before + DrainedBy(g, calls);
    }
  }
}
