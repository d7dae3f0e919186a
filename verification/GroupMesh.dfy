/** The mesh of P2P connections in a group: two maps and an event log that must agree. */
module GroupMesh {
  import opened Wrappers

  datatype PeerState = Connecting | Connected | RelayFallback | Disconnected

  datatype MeshEvent =
    | MemberConnected(member: string)
    | MemberDisconnected(member: string)
    | MemberDegraded(member: string, reason: string)
    | MeshReady
    | MeshDegraded

  /** A transport is opaque; only which one it is matters. */
  type Transport = nat
  datatype MemberTransport = MemberTransport(transport: Transport, state: PeerState)

  /** The value of a `GroupMesh`; `log` is history: every event it ever emitted. */
  datatype Mesh = Mesh(
    members: map<string, MemberTransport>,
    tracked: map<string, PeerState>,
    events: seq<MeshEvent>,
    log: seq<MeshEvent>
  )

  // ---------------------------------------------------------------
  // Queries
  // ---------------------------------------------------------------

  function StateOf(m: Mesh, member: string): (s: Option<PeerState>) {
    if member in m.members then Some(m.members[member].state)
    else if member in m.tracked then Some(m.tracked[member])
    else None
  }

  predicate Known(m: Mesh, member: string) {
    member in m.members || member in m.tracked
  }

  function ConnectedMembers(m: Mesh): (names: set<string>) {
    set name | name in m.members && m.members[name].state == Connected
  }

  function DegradedMembers(m: Mesh): (names: set<string>) {
    set name | name in m.tracked && m.tracked[name] == RelayFallback
  }

  function MemberCount(m: Mesh): (n: nat) {
    |m.members| + |m.tracked|
  }

  predicate FullyConnected(m: Mesh) {
    m.tracked == map[] && forall name :: name in m.members ==> m.members[name].state == Connected
  }

  predicate Degraded(m: Mesh) {
    exists name :: name in m.tracked && m.tracked[name] == RelayFallback
  }

  // ---------------------------------------------------------------
  // Operations
  // ---------------------------------------------------------------

  function Emit(m: Mesh, ev: MeshEvent): (m': Mesh) {
    m.(events := m.events + [ev], log := m.log + [ev])
  }

  function CheckMeshState(m: Mesh): (m': Mesh) {
    if MemberCount(m) == 0 then m
    else if FullyConnected(m) then Emit(m, MeshReady)
    else if Degraded(m) then Emit(m, MeshDegraded)
    else m
  }

  function AddMember(m: Mesh, member: string): (m': Mesh) {
    if Known(m, member) then m else m.(tracked := m.tracked[member := Connecting])
  }

  function RemoveMember(m: Mesh, member: string): (m': Mesh) {
    var m1 := m.(members := m.members - {member}, tracked := m.tracked - {member});
    if StateOf(m, member) == Some(Connected) && member in m.members
    then CheckMeshState(Emit(m1, MemberDisconnected(member))) else m1
  }

  function Connect(m: Mesh, member: string, transport: Transport): (m': Mesh) {
    if !Known(m, member) then m else
      CheckMeshState(Emit(m.(tracked := m.tracked - {member},
                             members := m.members[member := MemberTransport(transport, Connected)]),
                          MemberConnected(member)))
  }

  function Degrade(m: Mesh, member: string, reason: string): (m': Mesh) {
    if !Known(m, member) then m else
      CheckMeshState(Emit(m.(members := m.members - {member}, tracked := m.tracked[member := RelayFallback]),
                          MemberDegraded(member, reason)))
  }

  function Disconnect(m: Mesh, member: string): (m': Mesh) {
    if !Known(m, member) then m else
      var m1 := m.(members := m.members - {member}, tracked := m.tracked[member := Disconnected]);
      if member in m.members then CheckMeshState(Emit(m1, MemberDisconnected(member))) else m1
  }

  function Drain(m: Mesh): (r: (Mesh, seq<MeshEvent>)) {
    (m.(events := []), m.events)
  }

  class GroupMesh {
    var members: map<string, MemberTransport>
    var trackedMembers: map<string, PeerState>
    var events: seq<MeshEvent>
    ghost var log: seq<MeshEvent>

    ghost function Value(): (m: Mesh)
      reads this
    {
      Mesh(members, trackedMembers, events, log)
    }

    constructor ()
      ensures Value() == Mesh(map[], map[], [], [])
    {
      members, trackedMembers, events, log := map[], map[], [], [];
    }

    method Push(ev: MeshEvent)
      modifies this`events, this`log
      ensures Value() == Emit(old(Value()), ev)
    {
      events := events + [ev];
      log := log + [ev];
    }

    method IsFullyConnected() returns (r: bool)
      ensures r == FullyConnected(Value())
    {
      if |members| == 0 && |trackedMembers| == 0 {
        return true;
      }
      r := |trackedMembers| == 0;
      var names := members.Keys;
      while r && names != {}
        invariant names <= members.Keys
        invariant r ==> trackedMembers == map[]
        invariant r ==> forall name :: name in members && name !in names ==> members[name].state == Connected
        invariant !r ==> !FullyConnected(Value())
        decreases |names|
      {
        var name :| name in names;
        r := members[name].state == Connected;
        names := names - {name};
      }
    }

    method IsDegraded() returns (r: bool)
      ensures r == Degraded(Value())
    {
      r := false;
      var names := trackedMembers.Keys;
      while !r && names != {}
        invariant names <= trackedMembers.Keys
        invariant r ==> Degraded(Value())
        invariant !r ==> forall name :: name in trackedMembers && name !in names ==>
          trackedMembers[name] != RelayFallback
        decreases |names|
      {
        var name :| name in names;
        r := trackedMembers[name] == RelayFallback;
        names := names - {name};
      }
    }

    method UpdateMeshState()
      modifies this`events, this`log
      ensures Value() == CheckMeshState(old(Value()))
    {
      if |members| + |trackedMembers| == 0 {
        return;
      }
      var full := IsFullyConnected();
      var degraded := IsDegraded();
      if full {
        Push(MeshReady);
      } else if degraded {
        Push(MeshDegraded);
      }
    }

    method Add(member: string)
      modifies this
      ensures Value() == AddMember(old(Value()), member)
    {
      if member in members || member in trackedMembers {
        return;
      }
      trackedMembers := trackedMembers[member := Connecting];
    }

    method Remove(member: string)
      modifies this
      ensures Value() == RemoveMember(old(Value()), member)
    {
      var wasConnected := member in members && members[member].state == Connected;
      members, trackedMembers := members - {member}, trackedMembers - {member};
      if wasConnected {
        Push(MemberDisconnected(member));
        UpdateMeshState();
      }
    }

    method OnConnected(member: string, transport: Transport)
      modifies this
      ensures Value() == Connect(old(Value()), member, transport)
    {
      if member !in members && member !in trackedMembers {
        return;
      }
      trackedMembers := trackedMembers - {member};
      members := members[member := MemberTransport(transport, Connected)];
      Push(MemberConnected(member));
      UpdateMeshState();
    }

    method OnDegraded(member: string, reason: string)
      modifies this
      ensures Value() == Degrade(old(Value()), member, reason)
    {
      if member !in members && member !in trackedMembers {
        return;
      }
      members := members - {member};
      trackedMembers := trackedMembers[member := RelayFallback];
      Push(MemberDegraded(member, reason));
      UpdateMeshState();
    }

    method OnDisconnected(member: string)
      modifies this
      ensures Value() == Disconnect(old(Value()), member)
    {
      var wasConnected := member in members;
      if !wasConnected && member !in trackedMembers {
        return;
      }
      members := members - {member};
      trackedMembers := trackedMembers[member := Disconnected];
      if wasConnected {
        Push(MemberDisconnected(member));
        UpdateMeshState();
      }
    }

    method DrainEvents() returns (drained: seq<MeshEvent>)
      modifies this`events
      ensures (Value(), drained) == Drain(old(Value()))
    {
      drained := events;
      events := [];
    }
  }

  // ---------------------------------------------------------------
  // The simple view: one state per member
  // ---------------------------------------------------------------

  type View = map<string, PeerState>

  datatype Call =
    | CallAdd(member: string)
    | CallRemove(member: string)
    | CallConnected(member: string, transport: Transport)
    | CallDegraded(member: string, reason: string)
    | CallDisconnected(member: string)
    | CallDrain

  function Apply(m: Mesh, call: Call): (m': Mesh) {
    match call
    case CallAdd(member) => AddMember(m, member)
    case CallRemove(member) => RemoveMember(m, member)
    case CallConnected(member, transport) => Connect(m, member, transport)
    case CallDegraded(member, reason) => Degrade(m, member, reason)
    case CallDisconnected(member) => Disconnect(m, member)
    case CallDrain => Drain(m).0
  }

  function ApplyAll(m: Mesh, calls: seq<Call>): (m': Mesh)
    decreases |calls|
  {
    if calls == [] then m else ApplyAll(Apply(m, calls[0]), calls[1..])
  }

  /** What a call means for the view: only adding and removing change who is in it. */
  function ApplyView(v: View, call: Call): (v': View) {
    match call
    case CallAdd(member) => if member in v then v else v[member := Connecting]
    case CallRemove(member) => v - {member}
    case CallConnected(member, _) => if member in v then v[member := Connected] else v
    case CallDegraded(member, _) => if member in v then v[member := RelayFallback] else v
    case CallDisconnected(member) => if member in v then v[member := Disconnected] else v
    case CallDrain => v
  }

  function ApplyViewAll(v: View, calls: seq<Call>): (v': View)
    decreases |calls|
  {
    if calls == [] then v else ApplyViewAll(ApplyView(v, calls[0]), calls[1..])
  }

  /** A connected event adds its member, a disconnected or degraded one removes it. */
  function ReplayOne(names: set<string>, ev: MeshEvent): (r: set<string>) {
    if ev.MemberConnected? then names + {ev.member}
    else if ev.MemberDisconnected? || ev.MemberDegraded? then names - {ev.member}
    else names
  }

  /** Who is connected, by the events alone. */
  function Replay(log: seq<MeshEvent>): (names: set<string>) {
    if log == [] then {} else ReplayOne(Replay(log[..|log| - 1]), log[|log| - 1])
  }

  /** The two maps share no member, the first holds only connected ones, and together they are the view. */
  ghost predicate Represents(m: Mesh, v: View) {
    && m.members.Keys !! m.tracked.Keys
    && m.members.Keys + m.tracked.Keys == v.Keys
    && (forall name :: name in m.members ==> m.members[name].state == Connected && v[name] == Connected)
    && (forall name :: name in m.tracked ==> m.tracked[name] != Connected && v[name] == m.tracked[name])
  }

  ghost predicate MeshInv(m: Mesh, v: View) {
    Represents(m, v) && Replay(m.log) == m.members.Keys
  }

  lemma ReplayPush(log: seq<MeshEvent>, ev: MeshEvent)
    ensures Replay(log + [ev]) == ReplayOne(Replay(log), ev)
  {
    assert (log + [ev])[..|log|] == log;
  }

  lemma CheckInv(m: Mesh, v: View)
    requires MeshInv(m, v)
    ensures MeshInv(CheckMeshState(m), v)
  {
    hide Replay, ReplayOne, FullyConnected, Degraded, MemberCount;
    assert ReplayOne(Replay(m.log), MeshReady) == Replay(m.log) == ReplayOne(Replay(m.log), MeshDegraded) by {
      ReplayNeutral(Replay(m.log));
    }
    ReplayPush(m.log, MeshReady);
    ReplayPush(m.log, MeshDegraded);
  }

  lemma ReplayNeutral(names: set<string>)
    ensures ReplayOne(names, MeshReady) == names == ReplayOne(names, MeshDegraded)
  {
  }

  /** A member moves to the map of connected ones. */
  lemma MovedIn(m: Mesh, v: View, member: string, transport: Transport)
    requires Represents(m, v)
    ensures var members := m.members[member := MemberTransport(transport, Connected)];
            Represents(m.(tracked := m.tracked - {member}, members := members), v[member := Connected])
  {
  }

  /** A member moves to the other map. */
  lemma MovedOut(m: Mesh, v: View, member: string, state: PeerState)
    requires Represents(m, v) && state != Connected
    ensures Represents(m.(members := m.members - {member}, tracked := m.tracked[member := state]), v[member := state])
  {
  }

  lemma MovedAway(m: Mesh, v: View, member: string)
    requires Represents(m, v)
    ensures Represents(m.(members := m.members - {member}, tracked := m.tracked - {member}), v - {member})
  {
  }

  lemma ConnectInv(m: Mesh, v: View, member: string, transport: Transport)
    requires MeshInv(m, v) && member in v
    ensures MeshInv(Connect(m, member, transport), v[member := Connected])
  {
    hide CheckMeshState, Replay;
    var members := m.members[member := MemberTransport(transport, Connected)];
    var m1 := m.(tracked := m.tracked - {member}, members := members);
    MovedIn(m, v, member, transport);
    ReplayPush(m.log, MemberConnected(member));
    CheckInv(Emit(m1, MemberConnected(member)), v[member := Connected]);
  }

  lemma DegradeInv(m: Mesh, v: View, member: string, reason: string)
    requires MeshInv(m, v) && member in v
    ensures MeshInv(Degrade(m, member, reason), v[member := RelayFallback])
  {
    hide CheckMeshState, Replay;
    var m1 := m.(members := m.members - {member}, tracked := m.tracked[member := RelayFallback]);
    MovedOut(m, v, member, RelayFallback);
    ReplayPush(m.log, MemberDegraded(member, reason));
    CheckInv(Emit(m1, MemberDegraded(member, reason)), v[member := RelayFallback]);
  }

  lemma DisconnectInv(m: Mesh, v: View, member: string)
    requires MeshInv(m, v) && member in v
    ensures MeshInv(Disconnect(m, member), v[member := Disconnected])
  {
    hide CheckMeshState, Replay;
    var m1 := m.(members := m.members - {member}, tracked := m.tracked[member := Disconnected]);
    MovedOut(m, v, member, Disconnected);
    if member in m.members {
      ReplayPush(m.log, MemberDisconnected(member));
      CheckInv(Emit(m1, MemberDisconnected(member)), v[member := Disconnected]);
    }
  }

  lemma RemoveInv(m: Mesh, v: View, member: string)
    requires MeshInv(m, v)
    ensures MeshInv(RemoveMember(m, member), v - {member})
  {
    hide CheckMeshState, Replay;
    var m1 := m.(members := m.members - {member}, tracked := m.tracked - {member});
    MovedAway(m, v, member);
    if member in m.members {
      ReplayPush(m.log, MemberDisconnected(member));
      CheckInv(Emit(m1, MemberDisconnected(member)), v - {member});
    }
  }

  lemma ApplyInv(m: Mesh, v: View, call: Call)
    requires MeshInv(m, v)
    ensures MeshInv(Apply(m, call), ApplyView(v, call))
  {
    hide CheckMeshState, Replay;
    if call.CallRemove? {
      RemoveInv(m, v, call.member);
    } else if call.CallConnected? && call.member in v {
      ConnectInv(m, v, call.member, call.transport);
    } else if call.CallDegraded? && call.member in v {
      DegradeInv(m, v, call.member, call.reason);
    } else if call.CallDisconnected? && call.member in v {
      DisconnectInv(m, v, call.member);
    }
  }

  lemma {:induction false} ApplyAllInv(m: Mesh, v: View, calls: seq<Call>)
    requires MeshInv(m, v)
    ensures MeshInv(ApplyAll(m, calls), ApplyViewAll(v, calls))
    decreases |calls|
  {
    hide MeshInv, Apply, ApplyView;
    if calls != [] {
      ApplyInv(m, v, calls[0]);
      ApplyAllInv(Apply(m, calls[0]), ApplyView(v, calls[0]), calls[1..]);
    }
  }

  const EMPTY: Mesh := Mesh(map[], map[], [], [])

  /**
   * Event replay and refinement, over every sequence of calls with drains anywhere: folding the
   * whole event history gives exactly the connected members, and every query answers as the simple
   * one-state-per-member view would.
   */
  lemma MeshRefinesView(calls: seq<Call>)
    ensures var m, v := ApplyAll(EMPTY, calls), ApplyViewAll(map[], calls);
            && Replay(m.log) == ConnectedMembers(m)
            && ConnectedMembers(m) == (set name | name in v && v[name] == Connected)
            && DegradedMembers(m) == (set name | name in v && v[name] == RelayFallback)
            && (forall name :: StateOf(m, name) == if name in v then Some(v[name]) else None)
            && m.members.Keys !! m.tracked.Keys
            && MemberCount(m) == |v|
            && (FullyConnected(m) <==> forall name :: name in v ==> v[name] == Connected)
            && (Degraded(m) <==> exists name :: name in v && v[name] == RelayFallback)
  {
    hide ApplyAll, ApplyViewAll, ConnectedMembers, DegradedMembers, StateOf, MemberCount, FullyConnected, Degraded;
    var m, v := ApplyAll(EMPTY, calls), ApplyViewAll(map[], calls);
    assert MeshInv(EMPTY, map[]);
    hide Replay;
    ApplyAllInv(EMPTY, map[], calls);
    QueriesAgree(m, v);
    CountsAgree(m, v);
    VerdictsAgree(m, v);
    DisjointMaps(m, v);
    hide Represents;
  }

  lemma DisjointMaps(m: Mesh, v: View)
    requires Represents(m, v)
    ensures m.members.Keys !! m.tracked.Keys
  {
  }

  lemma QueriesAgree(m: Mesh, v: View)
    requires Represents(m, v)
    ensures ConnectedMembers(m) == m.members.Keys == (set name | name in v && v[name] == Connected)
    ensures DegradedMembers(m) == (set name | name in v && v[name] == RelayFallback)
    ensures forall name :: StateOf(m, name) == if name in v then Some(v[name]) else None
  {
    assert forall name :: name in v ==> name in m.members.Keys + m.tracked.Keys;
  }

  lemma CountsAgree(m: Mesh, v: View)
    requires Represents(m, v)
    ensures MemberCount(m) == |v|
  {
    assert |m.members.Keys + m.tracked.Keys| == |m.members.Keys| + |m.tracked.Keys|;
    assert |v.Keys| == |v|;
  }

  lemma VerdictsAgree(m: Mesh, v: View)
    requires Represents(m, v)
    ensures FullyConnected(m) <==> forall name :: name in v ==> v[name] == Connected
    ensures Degraded(m) <==> exists name :: name in v && v[name] == RelayFallback
  {
    assert forall name :: name in v ==> name in m.members.Keys + m.tracked.Keys;
    if m.tracked != map[] {
      var name :| name in m.tracked;
      assert v[name] != Connected;
    }
  }

  // ---------------------------------------------------------------
  // Exactly what is reported
  // ---------------------------------------------------------------

  /** What the mesh as a whole reports. */
  function Verdict(v: View): (evs: seq<MeshEvent>) {
    if v == map[] then []
    else if forall name :: name in v ==> v[name] == Connected then [MeshReady]
    else if exists name :: name in v && v[name] == RelayFallback then [MeshDegraded]
    else []
  }

  /** What a call reports: the change of a member, then the verdict on the mesh as it is after it. */
  function Reports(v: View, call: Call): (evs: seq<MeshEvent>) {
    var after := Verdict(ApplyView(v, call));
    match call
    case CallConnected(member, _) => if member in v then [MemberConnected(member)] + after else []
    case CallDegraded(member, reason) => if member in v then [MemberDegraded(member, reason)] + after else []
    case CallDisconnected(member) =>
      if member in v && v[member] == Connected then [MemberDisconnected(member)] + after else []
    case CallRemove(member) =>
      if member in v && v[member] == Connected then [MemberDisconnected(member)] + after else []
    case _ => []
  }

  function ReportsAll(v: View, calls: seq<Call>): (evs: seq<MeshEvent>)
    decreases |calls|
  {
    if calls == [] then [] else Reports(v, calls[0]) + ReportsAll(ApplyView(v, calls[0]), calls[1..])
  }

  lemma CheckReports(m: Mesh, v: View)
    requires Represents(m, v)
    ensures CheckMeshState(m).log == m.log + Verdict(v)
  {
    hide FullyConnected, Degraded, MemberCount, Represents;
    CountsAgree(m, v);
    VerdictsAgree(m, v);
  }

  /** What the view says of a member, in terms of the maps. */
  lemma KnownAs(m: Mesh, v: View, member: string)
    requires Represents(m, v)
    ensures Known(m, member) <==> member in v
    ensures member in m.members <==> member in v && v[member] == Connected
    ensures member in m.members ==> StateOf(m, member) == Some(Connected)
  {
    assert member in m.members.Keys + m.tracked.Keys <==> member in v.Keys;
  }

  lemma EmitRepresents(m: Mesh, v: View, ev: MeshEvent)
    requires Represents(m, v)
    ensures Represents(Emit(m, ev), v)
  {
  }

  /** One event, then the verdict. */
  lemma EventThenVerdict(m: Mesh, m1: Mesh, v: View, ev: MeshEvent)
    requires Represents(m1, v) && m1.log == m.log
    ensures CheckMeshState(Emit(m1, ev)).log == m.log + ([ev] + Verdict(v))
  {
    hide CheckMeshState, Verdict, Represents;
    EmitRepresents(m1, v, ev);
    CheckReports(Emit(m1, ev), v);
    assert m.log + [ev] + Verdict(v) == m.log + ([ev] + Verdict(v));
  }

  lemma ConnectReports(m: Mesh, v: View, member: string, transport: Transport)
    requires Represents(m, v) && member in v
    ensures Connect(m, member, transport).log == m.log + ([MemberConnected(member)] + Verdict(v[member := Connected]))
  {
    hide CheckMeshState, Verdict, Represents, Known;
    KnownAs(m, v, member);
    MovedIn(m, v, member, transport);
    var m1 := m.(tracked := m.tracked - {member},
                 members := m.members[member := MemberTransport(transport, Connected)]);
    EventThenVerdict(m, m1, v[member := Connected], MemberConnected(member));
  }

  lemma DegradeReports(m: Mesh, v: View, member: string, reason: string)
    requires Represents(m, v) && member in v
    ensures Degrade(m, member, reason).log
         == m.log + ([MemberDegraded(member, reason)] + Verdict(v[member := RelayFallback]))
  {
    hide CheckMeshState, Verdict, Represents, Known;
    KnownAs(m, v, member);
    MovedOut(m, v, member, RelayFallback);
    var m1 := m.(members := m.members - {member}, tracked := m.tracked[member := RelayFallback]);
    EventThenVerdict(m, m1, v[member := RelayFallback], MemberDegraded(member, reason));
  }

  lemma DisconnectReports(m: Mesh, v: View, member: string)
    requires Represents(m, v) && member in v
    ensures Disconnect(m, member).log
         == m.log + if v[member] == Connected
                    then [MemberDisconnected(member)] + Verdict(v[member := Disconnected]) else []
  {
    hide CheckMeshState, Verdict, Represents, Known;
    KnownAs(m, v, member);
    MovedOut(m, v, member, Disconnected);
    var m1 := m.(members := m.members - {member}, tracked := m.tracked[member := Disconnected]);
    EventThenVerdict(m, m1, v[member := Disconnected], MemberDisconnected(member));
    assert m.log + [] == m.log;
  }

  lemma RemoveReports(m: Mesh, v: View, member: string)
    requires Represents(m, v)
    ensures RemoveMember(m, member).log
         == m.log + if member in v && v[member] == Connected
                    then [MemberDisconnected(member)] + Verdict(v - {member}) else []
  {
    hide CheckMeshState, Verdict, Represents, Known, StateOf;
    KnownAs(m, v, member);
    MovedAway(m, v, member);
    var m1 := m.(members := m.members - {member}, tracked := m.tracked - {member});
    EventThenVerdict(m, m1, v - {member}, MemberDisconnected(member));
    assert m.log + [] == m.log;
  }

  lemma UnknownReports(m: Mesh, call: Call)
    requires !call.CallDrain?
    ensures !Known(m, call.member) && !call.CallRemove? ==> Apply(m, call).log == m.log
    ensures call.CallAdd? ==> Apply(m, call).log == m.log
  {
    hide CheckMeshState;
  }

  lemma ApplyReports(m: Mesh, v: View, call: Call)
    requires Represents(m, v)
    ensures Apply(m, call).log == m.log + Reports(v, call)
  {
    hide CheckMeshState, Verdict, Represents, Connect, Degrade, Disconnect, RemoveMember, Known;
    if !call.CallDrain? {
      KnownAs(m, v, call.member);
      UnknownReports(m, call);
    }
    assert m.log + [] == m.log;
    if call.CallRemove? {
      RemoveReports(m, v, call.member);
    } else if call.CallConnected? && call.member in v {
      ConnectReports(m, v, call.member, call.transport);
    } else if call.CallDegraded? && call.member in v {
      DegradeReports(m, v, call.member, call.reason);
    } else if call.CallDisconnected? && call.member in v {
      DisconnectReports(m, v, call.member);
    }
  }

  lemma {:induction false} ApplyAllReports(m: Mesh, v: View, calls: seq<Call>)
    requires MeshInv(m, v)
    ensures ApplyAll(m, calls).log == m.log + ReportsAll(v, calls)
    decreases |calls|
  {
    hide Replay, Apply, ApplyView, Reports, Represents;
    if calls != [] {
      ApplyReports(m, v, calls[0]);
      ApplyInv(m, v, calls[0]);
      ApplyAllReports(Apply(m, calls[0]), ApplyView(v, calls[0]), calls[1..]);
    }
  }

  /**
   * Over every sequence of calls the events are exactly, and in order, what the view reports: each
   * change of a member, followed by MeshReady if everybody is then connected, else by MeshDegraded
   * if somebody is on relay.
   */
  lemma MeshReports(calls: seq<Call>)
    ensures ApplyAll(EMPTY, calls).log == ReportsAll(map[], calls)
  {
    hide ApplyAll, ReportsAll;
    ApplyAllReports(EMPTY, map[], calls);
    assert [] + ReportsAll(map[], calls) == ReportsAll(map[], calls);
  }

  // ---------------------------------------------------------------
  // Transports and drained events
  // ---------------------------------------------------------------

  /** The transport reported last. */
  function LastTransport(calls: seq<Call>, member: string): (t: Option<Transport>) {
    if calls == [] then None else
      var last := calls[|calls| - 1];
      if last.CallConnected? && last.member == member then Some(last.transport)
      else LastTransport(calls[..|calls| - 1], member)
  }

  lemma {:induction false} ApplyAllLast(m: Mesh, calls: seq<Call>)
    requires calls != []
    ensures var n := |calls| - 1; ApplyAll(m, calls) == Apply(ApplyAll(m, calls[..n]), calls[n])
    decreases |calls|
  {
    hide Apply;
    var n := |calls| - 1;
    if n == 0 {
      assert ApplyAll(Apply(m, calls[0]), calls[1..]) == Apply(m, calls[0]);
    } else {
      ApplyAllLast(Apply(m, calls[0]), calls[1..]);
      assert calls[1..][..n - 1] == calls[..n][1..] && calls[1..][n - 1] == calls[n];
    }
  }

  lemma ApplyTransport(m: Mesh, call: Call, member: string)
    requires member in Apply(m, call).members
    ensures if call.CallConnected? && call.member == member
            then Apply(m, call).members[member].transport == call.transport || Apply(m, call) == m
            else member in m.members && Apply(m, call).members[member] == m.members[member]
    ensures Apply(m, call) == m ==> member in m.members
  {
    hide FullyConnected, Degraded, MemberCount;
  }

  /** A connected member is reached through the transport reported last. */
  lemma {:induction false} TransportsAreLast(calls: seq<Call>, member: string)
    ensures var m := ApplyAll(EMPTY, calls);
            member in m.members ==> LastTransport(calls, member) == Some(m.members[member].transport)
    decreases |calls|
  {
    if calls != [] {
      hide ApplyAll, Apply;
      var n := |calls| - 1;
      var m := ApplyAll(EMPTY, calls[..n]);
      TransportsAreLast(calls[..n], member);
      ApplyAllLast(EMPTY, calls);
      if member in Apply(m, calls[n]).members {
        ApplyTransport(m, calls[n], member);
      }
    } else {
    }
  }

  /** Everything `drain_events` ever returned. */
  function DrainedBy(m: Mesh, calls: seq<Call>): (evs: seq<MeshEvent>)
    decreases |calls|
  {
    if calls == [] then []
    else (if calls[0].CallDrain? then Drain(m).1 else []) + DrainedBy(Apply(m, calls[0]), calls[1..])
  }

  lemma ApplyEmits(m: Mesh, call: Call, before: seq<MeshEvent>)
    requires m.log == before + m.events
    ensures Apply(m, call).log == before + (if call.CallDrain? then m.events else []) + Apply(m, call).events
  {
    hide FullyConnected, Degraded, MemberCount;
  }

  /** Every event emitted is drained once, in order, or still pending. */
  lemma {:induction false} DrainedOnce(m: Mesh, calls: seq<Call>, before: seq<MeshEvent>)
    requires m.log == before + m.events
    ensures ApplyAll(m, calls).log == before + DrainedBy(m, calls) + ApplyAll(m, calls).events
    decreases |calls|
  {
    hide Apply;
    if calls != [] {
      ApplyEmits(m, calls[0], before);
      var drained := if calls[0].CallDrain? then Drain(m).1 else [];
      DrainedOnce(Apply(m, calls[0]), calls[1..], before + drained);
      assert before + drained + DrainedBy(Apply(m, calls[0]), calls[1..]) == before + DrainedBy(m, calls);
    }
  }
}
