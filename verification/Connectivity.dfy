/** Candidate pairs, the check list and the nominated pair. */
module Connectivity {
  import opened Wrappers
  import opened Bytes
  import opened Sorting
  import opened Ice

  datatype IceRole = Controlling | Controlled
  datatype PairState = Waiting | InProgress | Succeeded | Failed
  datatype Pair = Pair(local: Candidate, remote: Candidate, state: PairState, priority: nat)

  // ---------------------------------------------------------------
  // Pair priorities, section 5.7.2 of RFC 5245
  // ---------------------------------------------------------------

  function Min(a: nat, b: nat): (r: nat) {
    if a < b then a else b
  }

  function Max(a: nat, b: nat): (r: nat) {
    if a < b then b else a
  }

  /** The controlling side's priority G and the controlled side's D. */
  function Sides(local: nat, remote: nat, role: IceRole): (gd: (nat, nat)) {
    if role == Controlling then (local, remote) else (remote, local)
  }

  /** The part of a pair priority below 2^33: the larger priority and the tie bit. */
  function LowPart(g: nat, d: nat): (n: nat) {
    2 * Max(g, d) + (if g > d then 1 else 0)
  }

  /** In `u64` arithmetic. */
  function PairPriority(local: nat, remote: nat, role: IceRole): (p: nat) {
    var (g, d) := Sides(local, remote, role);
    (U32 * Min(g, d) + LowPart(g, d)) % U64
  }

  /** The arithmetic overflows for no pair of `u32` priorities but the two largest. */
  lemma PairPriorityFits(g: nat, d: nat)
    requires g < U32 && d < U32
    ensures PairPriority(g, d, Controlling) == U32 * Min(g, d) + LowPart(g, d) <==> !(g == U32 - 1 && d == U32 - 1)
  {
  }

  /** Lexicographic in (min, max, G > D) for priorities below 2^31. */
  lemma PairPriorityOrder(g: nat, d: nat, g': nat, d': nat)
    requires g < MAX_PRIORITY && d < MAX_PRIORITY && g' < MAX_PRIORITY && d' < MAX_PRIORITY
    ensures PairPriority(g, d, Controlling) > PairPriority(g', d', Controlling) <==>
              || Min(g, d) > Min(g', d')
              || (Min(g, d) == Min(g', d') && Max(g, d) > Max(g', d'))
              || (Min(g, d) == Min(g', d') && Max(g, d) == Max(g', d') && g > d && g' <= d')
    ensures PairPriority(g, d, Controlling) == PairPriority(g', d', Controlling) <==> g == g' && d == d'
  {
    PairPriorityFits(g, d);
    PairPriorityFits(g', d');
    hide PairPriority;
  }

  /** The smaller priority is one higher and the low part one 2^32 lower. */
  predicate Carries(g: nat, d: nat, g': nat, d': nat) {
    Min(g', d') == Min(g, d) + 1 && LowPart(g, d) == LowPart(g', d') + U32
  }

  /**
   * Exactly when two different pairs of `u32` priorities, neither of them the overflowing one,
   * have one priority; it takes a priority of 2^31 or more.
   */
  lemma PairPriorityCollides(g: nat, d: nat, g': nat, d': nat)
    requires g < U32 && d < U32 && g' < U32 && d' < U32
    requires !(g == U32 - 1 && d == U32 - 1) && !(g' == U32 - 1 && d' == U32 - 1)
    ensures PairPriority(g, d, Controlling) == PairPriority(g', d', Controlling) <==>
              (g == g' && d == d') || Carries(g, d, g', d') || Carries(g', d', g, d)
    ensures Carries(g, d, g', d') ==> Max(g, d) >= MAX_PRIORITY
  {
    PairPriorityFits(g, d);
    PairPriorityFits(g', d');
    assert LowPart(g, d) == LowPart(g', d') && Min(g, d) == Min(g', d') ==> g == g' && d == d';
  }

  /** The overflowing pair has the priority of the pair (2^31 - 1, 0) of the lowest rank. */
  lemma OverflowingPair()
    ensures PairPriority(U32 - 1, U32 - 1, Controlling) == PairPriority(0, MAX_PRIORITY - 1, Controlling)
  {
  }

  // ---------------------------------------------------------------
  // The check list
  // ---------------------------------------------------------------

  function NewPair(local: Candidate, remote: Candidate, role: IceRole): (p: Pair) {
    Pair(local, remote, Waiting, PairPriority(local.priority, remote.priority, role))
  }

  /** One local candidate with every remote one. */
  function Row(local: Candidate, remotes: seq<Candidate>, role: IceRole): (ps: seq<Pair>) {
    if remotes == [] then [] else
      var last := |remotes| - 1;
      Row(local, remotes[..last], role) + [NewPair(local, remotes[last], role)]
  }

  /** Every local candidate with every remote one, in the order of the two loops. */
  function Mesh(locals: seq<Candidate>, remotes: seq<Candidate>, role: IceRole): (ps: seq<Pair>) {
    if locals == [] then [] else
      var last := |locals| - 1;
      Mesh(locals[..last], remotes, role) + Row(locals[last], remotes, role)
  }

  const PriorityOf: Pair -> nat := (p: Pair) => p.priority

  function CheckList(locals: seq<Candidate>, remotes: seq<Candidate>, role: IceRole): (ps: seq<Pair>) {
    SortDesc(Mesh(locals, remotes, role), PriorityOf)
  }

  /** `form_pairs`. */
  method FormPairs(locals: seq<Candidate>, remotes: seq<Candidate>, role: IceRole) returns (pairs: seq<Pair>)
    ensures pairs == CheckList(locals, remotes, role)
  {
    pairs := [];
    for i := 0 to |locals|
      invariant pairs == Mesh(locals[..i], remotes, role)
    {
      ghost var before := pairs;
      assert locals[..i + 1][..i] == locals[..i];
      for j := 0 to |remotes|
        invariant pairs == before + Row(locals[i], remotes[..j], role)
      {
        assert remotes[..j + 1][..j] == remotes[..j];
        pairs := pairs + [NewPair(locals[i], remotes[j], role)];
        assert pairs == before + (Row(locals[i], remotes[..j], role) + [NewPair(locals[i], remotes[j], role)]);
      }
      assert remotes[..|remotes|] == remotes;
    }
    assert locals[..|locals|] == locals;
    pairs := SortDesc(pairs, PriorityOf);
  }

  /** Every pair was formed once from the two lists. */
  lemma {:induction false} RowElements(local: Candidate, remotes: seq<Candidate>, role: IceRole, p: Pair)
    ensures p in Row(local, remotes, role) <==> p.remote in remotes && p == NewPair(local, p.remote, role)
  {
    if remotes != [] {
      var last := |remotes| - 1;
      RowElements(local, remotes[..last], role, p);
      assert remotes == remotes[..last] + [remotes[last]];
    }
  }

  lemma {:induction false} MeshElements(locals: seq<Candidate>, remotes: seq<Candidate>, role: IceRole, p: Pair)
    ensures p in Mesh(locals, remotes, role) <==>
              p.local in locals && p.remote in remotes && p == NewPair(p.local, p.remote, role)
  {
    if locals != [] {
      var last := |locals| - 1;
      MeshElements(locals[..last], remotes, role, p);
      RowElements(locals[last], remotes, role, p);
      assert locals == locals[..last] + [locals[last]];
    }
  }

  /** The check list is the full mesh, by descending priority. */
  lemma CheckListMeaning(locals: seq<Candidate>, remotes: seq<Candidate>, role: IceRole)
    ensures forall p :: p in CheckList(locals, remotes, role) <==>
              p.local in locals && p.remote in remotes && p == NewPair(p.local, p.remote, role)
    ensures |CheckList(locals, remotes, role)| == |locals| * |remotes|
    ensures Descending(CheckList(locals, remotes, role), PriorityOf)
  {
    forall p
      ensures p in CheckList(locals, remotes, role) <==>
                p.local in locals && p.remote in remotes && p == NewPair(p.local, p.remote, role)
    {
      MeshElements(locals, remotes, role, p);
      SameElements(CheckList(locals, remotes, role), Mesh(locals, remotes, role), p);
    }
    MeshSize(locals, remotes, role);
    SortDescending(Mesh(locals, remotes, role), PriorityOf);
  }

  lemma {:induction false} RowSize(local: Candidate, remotes: seq<Candidate>, role: IceRole)
    ensures |Row(local, remotes, role)| == |remotes|
  {
    if remotes != [] {
      RowSize(local, remotes[..|remotes| - 1], role);
    }
  }

  lemma {:induction false} MeshSize(locals: seq<Candidate>, remotes: seq<Candidate>, role: IceRole)
    ensures |Mesh(locals, remotes, role)| == |locals| * |remotes|
  {
    if locals != [] {
      var init, last := locals[..|locals| - 1], locals[|locals| - 1];
      hide Row;
      MeshSize(init, remotes, role);
      RowSize(last, remotes, role);
      assert |Mesh(locals, remotes, role)| == |init| * |remotes| + |remotes|;
      OneMoreRow(|init|, |remotes|);
    }
  }

  lemma OneMoreRow(n: nat, m: nat)
    ensures (n + 1) * m == n * m + m
  {
  }

  // ---------------------------------------------------------------
  // Mirror images
  // ---------------------------------------------------------------

  function Mirror(p: Pair): (q: Pair) {
    p.(local := p.remote, remote := p.local)
  }

  function MirrorAll(ps: seq<Pair>): (qs: seq<Pair>)
    ensures |qs| == |ps| && forall i :: 0 <= i < |ps| ==> qs[i] == Mirror(ps[i])
  {
    seq(|ps|, i requires 0 <= i < |ps| => Mirror(ps[i]))
  }

  lemma {:induction false} RowDistinct(local: Candidate, remotes: seq<Candidate>, role: IceRole)
    requires local.priority < MAX_PRIORITY && Ranked(remotes)
    ensures DistinctKeys(Row(local, remotes, role), PriorityOf)
  {
    if remotes != [] {
      var init, last := remotes[..|remotes| - 1], remotes[|remotes| - 1];
      RowDistinct(local, init, role);
      var row := Row(local, init, role);
      forall i | 0 <= i < |row| ensures row[i].priority != NewPair(local, last, role).priority {
        RowElements(local, init, role, row[i]);
        DifferentPairs(local, row[i].remote, local, last, role);
      }
    }
  }

  lemma DifferentPairs(local: Candidate, remote: Candidate, local': Candidate, remote': Candidate, role: IceRole)
    requires local.priority < MAX_PRIORITY && remote.priority < MAX_PRIORITY
    requires local'.priority < MAX_PRIORITY && remote'.priority < MAX_PRIORITY
    requires local.priority != local'.priority || remote.priority != remote'.priority
    ensures NewPair(local, remote, role).priority != NewPair(local', remote', role).priority
  {
    var (g, d) := Sides(local.priority, remote.priority, role);
    var (g', d') := Sides(local'.priority, remote'.priority, role);
    PairPriorityOrder(g, d, g', d');
  }

  lemma {:induction false} MeshDistinct(locals: seq<Candidate>, remotes: seq<Candidate>, role: IceRole)
    requires Ranked(locals) && Ranked(remotes)
    ensures DistinctKeys(Mesh(locals, remotes, role), PriorityOf)
  {
    if locals != [] {
      var init, last := locals[..|locals| - 1], locals[|locals| - 1];
      MeshDistinct(init, remotes, role);
      RowDistinct(last, remotes, role);
      var mesh, row := Mesh(init, remotes, role), Row(last, remotes, role);
      forall i, j | 0 <= i < |mesh| && 0 <= j < |row| ensures mesh[i].priority != row[j].priority {
        MeshElements(init, remotes, role, mesh[i]);
        RowElements(last, remotes, role, row[j]);
        DifferentPairs(mesh[i].local, mesh[i].remote, last, row[j].remote, role);
      }
    }
  }

  /** Priority does not depend on which side computes it. */
  lemma MirrorPriority(local: Candidate, remote: Candidate)
    ensures Mirror(NewPair(local, remote, Controlling)) == NewPair(remote, local, Controlled)
  {
  }

  lemma StrictList(locals: seq<Candidate>, remotes: seq<Candidate>, role: IceRole)
    requires Ranked(locals) && Ranked(remotes)
    ensures StrictlyDescending(CheckList(locals, remotes, role), PriorityOf)
  {
    MeshDistinct(locals, remotes, role);
    SortStrict(Mesh(locals, remotes, role), PriorityOf);
  }

  /** Both ends walk the same pairs in the same order, with local and remote exchanged. */
  lemma MirrorImage(locals: seq<Candidate>, remotes: seq<Candidate>)
    requires Ranked(locals) && Ranked(remotes)
    ensures MirrorAll(CheckList(locals, remotes, Controlling)) == CheckList(remotes, locals, Controlled)
  {
    hide CheckList, NewPair, PriorityOf;
    var a, b := MirrorAll(CheckList(locals, remotes, Controlling)), CheckList(remotes, locals, Controlled);
    StrictList(locals, remotes, Controlling);
    StrictList(remotes, locals, Controlled);
    MirrorStrict(CheckList(locals, remotes, Controlling));
    forall p ensures p in a <==> p in b {
      MirroredMembers(locals, remotes, p);
    }
    StrictUnique(a, b, PriorityOf);
  }

  lemma MirrorStrict(ps: seq<Pair>)
    requires StrictlyDescending(ps, PriorityOf)
    ensures StrictlyDescending(MirrorAll(ps), PriorityOf)
  {
  }

  lemma MirroredMembers(locals: seq<Candidate>, remotes: seq<Candidate>, p: Pair)
    ensures p in MirrorAll(CheckList(locals, remotes, Controlling)) <==> p in CheckList(remotes, locals, Controlled)
  {
    hide CheckList, NewPair;
    CheckListMeaning(locals, remotes, Controlling);
    CheckListMeaning(remotes, locals, Controlled);
    MirroredElement(CheckList(locals, remotes, Controlling), p);
    MirrorPriority(p.remote, p.local);
  }

  lemma MirroredElement(ps: seq<Pair>, p: Pair)
    ensures p in MirrorAll(ps) <==> Mirror(p) in ps
  {
    if Mirror(p) in ps {
      var i :| 0 <= i < |ps| && ps[i] == Mirror(p);
      assert MirrorAll(ps)[i] == p;
    }
  }

  lemma {:induction false} MirrorTied(ps: seq<Pair>, k: nat)
    ensures Tied(MirrorAll(ps), k, PriorityOf) == MirrorAll(Tied(ps, k, PriorityOf))
  {
    if ps != [] {
      var last := |ps| - 1;
      MirrorTied(ps[..last], k);
      assert MirrorAll(ps)[..last] == MirrorAll(ps[..last]);
    }
  }

  /** The pairs with priority k, listed by each side. */
  predicate SameTies(locals: seq<Candidate>, remotes: seq<Candidate>, k: nat) {
    MirrorAll(Tied(Mesh(locals, remotes, Controlling), k, PriorityOf))
      == Tied(Mesh(remotes, locals, Controlled), k, PriorityOf)
  }

  /**
   * For any two candidate lists whatever: the check lists are mirror images exactly if every group
   * of tied pairs reads the same by rows of one side and by rows of the other.
   */
  lemma MirrorExactly(locals: seq<Candidate>, remotes: seq<Candidate>)
    ensures MirrorAll(CheckList(locals, remotes, Controlling)) == CheckList(remotes, locals, Controlled) <==>
              forall k :: SameTies(locals, remotes, k)
  {
    hide Mesh, SortDesc, Tied;
    var a, b := CheckList(locals, remotes, Controlling), CheckList(remotes, locals, Controlled);
    forall k: nat ensures SameTies(locals, remotes, k) <==>
      Tied(MirrorAll(a), k, PriorityOf) == Tied(b, k, PriorityOf) {
      MirrorTied(a, k);
      SortStable(Mesh(locals, remotes, Controlling), k, PriorityOf);
      SortStable(Mesh(remotes, locals, Controlled), k, PriorityOf);
    }
    SortDescending(Mesh(locals, remotes, Controlling), PriorityOf);
    SortDescending(Mesh(remotes, locals, Controlled), PriorityOf);
    if forall k :: SameTies(locals, remotes, k) {
      StableUnique(MirrorAll(a), b, PriorityOf);
    }
  }

  lemma RowOfTwo(l: Candidate, r0: Candidate, r1: Candidate, role: IceRole)
    ensures Row(l, [r0, r1], role) == [NewPair(l, r0, role), NewPair(l, r1, role)]
  {
    hide NewPair;
    assert [r0, r1][..1] == [r0] && [r0][..0] == [];
    assert Row(l, [r0], role) == Row(l, [], role) + [NewPair(l, r0, role)];
  }

  lemma MeshOfTwo(l0: Candidate, l1: Candidate, r0: Candidate, r1: Candidate, role: IceRole)
    ensures Mesh([l0, l1], [r0, r1], role)
         == [NewPair(l0, r0, role), NewPair(l0, r1, role)] + [NewPair(l1, r0, role), NewPair(l1, r1, role)]
  {
    RowOfTwo(l0, r0, r1, role);
    RowOfTwo(l1, r0, r1, role);
    hide Row, NewPair;
    assert [l0, l1][..1] == [l0] && [l0][..0] == [];
    assert Mesh([l0], [r0, r1], role) == Mesh([], [r0, r1], role) + Row(l0, [r0, r1], role);
  }

  /** Of four pairs the middle two tie. */
  lemma MiddleTies(p: Pair, q: Pair, r: Pair, t: Pair)
    requires p.priority < q.priority == r.priority < t.priority
    ensures Tied([p, q] + [r, t], q.priority, PriorityOf) == [q, r]
  {
    var k := q.priority;
    TiedPush([], p, k, PriorityOf);
    TiedPush([p], q, k, PriorityOf);
    TiedPush([], r, k, PriorityOf);
    TiedPush([r], t, k, PriorityOf);
    TiedConcat([p, q], [r, t], k, PriorityOf);
    assert [] + [p] == [p] && [p] + [q] == [p, q] && [] + [r] == [r] && [r] + [t] == [r, t];
  }

  /**
   * Why priorities must be below 2^31: distinct ones can still tie as pairs, and a tie is broken
   * by list order, which differs between the two ends.
   */
  lemma DistinctIsNotEnough(l0: Candidate, l1: Candidate, r0: Candidate, r1: Candidate)
    requires l0.priority == 0 && l1.priority == 1 && r0.priority == 1 && r1.priority == MAX_PRIORITY + 1
    ensures MirrorAll(CheckList([l0, l1], [r0, r1], Controlling)) != CheckList([r0, r1], [l0, l1], Controlled)
  {
    hide Mesh, CheckList, Tied;
    MeshOfTwo(l0, l1, r0, r1, Controlling);
    MeshOfTwo(r0, r1, l0, l1, Controlled);
    var a, b := NewPair(l0, r1, Controlling), NewPair(r0, l1, Controlled);
    MiddleTies(NewPair(l0, r0, Controlling), a, NewPair(l1, r0, Controlling), NewPair(l1, r1, Controlling));
    MiddleTies(NewPair(r0, l0, Controlled), b, NewPair(r1, l0, Controlled), NewPair(r1, l1, Controlled));
    assert a.priority == b.priority;
    assert MirrorAll(Tied(Mesh([l0, l1], [r0, r1], Controlling), a.priority, PriorityOf))[0] == Mirror(a) != b;
    assert Tied(Mesh([r0, r1], [l0, l1], Controlled), a.priority, PriorityOf)[0] == b;
    assert !SameTies([l0, l1], [r0, r1], a.priority);
    MirrorExactly([l0, l1], [r0, r1]);
  }

  // ---------------------------------------------------------------
  // Running the checks
  // ---------------------------------------------------------------

  /** What the network does to one check: the overall budget is spent, or the check succeeds or fails. */
  datatype Probe = OutOfTime | Works | Fails

  /** `nominated_pair`: among the succeeded pairs the last one of highest priority. */
  function Nominated(pairs: seq<Pair>): (r: Option<Pair>) {
    if pairs == [] then None else
      var best := Nominated(pairs[..|pairs| - 1]);
      var p := pairs[|pairs| - 1];
      if p.state == Succeeded && (best.None? || best.value.priority <= p.priority) then Some(p) else best
  }

  lemma {:induction false} NominatedMeaning(pairs: seq<Pair>)
    ensures Nominated(pairs).None? <==> forall i :: 0 <= i < |pairs| ==> pairs[i].state != Succeeded
    ensures Nominated(pairs).Some? ==> Nominated(pairs).value in pairs && Nominated(pairs).value.state == Succeeded
    ensures forall i :: 0 <= i < |pairs| && pairs[i].state == Succeeded ==>
      pairs[i].priority <= Nominated(pairs).value.priority
  {
    if pairs != [] {
      NominatedMeaning(pairs[..|pairs| - 1]);
      assert pairs == pairs[..|pairs| - 1] + [pairs[|pairs| - 1]];
    }
  }

  /** No later pair that succeeded has as high a priority. */
  predicate LastBest(pairs: seq<Pair>, k: nat) {
    k < |pairs| && forall i :: k < i < |pairs| && pairs[i].state == Succeeded ==> pairs[i].priority < pairs[k].priority
  }

  /** Among equals the last one is nominated. */
  lemma {:induction false} NominatedLast(pairs: seq<Pair>) returns (k: nat)
    requires Nominated(pairs).Some?
    ensures LastBest(pairs, k) && pairs[k] == Nominated(pairs).value
  {
    var n := |pairs| - 1;
    var init, p := pairs[..n], pairs[n];
    if p.state == Succeeded && (Nominated(init).None? || Nominated(init).value.priority <= p.priority) {
      k := n;
    } else {
      k := NominatedLast(init);
      assert forall i :: 0 <= i < n ==> pairs[i] == init[i];
    }
  }

  /** How many of the next checks are started before the budget is spent. */
  function Started(n: nat, probe: nat -> Probe, i: nat): (k: nat)
    requires i <= n
    ensures i <= k <= n
    ensures forall j :: i <= j < k ==> probe(j) != OutOfTime
    ensures k < n ==> probe(k) == OutOfTime
    decreases n - i
  {
    if i == n || probe(i) == OutOfTime then i else Started(n, probe, i + 1)
  }

  /** The pairs after all checks that were started. */
  function Checked(pairs: seq<Pair>, probe: nat -> Probe): (r: seq<Pair>)
    ensures |r| == |pairs|
  {
    seq(|pairs|, i requires 0 <= i < |pairs| =>
      if i < Started(|pairs|, probe, 0) then pairs[i].(state := if probe(i) == Works then Succeeded else Failed)
        else pairs[i])
  }

  class ConnectivityChecker {
    var pairs: seq<Pair>

    constructor (locals: seq<Candidate>, remotes: seq<Candidate>, role: IceRole)
      ensures pairs == CheckList(locals, remotes, role)
    {
      pairs := [];
      new;
      pairs := FormPairs(locals, remotes, role);
    }

    method RunChecks(probe: nat -> Probe) returns (r: Result<Pair>)
      modifies this
      ensures pairs == Checked(old(pairs), probe)
      ensures r == if Nominated(pairs).Some? then Ok(Nominated(pairs).value) else Err(Error.Ice)
    {
      if pairs == [] {
        return Err(Error.Ice);
      }
      ghost var n := Started(|pairs|, probe, 0);
      var i := 0;
      while i < |pairs|
        invariant 0 <= i <= n && |pairs| == old(|pairs|)
        invariant forall j :: 0 <= j < i ==>
          pairs[j] == old(pairs)[j].(state := if probe(j) == Works then Succeeded else Failed)
        invariant forall j :: i <= j < |pairs| ==> pairs[j] == old(pairs)[j]
      {
        if probe(i) == OutOfTime {
          break;
        }
        pairs := pairs[i := pairs[i].(state := InProgress)];
        if probe(i) == Works {
          pairs := pairs[i := pairs[i].(state := Succeeded)];
        } else {
          pairs := pairs[i := pairs[i].(state := Failed)];
        }
        i := i + 1;
      }
      assert i == n;
      r := if Nominated(pairs).Some? then Ok(Nominated(pairs).value) else Err(Error.Ice);
    }
  }

  /** The pair a session on this side ends up with. */
  function Elected(locals: seq<Candidate>, remotes: seq<Candidate>, role: IceRole,
                   probe: nat -> Probe): (r: Option<Pair>) {
    Nominated(Checked(CheckList(locals, remotes, role), probe))
  }

  lemma {:induction false} NominatedMirror(ps: seq<Pair>)
    ensures Nominated(MirrorAll(ps)) == if Nominated(ps).None? then None else Some(Mirror(Nominated(ps).value))
  {
    if ps != [] {
      var init := ps[..|ps| - 1];
      NominatedMirror(init);
      assert MirrorAll(ps)[..|ps| - 1] == MirrorAll(init);
    }
  }

  /** If the checks turn out alike on both sides, both sides nominate the same pair. */
  lemma SamePairElected(locals: seq<Candidate>, remotes: seq<Candidate>, probe: nat -> Probe)
    requires Ranked(locals) && Ranked(remotes)
    ensures var a, b := Elected(locals, remotes, Controlling, probe), Elected(remotes, locals, Controlled, probe);
            if a.None? then b.None? else b == Some(Mirror(a.value))
  {
    var list := CheckList(locals, remotes, Controlling);
    MirrorImage(locals, remotes);
    assert Checked(MirrorAll(list), probe) == MirrorAll(Checked(list, probe));
    NominatedMirror(Checked(list, probe));
  }

  /** Only started checks that worked mark a pair as succeeded. */
  lemma CheckedStates(list: seq<Pair>, probe: nat -> Probe, i: nat)
    requires i < |list| && list[i].state == Waiting
    ensures Checked(list, probe)[i].state == Succeeded <==> i < Started(|list|, probe, 0) && probe(i) == Works
    ensures Checked(list, probe)[i] == list[i].(state := Checked(list, probe)[i].state)
  {
  }

  /** The first check that works elects its pair. */
  lemma ElectedFirst(locals: seq<Candidate>, remotes: seq<Candidate>, role: IceRole, probe: nat -> Probe, i: nat)
    requires Ranked(locals) && Ranked(remotes)
    requires i < Started(|CheckList(locals, remotes, role)|, probe, 0) && probe(i) == Works
    requires forall j :: 0 <= j < i ==> probe(j) != Works
    ensures Elected(locals, remotes, role, probe) == Some(CheckList(locals, remotes, role)[i].(state := Succeeded))
  {
    hide CheckList, Checked, Nominated, Started;
    var list := CheckList(locals, remotes, role);
    CheckListMeaning(locals, remotes, role);
    StrictList(locals, remotes, role);
    NominatedMeaning(Checked(list, probe));
    assert list[i] in list;
    CheckedStates(list, probe, i);
    var r := Nominated(Checked(list, probe));
    assert r.Some?;
    var k :| 0 <= k < |list| && Checked(list, probe)[k] == r.value;
    assert list[k] in list;
    CheckedStates(list, probe, k);
    assert PriorityOf(list[k]) >= PriorityOf(list[i]);
    assert k == i;
  }
}
