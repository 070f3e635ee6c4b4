/**
 The capability and capacity planner that feeds initialization.

 Subjects are placed one by one on the least loaded execution node that supports them and has
 room; ties go to the master, then to the smaller node id. The registry is a dictionary, so its
 order is an accident: the specification works on the set of registered nodes.
 */
module Planner {
  import opened Wrappers

  type NodeId = string

  const MASTER: NodeId := "master"
  const MAX_TOTAL_SENSORS_PER_NODE: nat := 8

  datatype Role = Master | Worker | Ai

  /** Names are stripped and lower-cased; an absent name is the empty string. */
  datatype SensorConf = SensorConf(name: string, algorithm: string, numberOf: nat)
  datatype Subject = Subject(id: string, sensors: seq<SensorConf>)
  datatype NodeInfo = NodeInfo(id: NodeId, role: Role, sensors: set<string>, algorithms: set<string>)

  /** Per-node subjects and sensor counts, as the planning loop keeps them. */
  datatype Plan = Plan(subjects: map<NodeId, seq<Subject>>, counts: map<NodeId, nat>)

  // ---------------------------------------------------------------- subjects and nodes

  function SensorTotal(sensors: seq<SensorConf>): nat {
    if sensors == [] then 0 else SensorTotal(sensors[..|sensors| - 1]) + sensors[|sensors| - 1].numberOf
  }

  function Count(sub: Subject): nat {
    SensorTotal(sub.sensors)
  }

  function Load(subjects: seq<Subject>): nat {
    if subjects == [] then 0 else Load(subjects[..|subjects| - 1]) + Count(subjects[|subjects| - 1])
  }

  predicate Supports(node: NodeInfo, sub: Subject) {
    forall i :: 0 <= i < |sub.sensors| ==>
      && (sub.sensors[i].name == "" || sub.sensors[i].name in node.sensors)
      && (sub.sensors[i].algorithm == "" || sub.sensors[i].algorithm in node.algorithms)
  }

  predicate Executes(node: NodeInfo) {
    node.role.Master? || node.role.Worker?
  }

  predicate ValidIds(subjects: seq<Subject>) {
    && (forall i :: 0 <= i < |subjects| ==> subjects[i].id != "")
    && (forall i, j :: 0 <= i < j < |subjects| ==> subjects[i].id != subjects[j].id)
  }

  /** A registry maps each id to one node. */
  ghost predicate UniqueIds(nodes: set<NodeInfo>) {
    forall a, b :: a in nodes && b in nodes && a.id == b.id ==> a == b
  }

  function ExecutionNodes(nodes: set<NodeInfo>): set<NodeInfo> {
    set n | n in nodes && Executes(n)
  }

  function IdsOf(nodes: set<NodeInfo>): set<NodeId> {
    set n | n in nodes :: n.id
  }

  // ---------------------------------------------------------------- the selection order

  /** Python compares strings by code point, a proper prefix first. */
  predicate Less(a: string, b: string) {
    if a == "" then b != ""
    else if b == "" then false
    else a[0] < b[0] || (a[0] == b[0] && Less(a[1..], b[1..]))
  }

  lemma {:induction false} LessIsTotal(a: string, b: string)
    ensures Less(a, b) || Less(b, a) || a == b
    ensures !(Less(a, b) && Less(b, a))
    ensures !Less(a, a)
  {
    if a != "" && b != "" {
      LessIsTotal(a[1..], b[1..]);
      assert a == [a[0]] + a[1..] && b == [b[0]] + b[1..];
    }
    if a != "" {
      LessIsTotal(a[1..], if b == "" then "" else b[1..]);
    }
  }

  lemma {:induction false} LessIsTransitive(a: string, b: string, c: string)
    requires Less(a, b) && Less(b, c)
    ensures Less(a, c)
  {
    if a != "" && b[0] == a[0] && b[0] == c[0] {
      LessIsTransitive(a[1..], b[1..], c[1..]);
    }
  }

  /** The key of the selection: load, then master first, then id. */
  predicate Before(counts: map<NodeId, nat>, a: NodeId, b: NodeId)
    requires a in counts && b in counts
  {
    || counts[a] < counts[b]
    || (counts[a] == counts[b] && a == MASTER && b != MASTER)
    || (counts[a] == counts[b] && (a == MASTER <==> b == MASTER) && Less(a, b))
  }

  lemma BeforeIsTotal(counts: map<NodeId, nat>, a: NodeId, b: NodeId)
    requires a in counts && b in counts && a != b
    ensures Before(counts, a, b) <==> !Before(counts, b, a)
  {
    LessIsTotal(a, b);
  }

  lemma BeforeIsTransitive(counts: map<NodeId, nat>, a: NodeId, b: NodeId, c: NodeId)
    requires a in counts && b in counts && c in counts
    requires Before(counts, a, b) && Before(counts, b, c)
    ensures Before(counts, a, c)
  {
    if Less(a, b) && Less(b, c) {
      LessIsTransitive(a, b, c);
    }
  }

  // ---------------------------------------------------------------- the specification

  predicate Eligible(p: Plan, node: NodeInfo, sub: Subject) {
    Supports(node, sub) && node.id in p.counts && p.counts[node.id] + Count(sub) <= MAX_TOTAL_SENSORS_PER_NODE
  }

  /** `n` comes first among the nodes that can take `sub`. */
  ghost predicate IsBest(nodes: set<NodeInfo>, p: Plan, sub: Subject, n: NodeInfo) {
    && n in nodes && Eligible(p, n, sub)
    && forall m :: m in nodes && Eligible(p, m, sub) && m.id != n.id ==> Before(p.counts, n.id, m.id)
  }

  ghost predicate SomeEligible(nodes: set<NodeInfo>, p: Plan, sub: Subject) {
    exists n :: n in nodes && Eligible(p, n, sub)
  }

  lemma {:induction false} BestExists(nodes: set<NodeInfo>, p: Plan, sub: Subject)
    requires SomeEligible(nodes, p, sub)
    ensures exists n :: IsBest(nodes, p, sub, n)
    decreases |nodes|
  {
    var x :| x in nodes && Eligible(p, x, sub);
    var rest := nodes - {x};
    if SomeEligible(rest, p, sub) {
      BestExists(rest, p, sub);
      var y :| IsBest(rest, p, sub, y);
      if x.id == y.id || Before(p.counts, y.id, x.id) {
        assert IsBest(nodes, p, sub, y);
      } else {
        forall m | m in nodes && Eligible(p, m, sub) && m.id != x.id
          ensures Before(p.counts, x.id, m.id)
        {
          BeforeIsTotal(p.counts, x.id, y.id);
          if m.id != y.id {
            BeforeIsTransitive(p.counts, x.id, y.id, m.id);
          }
        }
        assert IsBest(nodes, p, sub, x);
      }
    } else {
      assert IsBest(nodes, p, sub, x);
    }
  }

  lemma BestIsUnique(nodes: set<NodeInfo>, p: Plan, sub: Subject, a: NodeInfo, b: NodeInfo)
    requires UniqueIds(nodes) && IsBest(nodes, p, sub, a) && IsBest(nodes, p, sub, b)
    ensures a == b
  {
    if a.id != b.id {
      BeforeIsTotal(p.counts, a.id, b.id);
    }
  }

  function Assign(p: Plan, n: NodeId, sub: Subject): Plan
    requires n in p.subjects && n in p.counts
  {
    Plan(p.subjects[n := p.subjects[n] + [sub]], p.counts[n := p.counts[n] + Count(sub)])
  }

  ghost predicate Tracks(p: Plan, nodes: set<NodeInfo>) {
    p.subjects.Keys == IdsOf(nodes) && p.counts.Keys == IdsOf(nodes)
  }

  ghost function Place(nodes: set<NodeInfo>, p: Plan, sub: Subject): (r: Result<Plan>)
    requires Tracks(p, nodes)
    ensures r.Ok? ==> Tracks(r.value, nodes)
  {
    if SomeEligible(nodes, p, sub) then
      BestExists(nodes, p, sub);
      var n :| IsBest(nodes, p, sub, n);
      Ok(Assign(p, n.id, sub))
    else Rejected
  }

  ghost function EmptyPlan(nodes: set<NodeInfo>): Plan {
    Plan(map n | n in IdsOf(nodes) :: [], map n | n in IdsOf(nodes) :: 0)
  }

  /** Placing the subjects in order, from nothing. */
  ghost function PlaceAll(nodes: set<NodeInfo>, subjects: seq<Subject>): (r: Result<Plan>)
    ensures r.Ok? ==> Tracks(r.value, nodes)
  {
    if subjects == [] then Ok(EmptyPlan(nodes))
    else
      match PlaceAll(nodes, subjects[..|subjects| - 1])
      case Rejected => Rejected
      case Ok(p) => Place(nodes, p, subjects[|subjects| - 1])
  }

  /** The last placement of an accepted sequence. */
  lemma LastPlacement(nodes: set<NodeInfo>, subjects: seq<Subject>) returns (p: Plan, n: NodeInfo)
    requires subjects != [] && PlaceAll(nodes, subjects).Ok?
    ensures PlaceAll(nodes, subjects[..|subjects| - 1]) == Ok(p) && Tracks(p, nodes)
    ensures IsBest(nodes, p, subjects[|subjects| - 1], n)
    ensures PlaceAll(nodes, subjects) == Ok(Assign(p, n.id, subjects[|subjects| - 1]))
  {
    var sub := subjects[|subjects| - 1];
    p := PlaceAll(nodes, subjects[..|subjects| - 1]).value;
    BestExists(nodes, p, sub);
    n :| IsBest(nodes, p, sub, n) && PlaceAll(nodes, subjects) == Ok(Assign(p, n.id, sub));
  }

  ghost function PlanFor(registry: set<NodeInfo>, subjects: seq<Subject>): Result<map<NodeId, seq<Subject>>> {
    var nodes := ExecutionNodes(registry);
    if !ValidIds(subjects) || nodes == {} then Rejected
    else
      match PlaceAll(nodes, subjects)
      case Rejected => Rejected
      case Ok(p) => Ok(p.subjects)
  }

  // ---------------------------------------------------------------- what every plan satisfies

  /** Loads add up, stay within capacity, and every placed subject is supported where it is. */
  ghost predicate Sound(nodes: set<NodeInfo>, p: Plan) {
    && Tracks(p, nodes)
    && (forall n :: n in p.counts ==> p.counts[n] == Load(p.subjects[n]) <= MAX_TOTAL_SENSORS_PER_NODE)
    && (forall m, s :: m in nodes && s in p.subjects[m.id] ==> Supports(m, s))
  }

  lemma {:induction false} PlanIsSound(nodes: set<NodeInfo>, subjects: seq<Subject>)
    requires UniqueIds(nodes) && PlaceAll(nodes, subjects).Ok?
    ensures Sound(nodes, PlaceAll(nodes, subjects).value)
  {
    if subjects != [] {
      var front, sub := subjects[..|subjects| - 1], subjects[|subjects| - 1];
      PlanIsSound(nodes, front);
      var p, n := LastPlacement(nodes, subjects);
      AssignIsSound(nodes, p, n, sub);
    }
  }

  lemma AssignIsSound(nodes: set<NodeInfo>, p: Plan, n: NodeInfo, sub: Subject)
    requires UniqueIds(nodes) && Sound(nodes, p) && n in nodes && Eligible(p, n, sub)
    ensures Sound(nodes, Assign(p, n.id, sub))
  {
    LoadExtends(p.subjects[n.id], sub);
    forall m, s | m in nodes && s in Assign(p, n.id, sub).subjects[m.id] ensures Supports(m, s) {
      if m.id == n.id {
        assert m == n;
      }
    }
  }

  lemma LoadExtends(subjects: seq<Subject>, sub: Subject)
    ensures Load(subjects + [sub]) == Load(subjects) + Count(sub)
  {
    assert (subjects + [sub])[..|subjects|] == subjects;
  }

  /** `sub` is on exactly one node, and once. */
  ghost predicate PlacedOnce(p: Plan, sub: Subject) {
    exists n :: n in p.subjects && multiset(p.subjects[n])[sub] == 1
                && forall m :: m in p.subjects && m != n ==> sub !in p.subjects[m]
  }

  /** The plan holds each of `subjects` on exactly one node, and nothing else. */
  ghost predicate Partitions(p: Plan, subjects: seq<Subject>) {
    && (forall s :: s in subjects ==> PlacedOnce(p, s))
    && (forall n, s :: n in p.subjects && s in p.subjects[n] ==> s in subjects)
  }

  lemma AssignPartitions(p: Plan, n: NodeId, sub: Subject, front: seq<Subject>)
    requires n in p.subjects && n in p.counts && sub !in front && Partitions(p, front)
    ensures Partitions(Assign(p, n, sub), front + [sub])
  {
    var q := Assign(p, n, sub);
    forall s | s in front + [sub] ensures PlacedOnce(q, s) {
      if s == sub {
        assert multiset(q.subjects[n])[sub] == 1;
      } else {
        assert PlacedOnce(p, s);
        var m :| m in p.subjects && multiset(p.subjects[m])[s] == 1
                 && forall k :: k in p.subjects && k != m ==> s !in p.subjects[k];
        assert multiset(q.subjects[m])[s] == 1;
      }
    }
  }

  lemma {:induction false} PlanIsPartition(nodes: set<NodeInfo>, subjects: seq<Subject>)
    requires ValidIds(subjects) && PlaceAll(nodes, subjects).Ok?
    ensures Partitions(PlaceAll(nodes, subjects).value, subjects)
  {
    if subjects != [] {
      var front, sub := subjects[..|subjects| - 1], subjects[|subjects| - 1];
      PlanIsPartition(nodes, front);
      var p, n := LastPlacement(nodes, subjects);
      AssignPartitions(p, n.id, sub, front);
      assert subjects == front + [sub];
    }
  }

  /** Every accepted request puts each subject on exactly one capable node, within capacity. */
  lemma PlannerTheorem(registry: set<NodeInfo>, subjects: seq<Subject>)
    requires UniqueIds(registry) && PlanFor(registry, subjects).Ok?
    ensures var plan := PlanFor(registry, subjects).value;
            && plan.Keys == IdsOf(ExecutionNodes(registry))
            && (forall s :: s in subjects ==>
                  exists n :: n in ExecutionNodes(registry) && n.id in plan
                    && multiset(plan[n.id])[s] == 1 && Supports(n, s)
                    && forall m :: m in plan && m != n.id ==> s !in plan[m])
            && (forall n, s :: n in plan && s in plan[n] ==> s in subjects)
            && (forall n :: n in plan ==> Load(plan[n]) <= MAX_TOTAL_SENSORS_PER_NODE)
  {
    var nodes := ExecutionNodes(registry);
    PlanIsSound(nodes, subjects);
    PlanIsPartition(nodes, subjects);
    var p := PlaceAll(nodes, subjects).value;
    forall s | s in subjects
      ensures exists n :: n in nodes && n.id in p.subjects && multiset(p.subjects[n.id])[s] == 1
                && Supports(n, s) && forall m :: m in p.subjects && m != n.id ==> s !in p.subjects[m]
    {
      assert PlacedOnce(p, s);
      var id :| id in p.subjects && multiset(p.subjects[id])[s] == 1
                && forall m :: m in p.subjects && m != id ==> s !in p.subjects[m];
      var n :| n in nodes && n.id == id;
      assert s in p.subjects[n.id];
    }
  }

  // ---------------------------------------------------------------- where a subject goes, exactly

  /** Some sensor, or the algorithm it needs, is not offered by the node. */
  ghost predicate Lacks(node: NodeInfo, sub: Subject) {
    || (exists i :: 0 <= i < |sub.sensors| && sub.sensors[i].name != "" && sub.sensors[i].name !in node.sensors)
    || (exists i :: 0 <= i < |sub.sensors| && sub.sensors[i].algorithm != "" && sub.sensors[i].algorithm !in node.algorithms)
  }

  /** The first place where the ids differ decides, by code point; a proper prefix is smaller. */
  ghost predicate Smaller(a: string, b: string) {
    exists k :: 0 <= k <= |a| && SmallerAt(a, b, k)
  }

  ghost predicate SmallerAt(a: string, b: string, k: nat)
    requires k <= |a|
  {
    k < |b| && a[..k] == b[..k] && (k == |a| || a[k] < b[k])
  }

  lemma {:induction false} LessIsSmaller(a: string, b: string)
    ensures Less(a, b) <==> Smaller(a, b)
  {
    if a == "" {
      if b != "" {
        assert SmallerAt(a, b, 0);
      }
    } else if b != "" {
      LessIsSmaller(a[1..], b[1..]);
      if a[0] < b[0] {
        assert SmallerAt(a, b, 0);
      }
      if a[0] == b[0] && Less(a[1..], b[1..]) {
        var k :| 0 <= k <= |a[1..]| && SmallerAt(a[1..], b[1..], k);
        assert a[..k + 1] == [a[0]] + a[1..][..k] && b[..k + 1] == [b[0]] + b[1..][..k];
        assert SmallerAt(a, b, k + 1);
      }
      if k :| 0 <= k <= |a| && SmallerAt(a, b, k) {
        if k > 0 {
          assert a[0] == a[..k][0] == b[..k][0] == b[0];
          assert a[1..][..k - 1] == a[..k][1..] && b[1..][..k - 1] == b[..k][1..];
          assert SmallerAt(a[1..], b[1..], k - 1);
        }
      }
    }
  }

  /** The least loaded node that has room and lacks nothing; then the master; then the smallest id. */
  ghost predicate Chosen(nodes: set<NodeInfo>, counts: map<NodeId, nat>, sub: Subject, n: NodeInfo) {
    && n in nodes && n.id in counts && !Lacks(n, sub) && counts[n.id] + Count(sub) <= 8
    && forall m :: m in nodes && m.id in counts && !Lacks(m, sub) && counts[m.id] + Count(sub) <= 8 ==>
         && counts[n.id] <= counts[m.id]
         && (counts[n.id] == counts[m.id] && m.id == MASTER ==> n.id == MASTER)
         && (counts[n.id] == counts[m.id] && n.id != MASTER && m.id != MASTER && n.id != m.id ==> Smaller(n.id, m.id))
  }

  lemma BestIsChosen(nodes: set<NodeInfo>, p: Plan, sub: Subject, n: NodeInfo)
    requires UniqueIds(nodes) && IsBest(nodes, p, sub, n)
    ensures Chosen(nodes, p.counts, sub, n)
  {
    forall m | m in nodes && m.id in p.counts && !Lacks(m, sub) && p.counts[m.id] + Count(sub) <= 8
      ensures && p.counts[n.id] <= p.counts[m.id]
              && (p.counts[n.id] == p.counts[m.id] && m.id == MASTER ==> n.id == MASTER)
              && (p.counts[n.id] == p.counts[m.id] && n.id != MASTER && m.id != MASTER && n.id != m.id ==> Smaller(n.id, m.id))
    {
      assert Eligible(p, m, sub);
      LessIsSmaller(n.id, m.id);
    }
  }

  /**
   Placing one more subject is rejected exactly when every node lacks something it needs or has no room;
   otherwise the subject goes to the end of the chosen node's list and its sensors to that node's count,
   and nothing else changes.
   */
  lemma PlacesExactly(nodes: set<NodeInfo>, subjects: seq<Subject>, sub: Subject)
    requires UniqueIds(nodes) && PlaceAll(nodes, subjects).Ok?
    ensures var p, r := PlaceAll(nodes, subjects).value, PlaceAll(nodes, subjects + [sub]);
            && (r.Rejected? <==> forall n :: n in nodes && n.id in p.counts ==> Lacks(n, sub) || p.counts[n.id] + Count(sub) > 8)
            && (r.Ok? ==> exists n :: Chosen(nodes, p.counts, sub, n) && PlacedAt(p, r.value, n.id, sub))
  {
    if PlaceAll(nodes, subjects + [sub]).Ok? {
      var p, n := LastPlacement(nodes, subjects + [sub]);
      assert (subjects + [sub])[..|subjects|] == subjects;
      BestIsChosen(nodes, p, sub, n);
      assert PlacedAt(p, Assign(p, n.id, sub), n.id, sub);
    } else {
      NextIsRejected(nodes, subjects, sub);
    }
    RejectedExactly(nodes, PlaceAll(nodes, subjects).value, sub);
    PlacedAfter(nodes, subjects, sub);
  }

  /** The subject is last in the node's list, its sensors are counted, and nothing else changed. */
  ghost predicate PlacedAt(p: Plan, q: Plan, n: NodeId, sub: Subject) {
    && n in p.subjects && n in p.counts
    && q.subjects == p.subjects[n := p.subjects[n] + [sub]] && q.counts == p.counts[n := p.counts[n] + Count(sub)]
  }

  lemma PlacedAfter(nodes: set<NodeInfo>, subjects: seq<Subject>, sub: Subject)
    requires PlaceAll(nodes, subjects).Ok?
    ensures PlaceAll(nodes, subjects + [sub]) == Place(nodes, PlaceAll(nodes, subjects).value, sub)
  {
    assert (subjects + [sub])[..|subjects|] == subjects;
  }

  lemma RejectedExactly(nodes: set<NodeInfo>, p: Plan, sub: Subject)
    requires Tracks(p, nodes)
    ensures Place(nodes, p, sub).Rejected? <==>
            forall n :: n in nodes && n.id in p.counts ==> Lacks(n, sub) || p.counts[n.id] + Count(sub) > 8
  {
    forall n | n in nodes && n.id in p.counts ensures Eligible(p, n, sub) <==> !(Lacks(n, sub) || p.counts[n.id] + Count(sub) > 8) {
    }
  }

  /** A subject counts as many sensors as its entries ask for. */
  lemma CountAddsUp(sub: Subject, entry: SensorConf)
    ensures Count(Subject(sub.id, [])) == 0
    ensures Count(Subject(sub.id, sub.sensors + [entry])) == Count(sub) + entry.numberOf
  {
    assert (sub.sensors + [entry])[..|sub.sensors|] == sub.sensors;
  }

  /** Planning starts with every master and worker empty, and is rejected outright for bad ids or without such a node. */
  lemma PlanStarts(registry: set<NodeInfo>, subjects: seq<Subject>)
    ensures var nodes := set n | n in registry && !n.role.Ai?;
            && PlanFor(registry, subjects) ==
                 (if (exists s :: s in subjects && s.id == "")
                     || (exists i, j :: 0 <= i < j < |subjects| && subjects[i].id == subjects[j].id)
                     || nodes == {} then Rejected
                  else match PlaceAll(nodes, subjects)
                    case Rejected => Rejected
                    case Ok(p) => Ok(p.subjects))
            && PlaceAll(nodes, []).Ok?
            && forall n :: n in nodes ==>
                 var p := PlaceAll(nodes, []).value; n.id in p.counts && p.counts[n.id] == 0 && n.id in p.subjects && p.subjects[n.id] == []
  {
    assert ExecutionNodes(registry) == set n | n in registry && !n.role.Ai?;
    assert ValidIds(subjects) <==>
           !(exists s :: s in subjects && s.id == "") && !(exists i, j :: 0 <= i < j < |subjects| && subjects[i].id == subjects[j].id);
  }

  // ---------------------------------------------------------------- balance and rejection

  ghost predicate AllCapable(nodes: set<NodeInfo>, subjects: seq<Subject>) {
    forall n, s :: n in nodes && s in subjects ==> Supports(n, s)
  }

  /** With every node capable, the chosen node is a least loaded one. */
  lemma BestIsLeastLoaded(nodes: set<NodeInfo>, p: Plan, sub: Subject, n: NodeInfo)
    requires Tracks(p, nodes) && AllCapable(nodes, [sub]) && IsBest(nodes, p, sub, n)
    ensures forall m :: m in p.counts ==> p.counts[n.id] <= p.counts[m]
  {
    forall m | m in p.counts ensures p.counts[n.id] <= p.counts[m] {
      var info :| info in nodes && info.id == m;
      assert sub in [sub];
      assert p.counts[m] < p.counts[n.id] ==> Eligible(p, info, sub);
    }
  }

  /** Loads never differ by more than the largest subject. */
  lemma {:induction false} LoadsAreBalanced(nodes: set<NodeInfo>, subjects: seq<Subject>, largest: nat)
    requires AllCapable(nodes, subjects) && PlaceAll(nodes, subjects).Ok?
    requires forall s :: s in subjects ==> Count(s) <= largest
    ensures var p := PlaceAll(nodes, subjects).value;
            forall n, m :: n in p.counts && m in p.counts ==> p.counts[n] <= p.counts[m] + largest
  {
    if subjects != [] {
      var front, sub := subjects[..|subjects| - 1], subjects[|subjects| - 1];
      LoadsAreBalanced(nodes, front, largest);
      var p, n := LastPlacement(nodes, subjects);
      assert sub in subjects;
      BestIsLeastLoaded(nodes, p, sub, n);
    }
  }

  ghost function SumCounts(ids: set<NodeId>, counts: map<NodeId, nat>): nat
    requires ids <= counts.Keys
  {
    if ids == {} then 0
    else
      var n :| n in ids;
      counts[n] + SumCounts(ids - {n}, counts)
  }

  lemma {:induction false} SumUpdate(ids: set<NodeId>, counts: map<NodeId, nat>, n: NodeId, more: nat)
    requires ids <= counts.Keys && n in counts
    ensures SumCounts(ids, counts[n := counts[n] + more]) == SumCounts(ids, counts) + (if n in ids then more else 0)
  {
    if ids != {} {
      var x :| x in ids && SumCounts(ids, counts) == counts[x] + SumCounts(ids - {x}, counts);
      SumPick(ids, counts[n := counts[n] + more], x);
      SumUpdate(ids - {x}, counts, n, more);
    }
  }

  lemma {:induction false} SumPick(ids: set<NodeId>, counts: map<NodeId, nat>, x: NodeId)
    requires ids <= counts.Keys && x in ids
    ensures SumCounts(ids, counts) == counts[x] + SumCounts(ids - {x}, counts)
  {
    var y :| y in ids && SumCounts(ids, counts) == counts[y] + SumCounts(ids - {y}, counts);
    if x != y {
      SumPick(ids - {y}, counts, x);
      SumPick(ids - {x}, counts, y);
      assert ids - {x} - {y} == ids - {y} - {x};
    }
  }

  lemma OneMoreTimes(n: nat, low: int)
    ensures (n + 1) * low == n * low + low
  {
  }

  lemma {:induction false} SumAtLeast(ids: set<NodeId>, counts: map<NodeId, nat>, low: int)
    requires ids <= counts.Keys && forall n :: n in ids ==> counts[n] >= low
    ensures SumCounts(ids, counts) >= |ids| * low
  {
    if ids != {} {
      var x :| x in ids && SumCounts(ids, counts) == counts[x] + SumCounts(ids - {x}, counts);
      SumAtLeast(ids - {x}, counts, low);
      OneMoreTimes(|ids - {x}|, low);
    }
  }

  /** All the load of the subjects placed is on the nodes. */
  lemma {:induction false} LoadIsConserved(nodes: set<NodeInfo>, subjects: seq<Subject>)
    requires PlaceAll(nodes, subjects).Ok?
    ensures SumCounts(IdsOf(nodes), PlaceAll(nodes, subjects).value.counts) == Load(subjects)
  {
    if subjects == [] {
      SumZero(IdsOf(nodes), EmptyPlan(nodes).counts);
    } else {
      var front, sub := subjects[..|subjects| - 1], subjects[|subjects| - 1];
      var p, n := LastPlacement(nodes, subjects);
      LoadIsConserved(nodes, front);
      AssignAddsLoad(nodes, p, n, sub);
    }
  }

  lemma AssignAddsLoad(nodes: set<NodeInfo>, p: Plan, n: NodeInfo, sub: Subject)
    requires Tracks(p, nodes) && n in nodes
    ensures SumCounts(IdsOf(nodes), Assign(p, n.id, sub).counts) == SumCounts(IdsOf(nodes), p.counts) + Count(sub)
  {
    SumUpdate(IdsOf(nodes), p.counts, n.id, Count(sub));
  }

  lemma {:induction false} SumZero(ids: set<NodeId>, counts: map<NodeId, nat>)
    requires ids <= counts.Keys && forall n :: n in ids ==> counts[n] == 0
    ensures SumCounts(ids, counts) == 0
  {
    if ids != {} {
      var x :| x in ids && SumCounts(ids, counts) == counts[x] + SumCounts(ids - {x}, counts);
      SumZero(ids - {x}, counts);
    }
  }

  /** With every node capable, a subject is rejected exactly when it fits nowhere. */
  lemma RejectedWhenFull(nodes: set<NodeInfo>, p: Plan, sub: Subject)
    requires Tracks(p, nodes) && AllCapable(nodes, [sub])
    ensures Place(nodes, p, sub).Rejected? <==>
            forall n :: n in p.counts ==> p.counts[n] >= MAX_TOTAL_SENSORS_PER_NODE + 1 - Count(sub)
  {
    assert sub in [sub];
    if Place(nodes, p, sub).Rejected? {
      forall n | n in p.counts ensures p.counts[n] >= MAX_TOTAL_SENSORS_PER_NODE + 1 - Count(sub) {
        var info :| info in nodes && info.id == n;
        assert !Eligible(p, info, sub);
      }
    }
  }

  lemma NextIsRejected(nodes: set<NodeInfo>, subjects: seq<Subject>, sub: Subject)
    requires PlaceAll(nodes, subjects).Ok? && PlaceAll(nodes, subjects + [sub]).Rejected?
    ensures var p := PlaceAll(nodes, subjects).value; Tracks(p, nodes) && Place(nodes, p, sub).Rejected?
  {
    assert (subjects + [sub])[..|subjects|] == subjects;
  }

  lemma FullMeansLoaded(nodes: set<NodeInfo>, p: Plan, sub: Subject)
    requires Tracks(p, nodes) && AllCapable(nodes, [sub]) && Place(nodes, p, sub).Rejected?
    ensures SumCounts(IdsOf(nodes), p.counts) >= |IdsOf(nodes)| * (MAX_TOTAL_SENSORS_PER_NODE + 1 - Count(sub))
  {
    RejectedWhenFull(nodes, p, sub);
    SumAtLeast(IdsOf(nodes), p.counts, MAX_TOTAL_SENSORS_PER_NODE + 1 - Count(sub));
  }

  /** Rejecting a subject of c sensors proves that N capable nodes already carry at least N(9 - c). */
  lemma RejectionMeansFull(nodes: set<NodeInfo>, subjects: seq<Subject>, sub: Subject)
    requires AllCapable(nodes, [sub]) && PlaceAll(nodes, subjects).Ok?
    requires PlaceAll(nodes, subjects + [sub]).Rejected?
    ensures Load(subjects) >= |IdsOf(nodes)| * (MAX_TOTAL_SENSORS_PER_NODE + 1 - Count(sub))
  {
    var p := PlaceAll(nodes, subjects).value;
    NextIsRejected(nodes, subjects, sub);
    FullMeansLoaded(nodes, p, sub);
    LoadIsConserved(nodes, subjects);
  }

  // ---------------------------------------------------------------- the program

  /** Over the limit on some node: the re-validation that closes planning. */
  method ValidateSubjectsPerNode(subjects: seq<Subject>) returns (ok: bool)
    ensures ok <==> Load(subjects) <= MAX_TOTAL_SENSORS_PER_NODE
  {
    var total := 0;
    for i := 0 to |subjects|
      invariant total == Load(subjects[..i])
    {
      var sensors := 0;
      for k := 0 to |subjects[i].sensors|
        invariant sensors == SensorTotal(subjects[i].sensors[..k])
      {
        assert subjects[i].sensors[..k + 1][..k] == subjects[i].sensors[..k];
        sensors := sensors + subjects[i].sensors[k].numberOf;
      }
      assert subjects[i].sensors[..|subjects[i].sensors|] == subjects[i].sensors;
      assert subjects[..i + 1][..i] == subjects[..i];
      total := total + sensors;
    }
    assert subjects[..|subjects|] == subjects;
    ok := total <= MAX_TOTAL_SENSORS_PER_NODE;
  }

  /** The first node in selection order, by one pass over the registry. */
  method SelectNode(registry: seq<NodeInfo>, p: Plan, sub: Subject) returns (best: Option<NodeInfo>)
    requires UniqueIds(Elements(registry))
    ensures best.None? <==> !SomeEligible(Elements(registry), p, sub)
    ensures best.Some? ==> IsBest(Elements(registry), p, sub, best.value)
  {
    best := None;
    for i := 0 to |registry|
      invariant best.None? ==> forall k :: 0 <= k < i ==> !Eligible(p, registry[k], sub)
      invariant best.Some? ==> best.value in registry && Eligible(p, best.value, sub)
      invariant best.Some? ==> forall k :: 0 <= k < i && Eligible(p, registry[k], sub) && registry[k].id != best.value.id
                                 ==> Before(p.counts, best.value.id, registry[k].id)
    {
      var n := registry[i];
      if Eligible(p, n, sub) && (best.None? || Before(p.counts, n.id, best.value.id)) {
        forall k | 0 <= k < i && Eligible(p, registry[k], sub) && registry[k].id != n.id
          ensures Before(p.counts, n.id, registry[k].id)
        {
          if registry[k].id != best.value.id {
            BeforeIsTransitive(p.counts, n.id, best.value.id, registry[k].id);
          }
        }
        best := Some(n);
      } else if Eligible(p, n, sub) && n.id != best.value.id {
        BeforeIsTotal(p.counts, n.id, best.value.id);
      }
    }
  }

  /** The planning loop over the execution nodes. */
  method PlaceSubjects(nodes: seq<NodeInfo>, subjects: seq<Subject>) returns (r: Result<Plan>)
    requires UniqueIds(Elements(nodes))
    ensures r == PlaceAll(Elements(nodes), subjects)
  {
    ghost var exec := Elements(nodes);
    var ids := set n | n in nodes :: n.id;
    assert ids == IdsOf(exec);
    var p := Plan(map n | n in ids :: [], map n | n in ids :: 0);
    assert p == EmptyPlan(exec);
    for i := 0 to |subjects|
      invariant PlaceAll(exec, subjects[..i]) == Ok(p)
    {
      assert subjects[..i + 1][..i] == subjects[..i];
      var best := SelectNode(nodes, p, subjects[i]);
      if best.None? {
        RejectionPersists(exec, subjects, i + 1);
        return Rejected;
      }
      PlaceIsBest(exec, p, subjects[i], best.value);
      p := Assign(p, best.value.id, subjects[i]);
    }
    assert subjects[..|subjects|] == subjects;
    return Ok(p);
  }

  lemma PlaceIsBest(nodes: set<NodeInfo>, p: Plan, sub: Subject, n: NodeInfo)
    requires UniqueIds(nodes) && Tracks(p, nodes) && IsBest(nodes, p, sub, n)
    ensures Place(nodes, p, sub) == Ok(Assign(p, n.id, sub))
  {
    forall m | IsBest(nodes, p, sub, m) ensures m == n {
      BestIsUnique(nodes, p, sub, m, n);
    }
  }

  method PlanSubjectAssignments(registry: seq<NodeInfo>, subjects: seq<Subject>)
    returns (plan: Result<map<NodeId, seq<Subject>>>)
    requires UniqueIds(Elements(registry))
    ensures plan == PlanFor(Elements(registry), subjects)
  {
    if !ValidIds(subjects) {
      return Rejected;
    }
    var nodes: seq<NodeInfo> := [];
    for i := 0 to |registry|
      invariant forall n :: n in nodes <==> n in registry[..i] && Executes(n)
    {
      assert registry[..i + 1] == registry[..i] + [registry[i]];
      if Executes(registry[i]) {
        nodes := nodes + [registry[i]];
      }
    }
    assert registry[..|registry|] == registry;
    assert ExecutionNodes(Elements(registry)) == Elements(nodes);
    if nodes == [] {
      return Rejected;
    }
    assert nodes[0] in Elements(nodes);
    var placed := PlaceSubjects(nodes, subjects);
    if placed.Rejected? {
      return Rejected;
    }
    PlanIsSound(Elements(nodes), subjects);
    var left := placed.value.subjects.Keys;
    while left != {}
      invariant left <= placed.value.subjects.Keys
      decreases left
    {
      var n :| n in left;
      var ok := ValidateSubjectsPerNode(placed.value.subjects[n]);
      assert ok;  // so the re-validation never raises
      left := left - {n};
    }
    return Ok(placed.value.subjects);
  }

  /** Planning the same subjects over two listings of the same registry gives the same result. */
  method PlanIgnoresRegistryOrder(a: seq<NodeInfo>, b: seq<NodeInfo>, subjects: seq<Subject>)
    returns (first: Result<map<NodeId, seq<Subject>>>, second: Result<map<NodeId, seq<Subject>>>)
    requires UniqueIds(Elements(a)) && Elements(b) == Elements(a)
    ensures first == second == PlanFor(Elements(a), subjects)
  {
    first := PlanSubjectAssignments(a, subjects);
    second := PlanSubjectAssignments(b, subjects);
  }

  lemma {:induction false} RejectionPersists(nodes: set<NodeInfo>, subjects: seq<Subject>, i: nat)
    requires i <= |subjects| && PlaceAll(nodes, subjects[..i]).Rejected?
    ensures PlaceAll(nodes, subjects).Rejected?
    decreases |subjects|
  {
    if i < |subjects| {
      assert subjects[..|subjects| - 1][..i] == subjects[..i];
      RejectionPersists(nodes, subjects[..|subjects| - 1], i);
    } else {
      assert subjects[..i] == subjects;
    }
  }
}
