/**
 The initialization barrier: the master plans, fans out, collects replies under a timer, and after
 a failure recovers every participant by Reset.

 The master and its nodes form a step system. Each node has a FIFO channel in each direction, and
 a channel may lose its oldest message at any time. The master's own Core is one of the nodes.
 Lock sections of the master are steps; its dispatch loop is one step per participant, so replies,
 the timer and a dispatch error may overtake it. A node's Reset runs in the background between the
 command that starts it and the step that finishes it.
 */
module Initialization {
  import opened Wrappers
  import Planner

  type NodeId = Planner.NodeId
  type SubjectId = string
  type Assignment = map<SubjectId, NodeId>
  type IdPlan = map<NodeId, seq<SubjectId>>

  const MASTER: NodeId := Planner.MASTER

  // ---------------------------------------------------------------- messages

  datatype Command =
    | Init(id: nat, correlation: string, subjects: seq<SubjectId>)
    | Disconnect(cleanup: nat, recover: bool)

  datatype Event =
    | Installed(id: nat, correlation: string, reported: seq<SubjectId>)
    | InstallFailed(id: nat, correlation: string)
    | CleanupComplete(cleanup: nat, ready: bool)

  // ---------------------------------------------------------------- master state

  datatype Record = Record(
    id: nat,
    correlation: string,
    expected: set<NodeId>,
    plan: IdPlan,
    requested: Assignment,
    replies: map<NodeId, seq<SubjectId>>)

  datatype Recovery = Recovery(id: nat, participants: set<NodeId>, cleanup: Option<nat>, cleaned: set<NodeId>)

  /** The dispatch loop of one initialization, while it runs. */
  datatype Sending = Sending(id: nat, correlation: string, plan: IdPlan, remaining: set<NodeId>)

  datatype Terminal = Terminal(id: nat, success: bool)

  /** `accepted` and `terminal` are the history of initializations started and of terminal events emitted. */
  datatype Master = Master(
    registry: Assignment,
    pending: Option<Record>,
    recovery: Option<Recovery>,
    sending: Option<Sending>,
    nextId: nat,
    accepted: set<nat>,
    terminal: seq<Terminal>)

  // ---------------------------------------------------------------- the master's lock sections

  function Assigned(a: Assignment, n: NodeId): set<SubjectId> {
    set s | s in a && a[s] == n
  }

  predicate Distinct<T(==)>(s: seq<T>) {
    forall i, j :: 0 <= i < j < |s| ==> s[i] != s[j]
  }

  /** The plan and the assignment say the same thing. */
  predicate Matches(plan: IdPlan, requested: Assignment) {
    && (forall n :: n in plan ==> Distinct(plan[n]) && Elements(plan[n]) == Assigned(requested, n))
    && (forall s :: s in requested ==> requested[s] in plan)
  }

  function Required(m: Master, requested: Assignment): set<NodeId> {
    m.registry.Values + requested.Values + {MASTER}
  }

  /** `request` is None when a check before the barrier, or the planner, rejects the command. */
  function Begin(m: Master, correlation: string, request: Option<(IdPlan, Assignment)>, registered: set<NodeId>): Master {
    if m.pending.Some? || m.recovery.Some? || m.sending.Some? || request.None? then m
    else
      var (plan, requested) := request.value;
      var required := Required(m, requested);
      if !(required <= registered) then m
      else
        var full := map n | n in required :: if n in plan then plan[n] else [];
        m.(pending := Some(Record(m.nextId, correlation, required, full, requested, map[])),
           sending := Some(Sending(m.nextId, correlation, full, required)),
           nextId := m.nextId + 1,
           accepted := m.accepted + {m.nextId})
  }

  /** Ends the pending initialization; a failure leaves nothing authoritative and waits for Reset. */
  function Finish(m: Master, success: bool): Master
    requires m.pending.Some?
  {
    var r := m.pending.value;
    if success then
      m.(pending := None, registry := r.requested, terminal := m.terminal + [Terminal(r.id, true)])
    else
      m.(pending := None, registry := map[], terminal := m.terminal + [Terminal(r.id, false)],
         recovery := Some(Recovery(r.id, r.expected, None, {})))
  }

  /** The timer of the initialization `id`, or an error of its dispatch loop. */
  function Expire(m: Master, id: nat): Master {
    if m.pending.Some? && m.pending.value.id == id then Finish(m, false) else m
  }

  function RecordReply(m: Master, n: NodeId, e: Event): Master
    requires e.Installed? || e.InstallFailed?
  {
    if m.pending.None? || e.id != m.pending.value.id || e.correlation != m.pending.value.correlation
       || n !in m.pending.value.expected || n in m.pending.value.replies then m
    else
      var r := m.pending.value;
      var r' := r.(replies := r.replies[n := if e.Installed? then e.reported else []]);
      var m' := m.(pending := Some(r'));
      if e.InstallFailed? || n !in r.plan || multiset(e.reported) != multiset(r.plan[n]) then Finish(m', false)
      else if r.expected <= r'.replies.Keys then Finish(m', true)
      else m'
  }

  function RecordCleanup(m: Master, n: NodeId, cleanup: nat, ready: bool): Master {
    if m.recovery.None? || m.recovery.value.cleanup != Some(cleanup)
       || n !in m.recovery.value.participants || !ready then m
    else
      var r := m.recovery.value.(cleaned := m.recovery.value.cleaned + {n});
      if r.participants <= r.cleaned then m.(recovery := None, registry := map[])
      else m.(recovery := Some(r))
  }

  predicate DisconnectAllowed(m: Master) {
    m.pending.None? && m.sending.None?
  }

  function DisconnectTargets(m: Master): set<NodeId> {
    (if m.registry == map[] then {MASTER} else m.registry.Values)
    + (if m.recovery.Some? then m.recovery.value.participants else {})
  }

  function DisconnectAll(m: Master, recover: bool): Master
    requires DisconnectAllowed(m)
  {
    m.(nextId := m.nextId + 1,
       recovery := if m.recovery.Some? && recover
                   then Some(m.recovery.value.(cleanup := Some(m.nextId), cleaned := {}))
                   else m.recovery)
  }

  // ---------------------------------------------------------------- nodes

  /** `recovering` holds the Resets waiting on the recovery in progress. */
  datatype Node = Node(
    installed: set<SubjectId>,
    recovering: Option<seq<nat>>,
    needsReset: bool,
    down: seq<Command>,
    up: seq<Event>)

  datatype Outcome = Install | Refuse | FailMidway | Ignore

  function Fresh(): Node {
    Node({}, None, false, [], [])
  }

  /** Core's init_core, and the reply its message handler sends. */
  function NodeInit(x: Node, c: Command, outcome: Outcome): Node
    requires c.Init?
  {
    if outcome.Ignore? then x
    else if x.recovering.Some? || x.needsReset || outcome.Refuse? then
      x.(up := x.up + [InstallFailed(c.id, c.correlation)])
    else if outcome.FailMidway? then
      x.(needsReset := true, up := x.up + [InstallFailed(c.id, c.correlation)])
    else
      x.(installed := Elements(c.subjects), up := x.up + [Installed(c.id, c.correlation, c.subjects)])
  }

  /** Core's disconnect_all: a recovering Reset starts, or joins the one in progress. */
  function NodeDisconnect(x: Node, c: Command, admitted: bool): Node
    requires c.Disconnect?
  {
    if !c.recover then x.(up := x.up + [CleanupComplete(c.cleanup, false)])
    else if !admitted then x
    else x.(recovering := Some((if x.recovering.Some? then x.recovering.value else []) + [c.cleanup]))
  }

  function Reports(cleanups: seq<nat>, ready: bool): seq<Event> {
    seq(|cleanups|, i requires 0 <= i < |cleanups| => CleanupComplete(cleanups[i], ready))
  }

  /** The recovery ends: the configuration is retired unless it raised, and every waiting Reset is told. */
  function FinishRecovery(x: Node, cleared: bool, ready: bool): Node {
    if x.recovering.None? || (ready && !cleared) then x
    else x.(installed := if cleared then {} else x.installed,
            recovering := None,
            needsReset := x.needsReset && !ready,
            up := x.up + Reports(x.recovering.value, ready))
  }

  // ---------------------------------------------------------------- the step system

  datatype System = System(m: Master, nodes: map<NodeId, Node>)

  datatype Step =
    | BeginInit(correlation: string, request: Option<(IdPlan, Assignment)>)
    | Send(n: NodeId)
    | SendFails
    | SendsDone
    | TimerFires(id: nat)
    | Reset(recover: bool)
    | MasterReceives(n: NodeId)
    | NodeReceives(n: NodeId, outcome: Outcome)
    | RecoveryEnds(n: NodeId, cleared: bool, ready: bool)
    | LoseCommand(n: NodeId)
    | LoseEvent(n: NodeId)

  function Enqueue(nodes: map<NodeId, Node>, targets: set<NodeId>, c: Command): map<NodeId, Node> {
    map n | n in nodes :: if n in targets then nodes[n].(down := nodes[n].down + [c]) else nodes[n]
  }

  function MasterHandles(m: Master, n: NodeId, e: Event): Master {
    match e
    case CleanupComplete(cleanup, ready) => RecordCleanup(m, n, cleanup, ready)
    case _ => RecordReply(m, n, e)
  }

  function NodeHandles(x: Node, c: Command, outcome: Outcome): Node {
    match c
    case Init(_, _, _) => NodeInit(x, c, outcome)
    case Disconnect(_, _) => NodeDisconnect(x, c, outcome.Install?)
  }

  function Next(s: System, step: Step): System {
    var m := s.m;
    match step
    case BeginInit(correlation, request) =>
      if request.Some? && !Matches(request.value.0, request.value.1) then s
      else s.(m := Begin(m, correlation, request, s.nodes.Keys))
    case Send(n) =>
      if m.sending.None? || n !in m.sending.value.remaining || n !in m.sending.value.plan then s
      else
        var d := m.sending.value;
        System(m.(sending := Some(d.(remaining := d.remaining - {n}))),
               Enqueue(s.nodes, {n}, Init(d.id, d.correlation, d.plan[n])))
    case SendFails =>
      if m.sending.None? then s else s.(m := Expire(m, m.sending.value.id).(sending := None))
    case SendsDone =>
      if m.sending.None? || m.sending.value.remaining != {} then s else s.(m := m.(sending := None))
    case TimerFires(id) => s.(m := Expire(m, id))
    case Reset(recover) =>
      if !DisconnectAllowed(m) then s
      else System(DisconnectAll(m, recover),
                  Enqueue(s.nodes, DisconnectTargets(m), Disconnect(m.nextId, recover)))
    case MasterReceives(n) =>
      if n !in s.nodes || s.nodes[n].up == [] then s
      else
        var x := s.nodes[n];
        System(MasterHandles(m, n, x.up[0]), s.nodes[n := x.(up := x.up[1..])])
    case NodeReceives(n, outcome) =>
      if n !in s.nodes || s.nodes[n].down == [] then s
      else
        var x := s.nodes[n];
        s.(nodes := s.nodes[n := NodeHandles(x.(down := x.down[1..]), x.down[0], outcome)])
    case RecoveryEnds(n, cleared, ready) =>
      if n !in s.nodes then s else s.(nodes := s.nodes[n := FinishRecovery(s.nodes[n], cleared, ready)])
    case LoseCommand(n) =>
      if n !in s.nodes || s.nodes[n].down == [] then s
      else s.(nodes := s.nodes[n := s.nodes[n].(down := s.nodes[n].down[1..])])
    case LoseEvent(n) =>
      if n !in s.nodes || s.nodes[n].up == [] then s
      else s.(nodes := s.nodes[n := s.nodes[n].(up := s.nodes[n].up[1..])])
  }

  function Start(registered: set<NodeId>): System {
    System(Master(map[], None, None, None, 0, {}, []), map n | n in registered + {MASTER} :: Fresh())
  }

  function Run(registered: set<NodeId>, steps: seq<Step>): System {
    if steps == [] then Start(registered)
    else Next(Run(registered, steps[..|steps| - 1]), steps[|steps| - 1])
  }

  // ---------------------------------------------------------------- the invariant

  ghost predicate NoInit(down: seq<Command>) {
    forall k :: 0 <= k < |down| ==> !down[k].Init?
  }

  ghost predicate NoReset(down: seq<Command>) {
    forall k :: 0 <= k < |down| ==> !down[k].Disconnect?
  }

  function CurrentId(m: Master): Option<nat> {
    if m.pending.Some? then Some(m.pending.value.id)
    else if m.recovery.Some? then Some(m.recovery.value.id) else None
  }

  function Members(m: Master): set<NodeId> {
    if m.pending.Some? then m.pending.value.expected
    else if m.recovery.Some? then m.recovery.value.participants else {}
  }

  /** Everything that carries an id carries one issued before. */
  ghost predicate IdsIssued(m: Master, x: Node) {
    && (forall k :: 0 <= k < |x.down| ==> (if x.down[k].Init? then x.down[k].id else x.down[k].cleanup) < m.nextId)
    && (forall k :: 0 <= k < |x.up| ==> (if x.up[k].CleanupComplete? then x.up[k].cleanup else x.up[k].id) < m.nextId)
    && (x.recovering.Some? ==> forall k :: 0 <= k < |x.recovering.value| ==> x.recovering.value[k] < m.nextId)
  }

  /** A configuration on its way is the only one, belongs to the unsettled initialization, and nothing follows it while that is pending. */
  ghost predicate InitsCurrent(m: Master, n: NodeId, x: Node) {
    forall k :: 0 <= k < |x.down| && x.down[k].Init? ==>
      && n in Members(m) && CurrentId(m) == Some(x.down[k].id)
      && (m.pending.Some? ==> n in m.pending.value.plan && x.down[k].subjects == m.pending.value.plan[n])
      && NoInit(x.down[k + 1..])
      && (m.pending.Some? ==> NoReset(x.down[k + 1..]))
  }

  ghost predicate ReportsInstalled(x: Node, id: nat) {
    exists k :: 0 <= k < |x.up| && x.up[k].Installed? && x.up[k].id == id
  }

  /** A participant not yet dispatched has neither the configuration nor a reply to it. */
  ghost predicate UnsentOk(m: Master, n: NodeId, x: Node) {
    m.sending.Some? && n in m.sending.value.remaining ==>
      NoInit(x.down) && !ReportsInstalled(x, m.sending.value.id)
      && (m.pending.Some? ==> n !in m.pending.value.replies)
  }

  /** A node that confirmed holds its plan and nothing on the way can change that. */
  ghost predicate PendingOk(m: Master, n: NodeId, x: Node) {
    m.pending.Some? ==>
      var r := m.pending.value;
      && (n !in r.expected ==> x.installed == {})
      && (n in r.replies || ReportsInstalled(x, r.id) ==>
            && n in r.plan && x.installed == Elements(r.plan[n])
            && x.recovering.None? && NoInit(x.down) && NoReset(x.down))
      && (forall k :: 0 <= k < |x.up| && x.up[k].Installed? && x.up[k].id == r.id ==>
            n in r.plan && x.up[k].reported == r.plan[n])
  }

  ghost predicate ReportsCleaned(x: Node, cleanup: nat) {
    CleanupComplete(cleanup, true) in x.up
  }

  /** A node whose Reset is confirmed is empty, and the abandoned configuration is behind it. */
  ghost predicate RecoveryOk(m: Master, n: NodeId, x: Node) {
    m.recovery.Some? ==>
      var r := m.recovery.value;
      && (n !in r.participants ==> x.installed == {})
      && (r.cleanup.Some? ==>
            var c := r.cleanup.value;
            && (forall k :: 0 <= k < |x.down| && x.down[k] == Disconnect(c, true) ==> NoInit(x.down[k + 1..]))
            && (x.recovering.Some? && c in x.recovering.value ==> NoInit(x.down))
            && (n in r.cleaned || ReportsCleaned(x, c) ==> x.installed == {} && NoInit(x.down)))
  }

  predicate Idle(m: Master) {
    m.pending.None? && m.recovery.None?
  }

  ghost predicate IdleOk(m: Master, n: NodeId, x: Node) {
    Idle(m) ==> x.installed <= Assigned(m.registry, n)
  }

  ghost predicate NodeOk(m: Master, n: NodeId, x: Node) {
    IdsIssued(m, x) && InitsCurrent(m, n, x) && UnsentOk(m, n, x)
    && PendingOk(m, n, x) && RecoveryOk(m, n, x) && IdleOk(m, n, x)
  }

  ghost predicate RecordOk(m: Master, r: Record) {
    && r.id < m.nextId && r.id in m.accepted
    && MASTER in r.expected && r.plan.Keys == r.expected
    && r.replies.Keys < r.expected
    && (forall n :: n in r.replies ==> multiset(r.replies[n]) == multiset(r.plan[n]))
    && Matches(r.plan, r.requested)
    && m.registry.Values <= r.expected
  }

  ghost predicate MasterOk(m: Master) {
    && !(m.pending.Some? && m.recovery.Some?)
    && (m.pending.Some? ==> RecordOk(m, m.pending.value))
    && (m.recovery.Some? ==>
          && m.registry == map[] && m.recovery.value.id < m.nextId
          && !(m.recovery.value.participants <= m.recovery.value.cleaned)
          && (m.recovery.value.cleanup.Some? ==> m.sending.None? && m.recovery.value.cleanup.value < m.nextId))
    && (m.sending.Some? ==>
          && m.sending.value.id < m.nextId
          && m.sending.value.remaining <= Members(m)
          && (!Idle(m) ==> CurrentId(m) == Some(m.sending.value.id))
          && (m.pending.Some? ==> m.sending.value.plan == m.pending.value.plan
                                  && m.sending.value.correlation == m.pending.value.correlation))
  }

  /** One terminal event for every initialization accepted, except the one still pending. */
  ghost predicate TerminalOk(m: Master) {
    && (forall id :: id in m.accepted ==> id < m.nextId)
    && forall id :: Emitted(m.terminal, id) ==
                    if id in m.accepted && !(m.pending.Some? && m.pending.value.id == id) then 1 else 0
  }

  function Emitted(terminal: seq<Terminal>, id: nat): nat {
    if terminal == [] then 0
    else Emitted(terminal[..|terminal| - 1], id) + (if terminal[|terminal| - 1].id == id then 1 else 0)
  }

  ghost predicate NodesOk(m: Master, nodes: map<NodeId, Node>) {
    forall n :: n in nodes ==> NodeOk(m, n, nodes[n])
  }

  ghost predicate Inv(s: System) {
    && MasterOk(s.m) && TerminalOk(s.m)
    && Members(s.m) <= s.nodes.Keys
    && NodesOk(s.m, s.nodes)
  }

  // ---------------------------------------------------------------- the program

  /** The master's initialization state, and the lock sections that change it. */
  class InitializationBarrier {
    var registry: Assignment
    var pending: Option<Record>
    var recovery: Option<Recovery>
    var sending: Option<Sending>
    var nextId: nat
    var accepted: set<nat>
    var terminal: seq<Terminal>

    function Abs(): Master
      reads this
    {
      Master(registry, pending, recovery, sending, nextId, accepted, terminal)
    }

    constructor ()
      ensures Abs() == Start({}).m
    {
      registry, pending, recovery, sending := map[], None, None, None;
      nextId, accepted, terminal := 0, {}, [];
    }

    method BeginInitialization(correlation: string, request: Option<(IdPlan, Assignment)>, registered: set<NodeId>)
      modifies this
      ensures Abs() == Begin(old(Abs()), correlation, request, registered)
    {
      if pending.Some? || recovery.Some? || sending.Some? || request.None? {
        return;
      }
      var (plan, requested) := request.value;
      var required := registry.Values + requested.Values + {MASTER};
      var full: IdPlan, left := map[], required;
      while left != {}
        invariant left <= required
        invariant full == map n | n in required - left :: if n in plan then plan[n] else []
        invariant required - left <= registered
        decreases left
      {
        var n :| n in left;
        if n !in registered {
          return;
        }
        full := full[n := if n in plan then plan[n] else []];
        left := left - {n};
      }
      assert required - left == required;
      pending := Some(Record(nextId, correlation, required, full, requested, map[]));
      sending := Some(Sending(nextId, correlation, full, required));
      accepted := accepted + {nextId};
      nextId := nextId + 1;
    }

    method FinishInitialization(success: bool)
      requires pending.Some?
      modifies this
      ensures Abs() == Finish(old(Abs()), success)
    {
      var r := pending.value;
      pending := None;
      if success {
        registry := r.requested;
      } else {
        recovery := Some(Recovery(r.id, r.expected, None, {}));
        registry := map[];
      }
      terminal := terminal + [Terminal(r.id, success)];
    }

    method Expired(id: nat)
      modifies this
      ensures Abs() == Expire(old(Abs()), id)
    {
      if pending.Some? && pending.value.id == id {
        FinishInitialization(false);
      }
    }

    method RecordInitializationReply(n: NodeId, e: Event)
      requires e.Installed? || e.InstallFailed?
      modifies this
      ensures Abs() == RecordReply(old(Abs()), n, e)
    {
      if pending.None? {
        return;
      }
      var r := pending.value;
      if e.id != r.id || e.correlation != r.correlation || n !in r.expected || n in r.replies {
        return;
      }
      r := r.(replies := r.replies[n := if e.Installed? then e.reported else []]);
      pending := Some(r);
      if e.InstallFailed? || n !in r.plan || multiset(e.reported) != multiset(r.plan[n]) {
        FinishInitialization(false);
      } else if r.expected <= r.replies.Keys {
        FinishInitialization(true);
      }
    }

    method RecordInitializationRecovery(n: NodeId, cleanup: nat, ready: bool)
      modifies this
      ensures Abs() == RecordCleanup(old(Abs()), n, cleanup, ready)
    {
      if recovery.None? {
        return;
      }
      var r := recovery.value;
      if r.cleanup != Some(cleanup) || n !in r.participants || !ready {
        return;
      }
      r := r.(cleaned := r.cleaned + {n});
      recovery := Some(r);
      if r.participants <= r.cleaned {
        registry := map[];
        recovery := None;
      }
    }

    /** The Disconnect All command: which nodes are told, under which cleanup id; None when refused. */
    method DispatchDisconnectAll(recover: bool) returns (sent: Option<(nat, set<NodeId>)>)
      modifies this
      ensures sent.Some? <==> DisconnectAllowed(old(Abs()))
      ensures sent.Some? ==>
        && Abs() == DisconnectAll(old(Abs()), recover)
        && sent.value == (old(nextId), DisconnectTargets(old(Abs())))
        && forall n :: n in sent.value.1 <==>
             || (old(recovery).Some? && n in old(recovery).value.participants)
             || (exists subject :: subject in old(registry) && old(registry)[subject] == n)
             || (old(registry) == map[] && n == MASTER)
      ensures sent.None? ==> Abs() == old(Abs())
    {
      if pending.Some? || sending.Some? {
        return None;
      }
      var nodes := registry.Values;
      if registry == map[] {
        nodes := {MASTER};
      }
      if recovery.Some? {
        nodes := nodes + recovery.value.participants;
        if recover {
          recovery := Some(recovery.value.(cleanup := Some(nextId), cleaned := {}));
        }
      }
      assert nodes == DisconnectTargets(old(Abs()));
      sent := Some((nextId, nodes));
      nextId := nextId + 1;
    }
  }
}
