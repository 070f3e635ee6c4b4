/** What every run of the initialization barrier keeps, and what follows from it. */
module InitializationSafety {
  import opened Wrappers
  import opened Initialization
  import Planner

  // ---------------------------------------------------------------- terminal events

  lemma EmittedOneMore(terminal: seq<Terminal>, t: Terminal, id: nat)
    ensures Emitted(terminal + [t], id) == Emitted(terminal, id) + (if t.id == id then 1 else 0)
  {
    assert (terminal + [t])[..|terminal|] == terminal;
  }

  lemma FinishTerminal(m: Master, success: bool)
    requires MasterOk(m) && TerminalOk(m) && m.pending.Some?
    ensures TerminalOk(Finish(m, success))
  {
    forall id: nat
      ensures Emitted(Finish(m, success).terminal, id) == if id in m.accepted then 1 else 0
    {
      EmittedOneMore(m.terminal, Terminal(m.pending.value.id, success), id);
    }
  }

  // ---------------------------------------------------------------- Begin

  lemma BeginKeepsMaster(m: Master, correlation: string, request: Option<(IdPlan, Assignment)>, registered: set<NodeId>)
    requires MasterOk(m) && TerminalOk(m) && (request.Some? ==> Matches(request.value.0, request.value.1))
    ensures var m' := Begin(m, correlation, request, registered);
            MasterOk(m') && TerminalOk(m') && (m' != m ==> Members(m') <= registered)
  {
    var m' := Begin(m, correlation, request, registered);
    if m' != m {
      var r := m'.pending.value;
      forall n | n in r.expected ensures Distinct(r.plan[n]) && Elements(r.plan[n]) == Assigned(r.requested, n) {
      }
    }
  }

  lemma BeginKeepsNodes(m: Master, correlation: string, request: Option<(IdPlan, Assignment)>, nodes: map<NodeId, Node>)
    requires NodesOk(m, nodes)
    ensures NodesOk(Begin(m, correlation, request, nodes.Keys), nodes)
  {
    var m' := Begin(m, correlation, request, nodes.Keys);
    if m' != m {
      forall n | n in nodes ensures NodeOk(m', n, nodes[n]) {
        assert n !in m'.pending.value.expected ==> Assigned(m.registry, n) == {};
        BegunNode(m, m', n, nodes[n]);
      }
    }
  }

  lemma BeginKeeps(s: System, correlation: string, request: Option<(IdPlan, Assignment)>)
    requires Inv(s)
    ensures Inv(Next(s, BeginInit(correlation, request)))
  {
    if request.Some? ==> Matches(request.value.0, request.value.1) {
      BeginKeepsMaster(s.m, correlation, request, s.nodes.Keys);
      BeginKeepsNodes(s.m, correlation, request, s.nodes);
    }
  }

  /** A new initialization finds a node with nothing of an unsettled one on its way. */
  lemma BegunNode(m: Master, m': Master, n: NodeId, x: Node)
    requires NodeOk(m, n, x) && Idle(m) && m.sending.None?
    requires m'.pending.Some? && m'.pending.value.id == m.nextId < m'.nextId && m'.recovery.None? && m'.pending.value.replies == map[]
    requires m'.sending.Some? && m'.sending.value.id == m.nextId
    requires n !in m'.pending.value.expected ==> Assigned(m.registry, n) == {}
    ensures NodeOk(m', n, x)
  {
    assert CurrentId(m) == None && NoInit(x.down);
  }

  // ---------------------------------------------------------------- dispatch

  function Sent(m: Master, n: NodeId): Master
    requires m.sending.Some?
  {
    m.(sending := Some(m.sending.value.(remaining := m.sending.value.remaining - {n})))
  }

  function Given(m: Master, n: NodeId, x: Node): Node
    requires m.sending.Some? && n in m.sending.value.plan
  {
    var d := m.sending.value;
    x.(down := x.down + [Init(d.id, d.correlation, d.plan[n])])
  }

  /** The node that is sent its configuration had none on its way and did not reply to it. */
  lemma GivenKeepsInits(m: Master, n: NodeId, x: Node)
    requires MasterOk(m) && NodeOk(m, n, x) && !Idle(m) && m.sending.Some?
    requires n in m.sending.value.remaining && n in m.sending.value.plan
    ensures InitsCurrent(Sent(m, n), n, Given(m, n, x))
  {
    var y := Given(m, n, x);
    assert NoInit(x.down);
    assert y.down[|x.down| + 1..] == [];
  }

  lemma GivenKeepsRecovery(m: Master, n: NodeId, x: Node)
    requires MasterOk(m) && NodeOk(m, n, x) && m.sending.Some? && n in m.sending.value.plan
    ensures RecoveryOk(Sent(m, n), n, Given(m, n, x))
  {
    assert ReportsCleaned(Given(m, n, x), 0) == ReportsCleaned(x, 0);
  }

  lemma GivenKeepsPending(m: Master, n: NodeId, x: Node)
    requires MasterOk(m) && NodeOk(m, n, x) && m.sending.Some?
    requires n in m.sending.value.remaining && n in m.sending.value.plan
    ensures PendingOk(Sent(m, n), n, Given(m, n, x)) && UnsentOk(Sent(m, n), n, Given(m, n, x))
  {
    assert forall id :: ReportsInstalled(Given(m, n, x), id) == ReportsInstalled(x, id);
  }

  lemma SendKeepsNode(m: Master, n: NodeId, k: NodeId, x: Node)
    requires MasterOk(m) && NodeOk(m, k, x) && !Idle(m) && m.sending.Some?
    requires n in m.sending.value.remaining && n in m.sending.value.plan
    ensures NodeOk(Sent(m, n), k, if k == n then Given(m, n, x) else x)
  {
    if k == n {
      GivenKeepsInits(m, n, x);
      GivenKeepsRecovery(m, n, x);
      GivenKeepsPending(m, n, x);
    }
  }

  lemma SendKeepsNodes(m: Master, n: NodeId, nodes: map<NodeId, Node>)
    requires MasterOk(m) && NodesOk(m, nodes) && !Idle(m) && m.sending.Some?
    requires n in m.sending.value.remaining && n in m.sending.value.plan
    ensures var d := m.sending.value; NodesOk(Sent(m, n), Enqueue(nodes, {n}, Init(d.id, d.correlation, d.plan[n])))
  {
    var d := m.sending.value;
    var nodes' := Enqueue(nodes, {n}, Init(d.id, d.correlation, d.plan[n]));
    forall k | k in nodes' ensures NodeOk(Sent(m, n), k, nodes'[k]) {
      SendKeepsNode(m, n, k, nodes[k]);
    }
  }

  lemma SendKeepsMaster(m: Master, n: NodeId)
    requires MasterOk(m) && TerminalOk(m) && m.sending.Some? && n in m.sending.value.remaining
    ensures MasterOk(Sent(m, n)) && TerminalOk(Sent(m, n)) && !Idle(m)
  {
    assert n in Members(m);
  }

  lemma SendKeeps(s: System, n: NodeId)
    requires Inv(s)
    ensures Inv(Next(s, Send(n)))
  {
    if s.m.sending.Some? && n in s.m.sending.value.remaining && n in s.m.sending.value.plan {
      SendKeepsMaster(s.m, n);
      SendKeepsNodes(s.m, n, s.nodes);
    }
  }

  /** A node does not notice that a dispatch loop has ended. */
  lemma EndOfSendsKeepsNode(m: Master, n: NodeId, x: Node)
    requires NodeOk(m, n, x)
    ensures NodeOk(m.(sending := None), n, x)
  {
  }

  lemma SendsDoneKeeps(s: System)
    requires Inv(s)
    ensures Inv(Next(s, SendsDone))
  {
    if s.m.sending.Some? {
      forall n | n in s.nodes ensures NodeOk(s.m.(sending := None), n, s.nodes[n]) {
        EndOfSendsKeepsNode(s.m, n, s.nodes[n]);
      }
    }
  }

  // ---------------------------------------------------------------- Finish

  lemma FailureKeeps(s: System)
    requires Inv(s) && s.m.pending.Some?
    ensures Inv(s.(m := Finish(s.m, false)))
    ensures Inv(s.(m := Finish(s.m, false).(sending := None)))
  {
    FinishTerminal(s.m, false);
    FailureKeepsNodes(s.m, s.nodes);
  }

  lemma FailureKeepsNodes(m: Master, nodes: map<NodeId, Node>)
    requires NodesOk(m, nodes) && m.pending.Some?
    ensures NodesOk(Finish(m, false), nodes) && NodesOk(Finish(m, false).(sending := None), nodes)
  {
    forall n | n in nodes
      ensures NodeOk(Finish(m, false), n, nodes[n]) && NodeOk(Finish(m, false).(sending := None), n, nodes[n])
    {
      FailureKeepsNode(m, n, nodes[n]);
      EndOfSendsKeepsNode(Finish(m, false), n, nodes[n]);
    }
  }

  lemma FailureKeepsNode(m: Master, n: NodeId, x: Node)
    requires NodeOk(m, n, x) && m.pending.Some?
    ensures NodeOk(Finish(m, false), n, x)
  {
  }

  lemma ExpireKeeps(s: System, id: nat)
    requires Inv(s)
    ensures Inv(s.(m := Expire(s.m, id)))
  {
    if s.m.pending.Some? && s.m.pending.value.id == id {
      FailureKeeps(s);
    }
  }

  lemma SendFailsKeeps(s: System)
    requires Inv(s)
    ensures Inv(Next(s, SendFails))
  {
    if s.m.sending.Some? {
      if s.m.pending.Some? {
        FailureKeeps(s);
      } else {
        forall n | n in s.nodes ensures NodeOk(s.m.(sending := None), n, s.nodes[n]) {
          EndOfSendsKeepsNode(s.m, n, s.nodes[n]);
        }
      }
    }
  }

  /** Every node holds exactly what the registry assigns to it. */
  ghost predicate Exact(s: System) {
    forall n :: n in s.nodes ==> s.nodes[n].installed == Assigned(s.m.registry, n)
  }

  /** When the last participant confirms, ownership is exact. */
  lemma SuccessKeeps(s: System, last: NodeId)
    requires Inv(s) && s.m.pending.Some? && last in s.nodes && last in s.m.pending.value.expected
    requires s.m.pending.value.expected <= s.m.pending.value.replies.Keys + {last}
    requires var x, r := s.nodes[last], s.m.pending.value;
             && x.installed == Elements(r.plan[last]) && NoInit(x.down)
             && (s.m.sending.Some? ==> last !in s.m.sending.value.remaining)
    ensures Inv(s.(m := Finish(s.m, true))) && Exact(s.(m := Finish(s.m, true)))
  {
    FinishTerminal(s.m, true);
    NothingLeftToSend(s.m, s.nodes, last);
    SuccessKeepsNodes(s.m, s.nodes, last);
  }

  lemma NothingLeftToSend(m: Master, nodes: map<NodeId, Node>, last: NodeId)
    requires MasterOk(m) && NodesOk(m, nodes) && m.pending.Some? && Members(m) <= nodes.Keys
    requires m.pending.value.expected <= m.pending.value.replies.Keys + {last}
    requires m.sending.Some? ==> last !in m.sending.value.remaining
    ensures m.sending.Some? ==> m.sending.value.remaining == {}
  {
    if m.sending.Some? {
      forall n | n in m.pending.value.expected ensures n !in m.sending.value.remaining {
        assert NodeOk(m, n, nodes[n]);
      }
    }
  }

  lemma SuccessKeepsNodes(m: Master, nodes: map<NodeId, Node>, last: NodeId)
    requires MasterOk(m) && NodesOk(m, nodes) && m.pending.Some? && last in nodes && last in m.pending.value.plan
    requires m.pending.value.expected <= m.pending.value.replies.Keys + {last}
    requires nodes[last].installed == Elements(m.pending.value.plan[last]) && NoInit(nodes[last].down)
    requires m.sending.Some? ==> m.sending.value.remaining == {}
    ensures NodesOk(Finish(m, true), nodes)
    ensures forall n :: n in nodes ==> nodes[n].installed == Assigned(m.pending.value.requested, n)
  {
    forall n | n in nodes
      ensures NodeOk(Finish(m, true), n, nodes[n]) && nodes[n].installed == Assigned(m.pending.value.requested, n)
    {
      SuccessKeepsNode(m, n, nodes[n], last);
    }
  }

  lemma SuccessKeepsNode(m: Master, n: NodeId, x: Node, last: NodeId)
    requires MasterOk(m) && NodeOk(m, n, x) && m.pending.Some?
    requires n in m.pending.value.expected ==> n in m.pending.value.replies || n == last
    requires n == last ==> last in m.pending.value.plan && x.installed == Elements(m.pending.value.plan[last]) && NoInit(x.down)
    requires m.sending.Some? ==> m.sending.value.remaining == {}
    ensures NodeOk(Finish(m, true), n, x) && x.installed == Assigned(m.pending.value.requested, n)
  {
    var r := m.pending.value;
    assert n !in r.plan ==> forall k :: k in r.requested ==> r.requested[k] != n;
    assert x.installed == Assigned(r.requested, n);
    assert NoInit(x.down);
  }

  // ---------------------------------------------------------------- the master receives

  /** Losing, or taking, the oldest event of a node. */
  lemma PopEventKeeps(m: Master, n: NodeId, x: Node)
    requires NodeOk(m, n, x) && x.up != []
    ensures NodeOk(m, n, x.(up := x.up[1..]))
  {
    var y := x.(up := x.up[1..]);
    assert forall k :: 0 <= k < |y.up| ==> y.up[k] == x.up[k + 1];
    if m.pending.Some? && ReportsInstalled(y, m.pending.value.id) {
      assert ReportsInstalled(x, m.pending.value.id);
    }
    if m.sending.Some? && ReportsInstalled(y, m.sending.value.id) {
      assert ReportsInstalled(x, m.sending.value.id);
    }
  }

  lemma LoseEventKeeps(s: System, n: NodeId)
    requires Inv(s)
    ensures Inv(Next(s, LoseEvent(n)))
  {
    if n in s.nodes && s.nodes[n].up != [] {
      PopEventKeeps(s.m, n, s.nodes[n]);
    }
  }

  /** What the master knows of the sender when it takes an Installed reply to the pending initialization. */
  lemma ReplyFacts(s: System, n: NodeId)
    requires Inv(s) && s.m.pending.Some? && n in s.nodes && s.nodes[n].up != []
    requires s.nodes[n].up[0].Installed? && s.nodes[n].up[0].id == s.m.pending.value.id
    ensures var x, r := s.nodes[n], s.m.pending.value;
            && n in r.plan && x.up[0].reported == r.plan[n] && x.installed == Elements(r.plan[n])
            && x.recovering.None? && NoInit(x.down) && NoReset(x.down)
            && (s.m.sending.Some? ==> n !in s.m.sending.value.remaining)
  {
    assert NodeOk(s.m, n, s.nodes[n]);
    assert ReportsInstalled(s.nodes[n], s.m.pending.value.id);
  }

  /** The master's state after a reply, in terms of the two ways to finish. */
  lemma ReplyResult(m: Master, n: NodeId, e: Event)
    requires !e.CleanupComplete? && RecordReply(m, n, e) != m
    ensures m.pending.Some? && e.id == m.pending.value.id && n in m.pending.value.expected
    ensures var r, m' := m.pending.value, RecordReply(m, n, e);
            if e.InstallFailed? || n !in r.plan || multiset(e.reported) != multiset(r.plan[n])
            then m' == Finish(m, false)
            else if r.expected <= r.replies.Keys + {n} then m' == Finish(m, true)
            else m' == WithReply(m, n, e.reported)
  {
    var r := m.pending.value;
    if e.Installed? {
      assert r.replies[n := e.reported].Keys == r.replies.Keys + {n};
    }
  }

  function WithReply(m: Master, n: NodeId, reported: seq<SubjectId>): Master
    requires m.pending.Some?
  {
    m.(pending := Some(m.pending.value.(replies := m.pending.value.replies[n := reported])))
  }

  lemma WithReplyKeepsNode(m: Master, n: NodeId, reported: seq<SubjectId>, k: NodeId, x: Node)
    requires m.pending.Some? && NodeOk(m, k, x)
    requires k == n ==>
      && n in m.pending.value.plan && x.installed == Elements(m.pending.value.plan[n])
      && x.recovering.None? && NoInit(x.down) && NoReset(x.down)
      && (m.sending.Some? ==> n !in m.sending.value.remaining)
    ensures NodeOk(WithReply(m, n, reported), k, x)
  {
  }

  lemma WithReplyKeeps(s: System, n: NodeId, reported: seq<SubjectId>)
    requires Inv(s) && s.m.pending.Some? && n in s.nodes
    requires var r, x := s.m.pending.value, s.nodes[n];
             && n in r.plan && multiset(reported) == multiset(r.plan[n])
             && !(r.expected <= r.replies.Keys + {n})
             && x.installed == Elements(r.plan[n]) && x.recovering.None? && NoInit(x.down) && NoReset(x.down)
             && (s.m.sending.Some? ==> n !in s.m.sending.value.remaining)
    ensures Inv(s.(m := WithReply(s.m, n, reported)))
  {
    var r, m' := s.m.pending.value, WithReply(s.m, n, reported);
    assert m'.pending.value.replies.Keys == r.replies.Keys + {n};
    assert RecordOk(m', m'.pending.value);
    WithReplyKeepsNodes(s.m, n, reported, s.nodes);
  }

  lemma WithReplyKeepsNodes(m: Master, n: NodeId, reported: seq<SubjectId>, nodes: map<NodeId, Node>)
    requires NodesOk(m, nodes) && m.pending.Some? && n in nodes && n in m.pending.value.plan
    requires var x := nodes[n];
             x.installed == Elements(m.pending.value.plan[n]) && x.recovering.None? && NoInit(x.down) && NoReset(x.down)
    requires m.sending.Some? ==> n !in m.sending.value.remaining
    ensures NodesOk(WithReply(m, n, reported), nodes)
  {
    forall k | k in nodes ensures NodeOk(WithReply(m, n, reported), k, nodes[k]) {
      WithReplyKeepsNode(m, n, reported, k, nodes[k]);
    }
  }

  lemma ReplyKeeps(s: System, n: NodeId)
    requires Inv(s) && n in s.nodes && s.nodes[n].up != [] && !s.nodes[n].up[0].CleanupComplete?
    ensures Inv(Next(s, MasterReceives(n)))
    ensures RecordReply(s.m, n, s.nodes[n].up[0]) != s.m && Idle(Next(s, MasterReceives(n)).m)
            ==> Exact(Next(s, MasterReceives(n)))
  {
    var m, x, e := s.m, s.nodes[n], s.nodes[n].up[0];
    var t := s.(nodes := s.nodes[n := x.(up := x.up[1..])]);
    PopEventKeeps(m, n, x);
    assert Inv(t);
    if RecordReply(m, n, e) != m {
      ReplyResult(m, n, e);
      var r := m.pending.value;
      if e.InstallFailed? || n !in r.plan || multiset(e.reported) != multiset(r.plan[n]) {
        FailureKeeps(t);
      } else {
        ReplyFacts(s, n);
        if r.expected <= r.replies.Keys + {n} {
          SuccessKeeps(t, n);
        } else {
          WithReplyKeeps(t, n, e.reported);
        }
      }
    }
  }

  lemma CleanupKeeps(s: System, n: NodeId)
    requires Inv(s) && n in s.nodes && s.nodes[n].up != [] && s.nodes[n].up[0].CleanupComplete?
    ensures Inv(Next(s, MasterReceives(n)))
  {
    var m, x := s.m, s.nodes[n];
    var t := s.(nodes := s.nodes[n := x.(up := x.up[1..])]);
    PopEventKeeps(m, n, x);
    var m' := RecordCleanup(m, n, x.up[0].cleanup, x.up[0].ready);
    if m' != m {
      assert NodeOk(m, n, x);
      assert ReportsCleaned(x, m.recovery.value.cleanup.value);
      forall k | k in t.nodes ensures NodeOk(m', k, t.nodes[k]) {
        assert NodeOk(m, k, t.nodes[k]);
      }
    }
  }

  // ---------------------------------------------------------------- nodes

  /** Losing, or taking, the oldest command of a node. */
  lemma PopCommandKeeps(m: Master, n: NodeId, x: Node)
    requires NodeOk(m, n, x) && x.down != []
    ensures NodeOk(m, n, x.(down := x.down[1..]))
  {
    var y := x.(down := x.down[1..]);
    assert forall k :: 0 <= k < |y.down| ==> y.down[k] == x.down[k + 1] && y.down[k + 1..] == x.down[k + 2..];
    PopKeepsPending(m, n, x);
    PopKeepsRecovery(m, n, x);
  }

  lemma PopKeepsPending(m: Master, n: NodeId, x: Node)
    requires PendingOk(m, n, x) && UnsentOk(m, n, x) && x.down != []
    ensures PendingOk(m, n, x.(down := x.down[1..])) && UnsentOk(m, n, x.(down := x.down[1..]))
  {
    var y := x.(down := x.down[1..]);
    assert forall id :: ReportsInstalled(y, id) == ReportsInstalled(x, id);
  }

  lemma PopKeepsRecovery(m: Master, n: NodeId, x: Node)
    requires RecoveryOk(m, n, x) && x.down != []
    ensures RecoveryOk(m, n, x.(down := x.down[1..]))
  {
    var y := x.(down := x.down[1..]);
    assert forall k :: 0 <= k < |y.down| ==> y.down[k] == x.down[k + 1] && y.down[k + 1..] == x.down[k + 2..];
    assert forall c :: ReportsCleaned(y, c) == ReportsCleaned(x, c);
  }

  lemma LoseCommandKeeps(s: System, n: NodeId)
    requires Inv(s)
    ensures Inv(Next(s, LoseCommand(n)))
  {
    if n in s.nodes && s.nodes[n].down != [] {
      PopCommandKeeps(s.m, n, s.nodes[n]);
    }
  }

  /** One more event that reports neither an installation nor a confirmed Reset of interest. */
  lemma PushEventKeeps(m: Master, n: NodeId, x: Node, e: Event)
    requires NodeOk(m, n, x)
    requires e.InstallFailed? ==> e.id < m.nextId
    requires e.CleanupComplete? ==> e.cleanup < m.nextId && !e.ready
    requires !e.Installed?
    ensures NodeOk(m, n, x.(up := x.up + [e]))
  {
    var y := x.(up := x.up + [e]);
    if m.pending.Some? && ReportsInstalled(y, m.pending.value.id) {
      assert ReportsInstalled(x, m.pending.value.id);
    }
    if m.sending.Some? && ReportsInstalled(y, m.sending.value.id) {
      assert ReportsInstalled(x, m.sending.value.id);
    }
  }

  /** A configuration is installed, and its reply sent. */
  lemma InstallKeeps(m: Master, n: NodeId, x: Node)
    requires MasterOk(m) && NodeOk(m, n, x) && x.down != [] && x.down[0].Init?
    requires x.recovering.None?
    ensures NodeOk(m, n, x.(down := x.down[1..], installed := Elements(x.down[0].subjects),
                            up := x.up + [Installed(x.down[0].id, x.down[0].correlation, x.down[0].subjects)]))
  {
    PopCommandKeeps(m, n, x);
    var c := x.down[0];
    var y := x.(down := x.down[1..], installed := Elements(c.subjects),
                up := x.up + [Installed(c.id, c.correlation, c.subjects)]);
    assert NoInit(y.down);
    assert m.sending.Some? ==> n !in m.sending.value.remaining;
    if m.recovery.Some? && m.recovery.value.cleanup.Some? && ReportsCleaned(y, m.recovery.value.cleanup.value) {
      assert ReportsCleaned(x, m.recovery.value.cleanup.value);
    }
  }

  lemma NodeReceivesKeeps(s: System, n: NodeId, outcome: Outcome)
    requires Inv(s)
    ensures Inv(Next(s, NodeReceives(n, outcome)))
  {
    if n in s.nodes && s.nodes[n].down != [] {
      var x, c := s.nodes[n], s.nodes[n].down[0];
      PopCommandKeeps(s.m, n, x);
      var y := x.(down := x.down[1..]);
      if c.Init? {
        if !outcome.Ignore? && (x.recovering.Some? || x.needsReset || outcome.Refuse? || outcome.FailMidway?) {
          PushEventKeeps(s.m, n, y, InstallFailed(c.id, c.correlation));
          assert NodeOk(s.m, n, NodeHandles(y, c, outcome));
        } else if !outcome.Ignore? {
          InstallKeeps(s.m, n, x);
        }
      } else if !c.recover {
        PushEventKeeps(s.m, n, y, CleanupComplete(c.cleanup, false));
      } else if outcome.Install? {
        ResetStartsKeeps(s.m, n, x);
      }
    }
  }

  lemma ResetStartsKeeps(m: Master, n: NodeId, x: Node)
    requires NodeOk(m, n, x) && x.down != [] && x.down[0].Disconnect? && x.down[0].recover
    ensures NodeOk(m, n, NodeDisconnect(x.(down := x.down[1..]), x.down[0], true))
  {
    PopCommandKeeps(m, n, x);
    assert x.down[0] == Disconnect(x.down[0].cleanup, true);
    assert x.down[0 + 1..] == x.down[1..];
  }

  /** The reports of a recovery are no replies, and those that confirm it are about Resets that were waiting. */
  lemma ReportsAre(x: Node, cleared: bool, ready: bool)
    requires x.recovering.Some? && (ready ==> cleared)
    ensures var y := FinishRecovery(x, cleared, ready);
            && (forall id :: ReportsInstalled(y, id) == ReportsInstalled(x, id))
            && (forall c :: ReportsCleaned(y, c) ==> ReportsCleaned(x, c) || (cleared && c in x.recovering.value))
            && (forall k :: 0 <= k < |y.up| ==>
                  if k < |x.up| then y.up[k] == x.up[k]
                  else y.up[k].CleanupComplete? && y.up[k].cleanup in x.recovering.value)
  {
    var y := FinishRecovery(x, cleared, ready);
    var reports := Reports(x.recovering.value, ready);
    assert forall k :: 0 <= k < |y.up| ==> y.up[k] == if k < |x.up| then x.up[k] else reports[k - |x.up|];
    forall id ensures ReportsInstalled(y, id) == ReportsInstalled(x, id) {
      if k :| 0 <= k < |x.up| && x.up[k].Installed? && x.up[k].id == id {
        assert y.up[k] == x.up[k];
      }
    }
  }

  lemma RecoveryEndsKeepsNode(m: Master, n: NodeId, x: Node, cleared: bool, ready: bool)
    requires NodeOk(m, n, x) && x.recovering.Some? && (ready ==> cleared)
    ensures NodeOk(m, n, FinishRecovery(x, cleared, ready))
  {
    ReportsAre(x, cleared, ready);
    var y := FinishRecovery(x, cleared, ready);
    assert PendingOk(m, n, y);
    assert RecoveryOk(m, n, y);
  }

  lemma RecoveryEndsKeeps(s: System, n: NodeId, cleared: bool, ready: bool)
    requires Inv(s)
    ensures Inv(Next(s, RecoveryEnds(n, cleared, ready)))
  {
    if n in s.nodes && s.nodes[n].recovering.Some? && (ready ==> cleared) {
      assert NodeOk(s.m, n, s.nodes[n]);
      RecoveryEndsKeepsNode(s.m, n, s.nodes[n], cleared, ready);
    }
  }

  // ---------------------------------------------------------------- Reset

  lemma ResetKeeps(s: System, recover: bool)
    requires Inv(s)
    ensures Inv(Next(s, Reset(recover)))
  {
    if DisconnectAllowed(s.m) {
      var s' := Next(s, Reset(recover));
      forall n | n in s.nodes ensures NodeOk(s'.m, n, s'.nodes[n]) {
        assert NodeOk(s.m, n, s.nodes[n]);
        ResetKeepsNode(s.m, n, s.nodes[n], recover, n in DisconnectTargets(s.m));
      }
    }
  }

  lemma ResetKeepsNode(m: Master, n: NodeId, x: Node, recover: bool, sent: bool)
    requires MasterOk(m) && NodeOk(m, n, x) && DisconnectAllowed(m)
    ensures NodeOk(DisconnectAll(m, recover), n,
                   if sent then x.(down := x.down + [Disconnect(m.nextId, recover)]) else x)
  {
    var y := if sent then x.(down := x.down + [Disconnect(m.nextId, recover)]) else x;
    var m' := DisconnectAll(m, recover);
    var tail := if sent then [Disconnect(m.nextId, recover)] else [];
    assert forall k :: 0 <= k < |x.down| ==> y.down[k] == x.down[k] && y.down[k + 1..] == x.down[k + 1..] + tail;
    assert InitsCurrent(m', n, y);
    ResetKeepsRecovery(m, n, x, recover, sent);
  }

  function Told(m: Master, x: Node, recover: bool, sent: bool): Node {
    if sent then x.(down := x.down + [Disconnect(m.nextId, recover)]) else x
  }

  lemma ResetKeepsRecovery(m: Master, n: NodeId, x: Node, recover: bool, sent: bool)
    requires MasterOk(m) && NodeOk(m, n, x) && DisconnectAllowed(m)
    ensures RecoveryOk(DisconnectAll(m, recover), n, Told(m, x, recover, sent))
  {
    if m.recovery.Some? && recover {
      NewResetKeepsRecovery(m, n, x, sent);
    } else if m.recovery.Some? && m.recovery.value.cleanup.Some? {
      PlainDisconnectKeepsRecovery(m, n, x, recover, sent);
    }
  }

  /** The id of a new Reset is nowhere yet, and its own command is the last one. */
  lemma NewResetKeepsRecovery(m: Master, n: NodeId, x: Node, sent: bool)
    requires MasterOk(m) && NodeOk(m, n, x) && DisconnectAllowed(m) && m.recovery.Some?
    ensures RecoveryOk(DisconnectAll(m, true), n, Told(m, x, true, sent))
  {
    var y := Told(m, x, true, sent);
    forall k | 0 <= k < |y.down| && y.down[k] == Disconnect(m.nextId, true) ensures NoInit(y.down[k + 1..]) {
      assert k == |x.down| && y.down[k + 1..] == [];
    }
    assert !ReportsCleaned(y, m.nextId);
  }

  /** A disconnection that is no Reset does not bear on the Reset in progress. */
  lemma PlainDisconnectKeepsRecovery(m: Master, n: NodeId, x: Node, recover: bool, sent: bool)
    requires MasterOk(m) && NodeOk(m, n, x) && DisconnectAllowed(m) && !recover
    requires m.recovery.Some? && m.recovery.value.cleanup.Some?
    ensures RecoveryOk(DisconnectAll(m, recover), n, Told(m, x, recover, sent))
  {
    var y, c := Told(m, x, recover, sent), m.recovery.value.cleanup.value;
    forall k | 0 <= k < |y.down| && y.down[k] == Disconnect(c, true) ensures NoInit(y.down[k + 1..]) {
      assert k < |x.down| && x.down[k] == y.down[k] && NoInit(x.down[k + 1..]);
      assert y.down[k + 1..] == x.down[k + 1..] + y.down[|x.down|..];
    }
    assert ReportsCleaned(y, c) == ReportsCleaned(x, c);
  }

  // ---------------------------------------------------------------- every run

  lemma StepKeeps(s: System, step: Step)
    requires Inv(s)
    ensures Inv(Next(s, step))
  {
    match step
    case BeginInit(correlation, request) => BeginKeeps(s, correlation, request);
    case Send(n) => SendKeeps(s, n);
    case SendFails => SendFailsKeeps(s);
    case SendsDone => SendsDoneKeeps(s);
    case TimerFires(id) => ExpireKeeps(s, id);
    case Reset(recover) => ResetKeeps(s, recover);
    case MasterReceives(n) =>
      if n in s.nodes && s.nodes[n].up != [] {
        if s.nodes[n].up[0].CleanupComplete? {
          CleanupKeeps(s, n);
        } else {
          ReplyKeeps(s, n);
        }
      }
    case NodeReceives(n, outcome) => NodeReceivesKeeps(s, n, outcome);
    case RecoveryEnds(n, cleared, ready) => RecoveryEndsKeeps(s, n, cleared, ready);
    case LoseCommand(n) => LoseCommandKeeps(s, n);
    case LoseEvent(n) => LoseEventKeeps(s, n);
  }

  lemma {:induction false} RunKeeps(registered: set<NodeId>, steps: seq<Step>)
    ensures Inv(Run(registered, steps))
  {
    if steps != [] {
      RunKeeps(registered, steps[..|steps| - 1]);
      StepKeeps(Run(registered, steps[..|steps| - 1]), steps[|steps| - 1]);
    }
  }

  /**
   In every run, whenever nothing is pending or being recovered, each node holds only subjects that
   the registry assigns to it, so no subject is configured on two nodes.
   */
  lemma NoSubjectOnTwoNodes(registered: set<NodeId>, steps: seq<Step>)
    ensures var s := Run(registered, steps);
            Idle(s.m) ==>
              && (forall n :: n in s.nodes ==> s.nodes[n].installed <= Assigned(s.m.registry, n))
              && (forall n, k :: n in s.nodes && k in s.nodes && n != k
                    ==> s.nodes[n].installed !! s.nodes[k].installed)
  {
    RunKeeps(registered, steps);
    var s := Run(registered, steps);
    forall n | n in s.nodes ensures NodeOk(s.m, n, s.nodes[n]) {
    }
  }

  /** A step that ends an initialization in success is the master taking a reply. */
  predicate EmitsSuccess(m: Master, m': Master) {
    |m'.terminal| > |m.terminal| && m'.terminal[|m'.terminal| - 1].success
  }

  lemma SuccessNeedsReply(s: System, step: Step)
    requires EmitsSuccess(s.m, Next(s, step).m)
    ensures step.MasterReceives? && step.n in s.nodes && s.nodes[step.n].up != []
    ensures !s.nodes[step.n].up[0].CleanupComplete?
    ensures RecordReply(s.m, step.n, s.nodes[step.n].up[0]) != s.m && Idle(Next(s, step).m) == s.m.recovery.None?
  {
  }

  /** At a successful finish every node holds exactly its assigned subjects. */
  lemma SuccessIsExact(registered: set<NodeId>, steps: seq<Step>, step: Step)
    requires EmitsSuccess(Run(registered, steps).m, Run(registered, steps + [step]).m)
    ensures Exact(Run(registered, steps + [step])) && Idle(Run(registered, steps + [step]).m)
  {
    var s := Run(registered, steps);
    RunKeeps(registered, steps);
    assert (steps + [step])[..|steps|] == steps;
    SuccessNeedsReply(s, step);
    ReplyKeeps(s, step.n);
  }

  /**
   Every accepted initialization emits exactly one terminal event once it is no longer pending;
   while it is, its replies are a proper subset of the required nodes and each confirms its plan;
   pending and recovery never coexist.
   */
  lemma OneTerminalEvent(registered: set<NodeId>, steps: seq<Step>)
    ensures var m := Run(registered, steps).m;
            && (forall id :: id in m.accepted && !(m.pending.Some? && m.pending.value.id == id)
                  ==> Emitted(m.terminal, id) == 1)
            && (forall id :: id !in m.accepted || (m.pending.Some? && m.pending.value.id == id)
                  ==> Emitted(m.terminal, id) == 0)
            && !(m.pending.Some? && m.recovery.Some?)
            && (m.pending.Some? ==>
                  && m.pending.value.replies.Keys < m.pending.value.expected
                  && forall n :: n in m.pending.value.replies ==>
                       Elements(m.pending.value.replies[n]) == Assigned(m.pending.value.requested, n))
  {
    RunKeeps(registered, steps);
    var m := Run(registered, steps).m;
    if m.pending.Some? {
      var r := m.pending.value;
      forall n | n in r.replies ensures Elements(r.replies[n]) == Assigned(r.requested, n) {
        assert Elements(r.plan[n]) == Assigned(r.requested, n);
        forall k ensures k in r.replies[n] <==> k in r.plan[n] {
          assert k in r.replies[n] <==> k in multiset(r.replies[n]);
          assert k in r.plan[n] <==> k in multiset(r.plan[n]);
        }
      }
    }
  }

  // ---------------------------------------------------------------- the planner feeds the barrier

  function SubjectIds(subjects: seq<Planner.Subject>): seq<SubjectId> {
    seq(|subjects|, i requires 0 <= i < |subjects| => subjects[i].id)
  }

  function IdPlanOf(plan: map<NodeId, seq<Planner.Subject>>): IdPlan {
    map n | n in plan :: SubjectIds(plan[n])
  }

  /** A subject of the plan has an owner in it. */
  lemma OwnerExists(p: Planner.Plan, subjects: seq<Planner.Subject>, id: SubjectId)
    requires Planner.Partitions(p, subjects) && id in SubjectIds(subjects)
    ensures exists n :: n in p.subjects && id in SubjectIds(p.subjects[n])
  {
    var i :| 0 <= i < |subjects| && subjects[i].id == id;
    assert Planner.PlacedOnce(p, subjects[i]);
    var n :| n in p.subjects && multiset(p.subjects[n])[subjects[i]] == 1;
    assert subjects[i] in p.subjects[n];
    var k :| 0 <= k < |p.subjects[n]| && p.subjects[n][k] == subjects[i];
    assert SubjectIds(p.subjects[n])[k] == id;
  }

  /** What the planner returns is always a request that the barrier accepts as consistent. */
  lemma PlannedRequestMatches(registry: set<Planner.NodeInfo>, subjects: seq<Planner.Subject>)
    requires Planner.PlanFor(registry, subjects).Ok?
    ensures exists requested: Assignment ::
              && Matches(IdPlanOf(Planner.PlanFor(registry, subjects).value), requested)
              && requested.Keys == Elements(SubjectIds(subjects))
  {
    var nodes := Planner.ExecutionNodes(registry);
    Planner.PlanIsPartition(nodes, subjects);
    var p := Planner.PlaceAll(nodes, subjects).value;
    var all := Elements(SubjectIds(subjects));
    forall id | id in all ensures exists n :: n in p.subjects && id in SubjectIds(p.subjects[n]) {
      OwnerExists(p, subjects, id);
    }
    var requested: Assignment := map id | id in all :: var n :| n in p.subjects && id in SubjectIds(p.subjects[n]); n;
    var ids := IdPlanOf(p.subjects);
    forall n | n in ids ensures Distinct(ids[n]) && Elements(ids[n]) == Assigned(requested, n) {
      PlannedNodeMatches(subjects, p, requested, n);
    }
    assert Matches(ids, requested);
  }

  lemma PlannedNodeMatches(subjects: seq<Planner.Subject>, p: Planner.Plan, requested: Assignment, n: NodeId)
    requires Planner.ValidIds(subjects) && Planner.Partitions(p, subjects) && n in p.subjects
    requires requested.Keys == Elements(SubjectIds(subjects))
    requires forall id :: id in requested ==>
               requested[id] in p.subjects && id in SubjectIds(p.subjects[requested[id]])
    ensures Distinct(SubjectIds(p.subjects[n]))
    ensures Elements(SubjectIds(p.subjects[n])) == Assigned(requested, n)
  {
    var subs := p.subjects[n];
    forall i, j | 0 <= i < j < |subs| ensures subs[i].id != subs[j].id {
      SameIdSameSubject(subjects, subs[i], subs[j]);
      assert Planner.PlacedOnce(p, subs[i]);
      if subs[i] == subs[j] {
        OccursTwice(subs, i, j);
      }
    }
    forall id | id in SubjectIds(subs) ensures id in requested && requested[id] == n {
      var i :| 0 <= i < |subs| && subs[i].id == id;
      InSubjectIds(subjects, subs[i]);
      var m := requested[id];
      var k :| 0 <= k < |p.subjects[m]| && SubjectIds(p.subjects[m])[k] == id;
      SameIdSameSubject(subjects, subs[i], p.subjects[m][k]);
      assert Planner.PlacedOnce(p, subs[i]);
      assert subs[i] in p.subjects[m] && subs[i] in p.subjects[n];
    }
  }

  lemma InSubjectIds(subjects: seq<Planner.Subject>, s: Planner.Subject)
    requires s in subjects
    ensures s.id in SubjectIds(subjects)
  {
    var i :| 0 <= i < |subjects| && subjects[i] == s;
    assert SubjectIds(subjects)[i] == s.id;
  }

  lemma OccursTwice(subs: seq<Planner.Subject>, i: nat, j: nat)
    requires i < j < |subs| && subs[i] == subs[j]
    ensures multiset(subs)[subs[i]] >= 2
  {
    var front, back := subs[..j], subs[j..];
    assert subs == front + back;
    assert front[i] == subs[i] && back[0] == subs[i];
  }

  lemma SameIdSameSubject(subjects: seq<Planner.Subject>, a: Planner.Subject, b: Planner.Subject)
    requires Planner.ValidIds(subjects) && a in subjects && b in subjects
    ensures a.id == b.id ==> a == b
  {
    var i :| 0 <= i < |subjects| && subjects[i] == a;
    var j :| 0 <= j < |subjects| && subjects[j] == b;
  }
}
