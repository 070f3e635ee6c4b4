/**
 What the initialization barrier does when it is its turn: whom a Reset reaches, how an initialization ends,
 and that neither success nor the end of a recovery is ever out of reach.
 */
module InitializationProgress {
  import opened Wrappers
  import opened Initialization
  import InitializationSafety

  function After(s: System, steps: seq<Step>): System {
    if steps == [] then s else Next(After(s, steps[..|steps| - 1]), steps[|steps| - 1])
  }

  lemma AfterOne(s: System, steps: seq<Step>, step: Step)
    ensures After(s, steps + [step]) == Next(After(s, steps), step)
  {
    assert (steps + [step])[..|steps|] == steps;
  }

  lemma {:induction false} AfterBoth(s: System, a: seq<Step>, b: seq<Step>)
    ensures After(s, a + b) == After(After(s, a), b)
  {
    if b == [] {
      assert a + b == a;
    } else {
      AfterBoth(s, a, b[..|b| - 1]);
      assert (a + b)[..|a + b| - 1] == a + b[..|b| - 1];
    }
  }

  // ---------------------------------------------------------------- whom a Reset reaches

  /** A participant of the recovery, an owner in the registry, or the master when nothing is owned. */
  ghost predicate MustBeTold(m: Master, n: NodeId) {
    || (m.recovery.Some? && n in m.recovery.value.participants)
    || (exists subject :: subject in m.registry && m.registry[subject] == n)
    || (m.registry == map[] && n == MASTER)
  }

  /** A Disconnect All is refused while an initialization is pending or being sent, and otherwise told to exactly these nodes. */
  lemma ResetReaches(s: System, recover: bool, n: NodeId)
    requires n in s.nodes
    ensures var s' := Next(s, Reset(recover));
            && (s.m.pending.Some? || s.m.sending.Some? ==> s' == s)
            && (s.m.pending.None? && s.m.sending.None? ==>
                  && n in s'.nodes
                  && s'.nodes[n] == s.nodes[n].(down := s'.nodes[n].down)
                  && s'.nodes[n].down == s.nodes[n].down + if MustBeTold(s.m, n) then [Disconnect(s.m.nextId, recover)] else [])
  {
  }

  /** A recovering one opens a new round of confirmations under its own id. */
  lemma ResetOpensRound(s: System)
    requires s.m.pending.None? && s.m.sending.None? && s.m.recovery.Some?
    ensures var m' := Next(s, Reset(true)).m;
            m' == s.m.(nextId := s.m.nextId + 1, recovery := Some(s.m.recovery.value.(cleanup := Some(s.m.nextId), cleaned := {})))
  {
  }

  // ---------------------------------------------------------------- how an initialization ends

  /** What a failed initialization leaves: nothing owned, and every participant to be recovered. */
  ghost predicate FailedFrom(m: Master, m': Master, r: Record) {
    && m'.pending.None? && m'.registry == map[]
    && m'.recovery == Some(Recovery(r.id, r.expected, None, {}))
    && m'.terminal == m.terminal + [Terminal(r.id, false)]
  }

  /** The timer of the pending initialization, and an error of its dispatch loop, fail it; any other timer does nothing. */
  lemma TimerFails(s: System, id: nat)
    ensures if s.m.pending.Some? && s.m.pending.value.id == id then FailedFrom(s.m, Next(s, TimerFires(id)).m, s.m.pending.value)
            else Next(s, TimerFires(id)) == s
  {
  }

  lemma SendErrorFails(s: System)
    requires s.m.sending.Some?
    ensures var m' := Next(s, SendFails).m;
            && m'.sending.None?
            && if s.m.pending.Some? && s.m.pending.value.id == s.m.sending.value.id then FailedFrom(s.m, m', s.m.pending.value)
               else m' == s.m.(sending := None)
  {
  }

  /** A reply counts when it answers the pending initialization under its correlation, from a node that has not replied. */
  predicate Counts(m: Master, n: NodeId, e: Event)
    requires !e.CleanupComplete?
  {
    && m.pending.Some?
    && e.id == m.pending.value.id && e.correlation == m.pending.value.correlation
    && n in m.pending.value.expected && n !in m.pending.value.replies
  }

  /** It confirms when it reports exactly the planned subjects. */
  predicate Confirms(m: Master, n: NodeId, e: Event)
    requires m.pending.Some?
  {
    e.Installed? && n in m.pending.value.plan && multiset(e.reported) == multiset(m.pending.value.plan[n])
  }

  /**
   A reply that does not count changes nothing; one that does not confirm fails the initialization; one that
   confirms is recorded, or completes it when it is the last.
   */
  lemma ReplyEnds(m: Master, n: NodeId, e: Event)
    requires !e.CleanupComplete?
    ensures !Counts(m, n, e) ==> RecordReply(m, n, e) == m
    ensures Counts(m, n, e) && !Confirms(m, n, e) ==>
              FailedFrom(m, RecordReply(m, n, e), m.pending.value) && RecordReply(m, n, e).sending == m.sending
    ensures Counts(m, n, e) && Confirms(m, n, e) ==>
              var r, m' := m.pending.value, RecordReply(m, n, e);
              if r.expected <= r.replies.Keys + {n} then
                m' == m.(pending := None, registry := r.requested, terminal := m.terminal + [Terminal(r.id, true)])
              else m' == m.(pending := Some(r.(replies := r.replies[n := e.reported])))
  {
    if Counts(m, n, e) {
      var r := m.pending.value;
      assert r.replies[n := if e.Installed? then e.reported else []].Keys == r.replies.Keys + {n};
    }
  }

  /** Exactly when an initialization is accepted, and with which participants and plans. */
  lemma BeginAccepts(m: Master, correlation: string, plan: IdPlan, requested: Assignment, registered: set<NodeId>)
    ensures var m' := Begin(m, correlation, Some((plan, requested)), registered);
            var required := m.registry.Values + requested.Values + {MASTER};
            if m.pending.None? && m.recovery.None? && m.sending.None? && required <= registered then
              && m'.pending.Some? && m'.sending.Some? && m'.registry == m.registry && m'.accepted == m.accepted + {m.nextId}
              && var r, d := m'.pending.value, m'.sending.value;
                 && r.id == d.id == m.nextId < m'.nextId && r.correlation == d.correlation == correlation
                 && r.expected == d.remaining == required == r.plan.Keys && r.plan == d.plan
                 && r.requested == requested && r.replies == map[]
                 && forall n :: n in required ==> r.plan[n] == if n in plan then plan[n] else []
            else m' == m
    ensures Begin(m, correlation, None, registered) == m
  {
  }

  // ---------------------------------------------------------------- what a node does with its commands

  /**
   A node that is recovering or needs a Reset refuses every configuration; so does one that cannot take this
   one, and one that fails midway needs a Reset from then on. Otherwise it holds exactly the subjects sent.
   */
  lemma InstallsExactly(x: Node, id: nat, correlation: string, subjects: seq<SubjectId>, outcome: Outcome)
    ensures var y := NodeHandles(x, Init(id, correlation, subjects), outcome);
            if outcome.Ignore? then y == x
            else if x.recovering.Some? || x.needsReset || outcome.Refuse? then y == x.(up := x.up + [InstallFailed(id, correlation)])
            else if outcome.FailMidway? then y == x.(needsReset := true, up := x.up + [InstallFailed(id, correlation)])
            else
              && y == x.(installed := y.installed, up := x.up + [Installed(id, correlation, subjects)])
              && forall subject :: subject in y.installed <==> subject in subjects
  {
  }

  /** A plain disconnection is reported as no recovery; an admitted Reset waits, with those that wait already, for its end. */
  lemma DisconnectsExactly(x: Node, cleanup: nat, outcome: Outcome)
    ensures NodeHandles(x, Disconnect(cleanup, false), outcome) == x.(up := x.up + [CleanupComplete(cleanup, false)])
    ensures var y := NodeHandles(x, Disconnect(cleanup, true), outcome);
            if outcome != Install then y == x
            else
              && y == x.(recovering := y.recovering) && y.recovering.Some?
              && y.recovering.value == if x.recovering.Some? then x.recovering.value + [cleanup] else [cleanup]
  {
  }

  /** At its end every waiting Reset is told the same; the configuration goes when it was cleared, the need of a Reset when it is ready. */
  lemma RecoveryEndsExactly(x: Node, cleared: bool, ready: bool)
    requires x.recovering.Some? && (ready ==> cleared)
    ensures var y, waiting := FinishRecovery(x, cleared, ready), x.recovering.value;
            && y.recovering.None? && y.down == x.down
            && y.installed == (if cleared then {} else x.installed)
            && (y.needsReset <==> x.needsReset && !ready)
            && |y.up| == |x.up| + |waiting|
            && forall k :: 0 <= k < |y.up| ==>
                 y.up[k] == if k < |x.up| then x.up[k] else CleanupComplete(waiting[k - |x.up|], ready)
  {
  }

  // ---------------------------------------------------------------- draining a channel

  lemma {:induction false} LoseCommands(s: System, n: NodeId, k: nat) returns (steps: seq<Step>)
    requires n in s.nodes && k <= |s.nodes[n].down|
    ensures After(s, steps) == s.(nodes := s.nodes[n := s.nodes[n].(down := s.nodes[n].down[k..])])
  {
    steps := [];
    if k == 0 {
      assert s.nodes[n].down[0..] == s.nodes[n].down;
      assert s.nodes[n := s.nodes[n]] == s.nodes;
    } else {
      var before := LoseCommands(s, n, k - 1);
      AfterOne(s, before, LoseCommand(n));
      assert s.nodes[n].down[k - 1..][1..] == s.nodes[n].down[k..];
      steps := before + [LoseCommand(n)];
    }
  }

  lemma {:induction false} LoseEvents(s: System, n: NodeId, k: nat) returns (steps: seq<Step>)
    requires n in s.nodes && k <= |s.nodes[n].up|
    ensures After(s, steps) == s.(nodes := s.nodes[n := s.nodes[n].(up := s.nodes[n].up[k..])])
  {
    steps := [];
    if k == 0 {
      assert s.nodes[n].up[0..] == s.nodes[n].up;
      assert s.nodes[n := s.nodes[n]] == s.nodes;
    } else {
      var before := LoseEvents(s, n, k - 1);
      AfterOne(s, before, LoseEvent(n));
      assert s.nodes[n].up[k - 1..][1..] == s.nodes[n].up[k..];
      steps := before + [LoseEvent(n)];
    }
  }

  /** With the channel losing what is ahead, a node can take the last command there is. */
  lemma TakeLastCommand(s: System, n: NodeId, outcome: Outcome) returns (steps: seq<Step>)
    requires n in s.nodes && s.nodes[n].down != []
    ensures var x := s.nodes[n];
            After(s, steps) == s.(nodes := s.nodes[n := NodeHandles(x.(down := []), x.down[|x.down| - 1], outcome)])
  {
    var x := s.nodes[n];
    var k := |x.down| - 1;
    var lose := LoseCommands(s, n, k);
    AfterOne(s, lose, NodeReceives(n, outcome));
    assert x.down[k..] == [x.down[k]] && [x.down[k]][1..] == [];
    var z := NodeHandles(x.(down := []), x.down[k], outcome);
    assert s.nodes[n := x.(down := x.down[k..])][n := z] == s.nodes[n := z];
    steps := lose + [NodeReceives(n, outcome)];
  }

  /** And the master can take the last event of a node. */
  lemma TakeLastEvent(s: System, n: NodeId) returns (steps: seq<Step>)
    requires n in s.nodes && s.nodes[n].up != []
    ensures var x := s.nodes[n];
            After(s, steps) == System(MasterHandles(s.m, n, x.up[|x.up| - 1]), s.nodes[n := x.(up := [])])
  {
    var x := s.nodes[n];
    var k := |x.up| - 1;
    var lose := LoseEvents(s, n, k);
    AfterOne(s, lose, MasterReceives(n));
    assert x.up[k..] == [x.up[k]] && [x.up[k]][1..] == [];
    assert s.nodes[n := x.(up := x.up[k..])][n := x.(up := [])] == s.nodes[n := x.(up := [])];
    steps := lose + [MasterReceives(n)];
  }

  // ---------------------------------------------------------------- a recovery can always end

  /** A node with the Reset last in its queue can recover and have its confirmation taken. */
  lemma NodeRecovers(s: System, n: NodeId, c: nat) returns (steps: seq<Step>)
    requires n in s.nodes && s.nodes[n].down != [] && s.nodes[n].down[|s.nodes[n].down| - 1] == Disconnect(c, true)
    ensures var s' := After(s, steps);
            && s'.m == RecordCleanup(s.m, n, c, true)
            && s'.nodes.Keys == s.nodes.Keys
            && forall k :: k in s.nodes && k != n ==> s'.nodes[k] == s.nodes[k]
  {
    var a := TakeLastCommand(s, n, Install);
    var s1 := After(s, a);
    var waiting := s1.nodes[n].recovering.value;
    assert waiting[|waiting| - 1] == c;
    AfterOne(s, a, RecoveryEnds(n, true, true));
    var s2 := Next(s1, RecoveryEnds(n, true, true));
    assert s2.nodes[n].up[|s2.nodes[n].up| - 1] == CleanupComplete(c, true);
    var b := TakeLastEvent(s2, n);
    AfterBoth(s, a + [RecoveryEnds(n, true, true)], b);
    steps := a + [RecoveryEnds(n, true, true)] + b;
  }

  /** Every participant that has not confirmed yet has the Reset last in its queue. */
  ghost predicate Waiting(s: System, c: nat, left: set<NodeId>) {
    && (forall n :: n in left ==> n in s.nodes && s.nodes[n].down != [] && s.nodes[n].down[|s.nodes[n].down| - 1] == Disconnect(c, true))
    && s.m.recovery.Some? && s.m.recovery.value.cleanup == Some(c)
    && s.m.recovery.value.participants - s.m.recovery.value.cleaned == left
  }

  lemma {:induction false} AllRecover(s: System, c: nat, left: set<NodeId>) returns (steps: seq<Step>)
    requires Waiting(s, c, left) && left != {} && s.m.pending.None?
    ensures Idle(After(s, steps).m) && After(s, steps).m.registry == map[]
    decreases |left|
  {
    var n :| n in left;
    var first := NodeRecovers(s, n, c);
    var t := After(s, first);
    if left == {n} {
      steps := first;
    } else {
      assert Waiting(t, c, left - {n}) by {
        OneLess(s.m, n, c, left);
      }
      var rest := AllRecover(t, c, left - {n});
      AfterBoth(s, first, rest);
      steps := first + rest;
    }
  }

  lemma OneLess(m: Master, n: NodeId, c: nat, left: set<NodeId>)
    requires m.recovery.Some? && m.recovery.value.cleanup == Some(c) && n in left && left != {n}
    requires m.recovery.value.participants - m.recovery.value.cleaned == left
    ensures var m' := RecordCleanup(m, n, c, true);
            && m'.pending == m.pending && m'.recovery.Some? && m'.recovery.value.cleanup == Some(c)
            && m'.recovery.value.participants - m'.recovery.value.cleaned == left - {n}
  {
    var k :| k in left && k != n;
  }

  /** Whenever a recovery is outstanding and nothing is being sent, a Reset and what follows it can end the recovery. */
  lemma RecoveryCanEnd(s: System) returns (steps: seq<Step>)
    requires s.m.pending.None? && s.m.sending.None? && s.m.recovery.Some?
    requires s.m.recovery.value.participants <= s.nodes.Keys && s.m.recovery.value.participants != {}
    ensures steps != [] && steps[0] == Reset(true)
    ensures Idle(After(s, steps).m) && After(s, steps).m.registry == map[]
  {
    var c, left := s.m.nextId, s.m.recovery.value.participants;
    var t := Next(s, Reset(true));
    AfterOne(s, [], Reset(true));
    assert [] + [Reset(true)] == [Reset(true)];
    ResetOpensRound(s);
    forall n | n in left ensures n in t.nodes && t.nodes[n].down != [] && t.nodes[n].down[|t.nodes[n].down| - 1] == Disconnect(c, true) {
      ResetReaches(s, true, n);
    }
    var rest := AllRecover(t, c, left);
    AfterBoth(s, [Reset(true)], rest);
    steps := [Reset(true)] + rest;
  }

  /** Whoever is still to be sent a configuration has one in the plan. */
  ghost predicate PlanCovers(m: Master) {
    m.sending.Some? ==> m.sending.value.remaining <= m.sending.value.plan.Keys
  }

  lemma StepCovers(s: System, step: Step)
    requires PlanCovers(s.m)
    ensures PlanCovers(Next(s, step).m)
  {
  }

  lemma {:induction false} RunCovers(registered: set<NodeId>, steps: seq<Step>)
    ensures PlanCovers(Run(registered, steps).m)
  {
    if steps != [] {
      RunCovers(registered, steps[..|steps| - 1]);
      StepCovers(Run(registered, steps[..|steps| - 1]), steps[|steps| - 1]);
    }
  }

  /** The dispatch loop can always go through the nodes that are left and end, with nothing else about the master changed. */
  lemma {:induction false} DispatchEnds(s: System) returns (steps: seq<Step>)
    requires s.m.sending.Some? && PlanCovers(s.m)
    ensures var t := After(s, steps); t.m == s.m.(sending := None) && t.nodes.Keys == s.nodes.Keys
    decreases |s.m.sending.value.remaining|
  {
    if s.m.sending.value.remaining == {} {
      AfterOne(s, [], SendsDone);
      steps := [] + [SendsDone];
    } else {
      var n :| n in s.m.sending.value.remaining;
      AfterOne(s, [], Send(n));
      var rest := DispatchEnds(Next(s, Send(n)));
      AfterBoth(s, [] + [Send(n)], rest);
      steps := [] + [Send(n)] + rest;
    }
  }

  /** So in every run an outstanding recovery can be ended: the dispatch loop, if it still goes on, comes to its end first. */
  lemma RecoveryCanAlwaysEnd(registered: set<NodeId>, before: seq<Step>) returns (more: seq<Step>)
    requires Run(registered, before).m.recovery.Some?
    ensures Idle(After(Run(registered, before), more).m)
    ensures Run(registered, before).m.sending.None? ==> more != [] && more[0] == Reset(true)
  {
    var s := Run(registered, before);
    InitializationSafety.RunKeeps(registered, before);
    assert MasterOk(s.m) && Members(s.m) <= s.nodes.Keys;
    if s.m.sending.None? {
      more := RecoveryCanEnd(s);
    } else {
      RunCovers(registered, before);
      var first := DispatchEnds(s);
      var rest := RecoveryCanEnd(After(s, first));
      AfterBoth(s, first, rest);
      more := first + rest;
    }
  }

  // ---------------------------------------------------------------- an initialization can always succeed

  /** The node takes configurations: it is not recovering and needs no Reset. */
  predicate Ready(x: Node) {
    x.recovering.None? && !x.needsReset
  }

  /** A participant that is still to be sent its configuration can be, can install it, and its reply be taken. */
  lemma NodeInstalls(s: System, n: NodeId) returns (steps: seq<Step>)
    requires n in s.nodes && Ready(s.nodes[n]) && s.m.sending.Some?
    requires n in s.m.sending.value.remaining && n in s.m.sending.value.plan
    ensures var s', d := After(s, steps), s.m.sending.value;
            && s'.m == RecordReply(s.m.(sending := Some(d.(remaining := d.remaining - {n}))), n, Installed(d.id, d.correlation, d.plan[n]))
            && s'.nodes.Keys == s.nodes.Keys && s'.nodes[n].installed == Elements(d.plan[n])
            && forall k :: k in s.nodes && k != n ==> s'.nodes[k] == s.nodes[k]
  {
    var d := s.m.sending.value;
    AfterOne(s, [], Send(n));
    var s1 := Next(s, Send(n));
    assert s1.nodes[n].down == s.nodes[n].down + [Init(d.id, d.correlation, d.plan[n])];
    var a := TakeLastCommand(s1, n, Install);
    var s2 := After(s1, a);
    assert s2.nodes[n].up == s.nodes[n].up + [Installed(d.id, d.correlation, d.plan[n])];
    var b := TakeLastEvent(s2, n);
    AfterBoth(s1, a, b);
    AfterBoth(s, [Send(n)], a + b);
    assert [] + [Send(n)] == [Send(n)];
    steps := [Send(n)] + (a + b);
  }

  /** The participants in `left` are still to be sent their configuration, and all others have confirmed. */
  ghost predicate Halfway(s: System, left: set<NodeId>) {
    && s.m.pending.Some? && s.m.sending.Some?
    && var r, d := s.m.pending.value, s.m.sending.value;
       && d.id == r.id && d.correlation == r.correlation && d.plan == r.plan && r.plan.Keys == r.expected
       && d.remaining == left && left <= r.expected && r.replies.Keys == r.expected - left
       && (forall n :: n in left ==> n in s.nodes && Ready(s.nodes[n]))
       && (forall n :: n in r.expected - left ==> n in s.nodes && s.nodes[n].installed == Elements(r.plan[n]))
  }

  /** Every participant holds its plan, and the registry says what was requested. */
  ghost predicate Done(s: System, r: Record) {
    && s.m.pending.None? && s.m.registry == r.requested
    && s.m.terminal != [] && s.m.terminal[|s.m.terminal| - 1] == Terminal(r.id, true)
    && forall n :: n in r.expected ==> n in s.nodes && n in r.plan && s.nodes[n].installed == Elements(r.plan[n])
  }

  lemma OneMore(s: System, left: set<NodeId>, n: NodeId) returns (steps: seq<Step>)
    requires Halfway(s, left) && n in left
    ensures var t := After(s, steps);
            if left == {n} then Done(t, s.m.pending.value)
            else Halfway(t, left - {n}) && t.m.pending.value.(replies := map[]) == s.m.pending.value.(replies := map[])
  {
    steps := NodeInstalls(s, n);
    var r, d := s.m.pending.value, s.m.sending.value;
    ReplyEnds(s.m.(sending := Some(d.(remaining := d.remaining - {n}))), n, Installed(d.id, d.correlation, d.plan[n]));
    if left != {n} {
      var k :| k in left && k != n;
      assert k in r.expected && k !in r.replies.Keys + {n};
    }
  }

  lemma {:induction false} AllInstall(s: System, left: set<NodeId>) returns (steps: seq<Step>)
    requires Halfway(s, left) && left != {}
    ensures Done(After(s, steps), s.m.pending.value)
    decreases |left|
  {
    var n :| n in left;
    var first := OneMore(s, left, n);
    steps := first;
    if left != {n} {
      var t := After(s, first);
      assert left - {n} != {} by {
        var k :| k in left && k != n;
      }
      var rest := AllInstall(t, left - {n});
      AfterBoth(s, first, rest);
      DoneWhicheverReplies(After(t, rest), t.m.pending.value, s.m.pending.value);
      steps := first + rest;
    }
  }

  lemma DoneWhicheverReplies(s: System, r: Record, r': Record)
    requires r.(replies := map[]) == r'.(replies := map[]) && Done(s, r)
    ensures Done(s, r')
  {
  }

  /**
   From every state without anything unsettled, an initialization whose participants are registered and take
   configurations can be carried through: it ends in success, and each participant holds exactly its plan.
   */
  lemma InitializationCanSucceed(s: System, correlation: string, plan: IdPlan, requested: Assignment) returns (steps: seq<Step>)
    requires Idle(s.m) && s.m.sending.None? && Matches(plan, requested)
    requires forall n :: n in s.m.registry.Values + requested.Values + {MASTER} ==> n in s.nodes && Ready(s.nodes[n])
    ensures var t := After(s, steps);
            && t.m.pending.None? && t.m.registry == requested
            && t.m.terminal != [] && t.m.terminal[|t.m.terminal| - 1] == Terminal(s.m.nextId, true)
            && forall n :: n in s.m.registry.Values + requested.Values + {MASTER} ==>
                 n in t.nodes && t.nodes[n].installed == if n in plan then Elements(plan[n]) else {}
  {
    var required := s.m.registry.Values + requested.Values + {MASTER};
    BeginAccepts(s.m, correlation, plan, requested, s.nodes.Keys);
    var begin := BeginInit(correlation, Some((plan, requested)));
    AfterOne(s, [], begin);
    var t := Next(s, begin);
    assert Halfway(t, required);
    var rest := AllInstall(t, required);
    AfterBoth(s, [begin], rest);
    assert [] + [begin] == [begin];
    steps := [begin] + rest;
  }
}
