/**
 The official-start barrier: the master's record of a distributed start, and the nodes that take part.

 Messages stay in the network once sent and may be delivered at any time, any number of times, in any
 order, or never. Start session ids are fresh. A node may be started and stopped at any time.
 */
module OfficialStart {
  import opened Wrappers
  import opened StreamPhase

  type NodeId = string

  /** The master's snapshot of one start. */
  datatype Record = Record(
    stamp: Stamp,
    expected: set<NodeId>,
    ready: set<NodeId>,
    readyAnnounced: bool,
    commitDispatched: bool)

  datatype ReadyMessage = ReadyMessage(node: NodeId, session: Option<Session>, stamp: Option<Stamp>, evidence: Evidence)

  datatype CommitMessage = CommitMessage(node: NodeId, session: Session, stamp: Stamp)

  // ---------------------------------------------------------------- the master

  /** `queue` holds the automatic commits decided but not dispatched yet. */
  datatype Master = Master(tracking: map<Session, Record>, queue: seq<Session>)

  /** A new start forgets every earlier one. */
  function CreateRecord(m: Master, session: Session, stamp: Stamp, expected: set<NodeId>): Master {
    m.(tracking := map[session := Record(stamp, expected, {}, false, false)])
  }

  predicate Accepts(m: Master, node: NodeId, session: Option<Session>, stamp: Option<Stamp>) {
    && session.Some? && session.value in m.tracking
    && node in m.tracking[session.value].expected
    && stamp == Some(m.tracking[session.value].stamp)
  }

  function RecordReady(m: Master, node: NodeId, session: Option<Session>, stamp: Option<Stamp>): Master {
    if !Accepts(m, node, session, stamp) then m
    else
      var r := m.tracking[session.value];
      var noted := r.(ready := r.ready + {node});
      if noted.ready == noted.expected && !noted.readyAnnounced then
        Master(m.tracking[session.value := noted.(readyAnnounced := true)], m.queue + [session.value])
      else m.(tracking := m.tracking[session.value := noted])
  }

  predicate MayCommit(m: Master, session: Session) {
    session in m.tracking && m.tracking[session].ready == m.tracking[session].expected
  }

  function MarkCommitted(m: Master, session: Session): Master {
    if !MayCommit(m, session) then m
    else m.(tracking := m.tracking[session := m.tracking[session].(commitDispatched := true)])
  }

  /** One commit for every expected node, with the recorded time stamp. */
  function CommitMessages(m: Master, session: Session): set<CommitMessage> {
    if !MayCommit(m, session) then {}
    else set n | n in m.tracking[session].expected :: CommitMessage(n, session, m.tracking[session].stamp)
  }

  /** The barrier as the master keeps it. */
  class OfficialStartBarrier {
    const self: NodeId
    var tracking: map<Session, Record>
    var queue: seq<Session>

    function Abs(): Master
      reads this
    {
      Master(tracking, queue)
    }

    constructor (self': NodeId)
      ensures self == self' && Abs() == Master(map[], [])
    {
      self, tracking, queue := self', map[], [];
    }

    method CreateOfficialStartRecord(session: Session, stamp: Stamp, expected: set<NodeId>)
      modifies this
      ensures Abs() == CreateRecord(old(Abs()), session, stamp, expected)
    {
      tracking := map[session := Record(stamp, expected, {}, false, false)];
    }

    method RecordOfficialStartEvent(node: NodeId, session: Option<Session>, stamp: Option<Stamp>)
      modifies this
      ensures Abs() == RecordReady(old(Abs()), node, session, stamp)
    {
      if session.None? || session.value !in tracking {
        return;
      }
      var record := tracking[session.value];
      if node !in record.expected || stamp != Some(record.stamp) {
        return;
      }
      record := record.(ready := record.ready + {node});
      if record.ready == record.expected && !record.readyAnnounced {
        record := record.(readyAnnounced := true);
        queue := queue + [session.value];
      }
      tracking := tracking[session.value := record];
    }

    /** The commits to send, in order: one for each expected node, the master's own last. */
    method DispatchOfficialStart(session: Session) returns (sent: seq<CommitMessage>)
      modifies this
      ensures Abs() == MarkCommitted(old(Abs()), session)
      ensures Elements(sent) == CommitMessages(old(Abs()), session)
      ensures forall i, j :: 0 <= i < j < |sent| ==> sent[i] != sent[j] && sent[i].node != self
    {
      sent := [];
      if session !in tracking || tracking[session].ready != tracking[session].expected {
        return;
      }
      var record := tracking[session].(commitDispatched := true);
      tracking := tracking[session := record];
      sent := CommitsFor(record.expected - {self}, session, record.stamp);
      forall i | 0 <= i < |sent| ensures sent[i].node != self {
        assert sent[i] in Elements(sent);
      }
      if self in record.expected {
        var last := CommitMessage(self, session, record.stamp);
        assert Elements(sent + [last]) == Elements(sent) + {last};
        sent := sent + [last];
      } else {
        assert record.expected - {self} == record.expected;
      }
    }
  }

  method CommitsFor(nodes: set<NodeId>, session: Session, stamp: Stamp) returns (sent: seq<CommitMessage>)
    ensures Elements(sent) == set n | n in nodes :: CommitMessage(n, session, stamp)
    ensures forall i, j :: 0 <= i < j < |sent| ==> sent[i] != sent[j]
  {
    sent := [];
    var rest := nodes;
    while rest != {}
      invariant rest <= nodes
      invariant Elements(sent) == set n | n in nodes - rest :: CommitMessage(n, session, stamp)
      invariant forall i, j :: 0 <= i < j < |sent| ==> sent[i] != sent[j]
    {
      var n :| n in rest;
      var c := CommitMessage(n, session, stamp);
      assert c !in Elements(sent);
      assert Elements(sent + [c]) == Elements(sent) + {c};
      rest := rest - {n};
      sent := sent + [c];
    }
  }

  // ---------------------------------------------------------------- the system

  /**
   `snapshots`, `automatic` and `persisted` are history: the expected nodes of every start, the automatic
   commits dispatched, and for which coordinated session each node persisted a sample.
   */
  datatype System = System(
    nodes: map<NodeId, Node>,
    master: Master,
    ready: set<ReadyMessage>,
    commits: set<CommitMessage>,
    snapshots: map<Session, set<NodeId>>,
    automatic: seq<Session>,
    persisted: set<(NodeId, Option<Session>)>)

  function Initial(ids: set<NodeId>): System {
    System(map n | n in ids :: NewNode(), Master(map[], []), {}, {}, map[], [], {})
  }

  datatype Move =
    | Create(session: Session, stamp: Stamp, expected: set<NodeId>)
    | ReceiveReady(message: ReadyMessage)
    | AutomaticCommit
    | ClientCommit(wanted: Session)
    | ReceiveCommit(commit: CommitMessage)
    | Local(node: NodeId, step: Step)

  function Take(w: System, id: NodeId, step: Step): System
    requires id in w.nodes
  {
    var v := w.(nodes := w.nodes[id := StreamPhase.Next(w.nodes[id], step)]);
    match Emitted(w.nodes[id], step)
    case Nothing => v
    case Ready(session, stamp, evidence) => v.(ready := v.ready + {ReadyMessage(id, session, stamp, evidence)})
    case Persisted(coordinated, session) =>
      if coordinated then v.(persisted := v.persisted + {(id, session)}) else v
  }

  function Dispatch(w: System, session: Session): System {
    w.(master := MarkCommitted(w.master, session), commits := w.commits + CommitMessages(w.master, session))
  }

  function After(w: System, move: Move): System {
    match move
    case Create(session, stamp, expected) =>
      if session in w.snapshots then w
      else w.(master := CreateRecord(w.master, session, stamp, expected), snapshots := w.snapshots[session := expected])
    case ReceiveReady(message) =>
      if message !in w.ready then w
      else w.(master := RecordReady(w.master, message.node, message.session, message.stamp))
    case AutomaticCommit =>
      if w.master.queue == [] then w
      else
        var s := w.master.queue[0];
        Dispatch(w.(master := w.master.(queue := w.master.queue[1..]), automatic := w.automatic + [s]), s)
    case ClientCommit(wanted) => Dispatch(w, wanted)
    case ReceiveCommit(commit) =>
      if commit !in w.commits || commit.node !in w.nodes then w
      else Take(w, commit.node, StreamPhase.Commit(Some(commit.session), Some(commit.stamp)))
    case Local(id, step) => if id in w.nodes && !step.Commit? then Take(w, id, step) else w
  }

  function Run(ids: set<NodeId>, moves: seq<Move>): System {
    if moves == [] then Initial(ids) else After(Run(ids, moves[..|moves| - 1]), moves[|moves| - 1])
  }

  // ---------------------------------------------------------------- what every run keeps

  ghost predicate AnnouncedReady(ready: set<ReadyMessage>, node: NodeId, session: Session) {
    exists m :: m in ready && m.node == node && m.session == Some(session)
  }

  /** Every node of the snapshot announced that it is ready for the session. */
  ghost predicate AllReady(w: System, session: Session) {
    session in w.snapshots && forall n :: n in w.snapshots[session] ==> AnnouncedReady(w.ready, n, session)
  }

  ghost predicate RecordOk(w: System, session: Session) {
    && session in w.master.tracking && session in w.snapshots
    && w.master.tracking[session].expected == w.snapshots[session]
    && w.master.tracking[session].ready <= w.snapshots[session]
    && forall n :: n in w.master.tracking[session].ready ==> AnnouncedReady(w.ready, n, session)
  }

  ghost predicate NodeOk(w: System, id: NodeId)
    requires id in w.nodes
  {
    var n := w.nodes[id];
    StreamPhase.Inv(n) && (n.coordinated && n.commit ==> n.session.Some? && AllReady(w, n.session.value))
  }

  ghost predicate MessagesOk(w: System) {
    && (forall s :: s in w.master.tracking ==> RecordOk(w, s))
    && (forall c :: c in w.commits ==> AllReady(w, c.session))
  }

  ghost predicate NodesOk(w: System) {
    && (forall id :: id in w.nodes ==> NodeOk(w, id))
    && (forall p :: p in w.persisted ==> p.1.Some? && AllReady(w, p.1.value))
  }

  /** Every ready message in the network comes with good evidence for its own session. */
  ghost predicate ReadyOk(w: System) {
    forall m :: m in w.ready ==> m.node in w.nodes && m.session == m.evidence.session
                                 && GoodEvidence(m.evidence, w.nodes[m.node].starts)
  }

  /** An automatic commit is decided at most once per record. */
  ghost predicate AutomaticOk(w: System) {
    && (forall s :: multiset(w.automatic + w.master.queue)[s] <= 1)
    && (forall s :: s in w.automatic + w.master.queue ==>
          s in w.snapshots && (s in w.master.tracking ==> w.master.tracking[s].readyAnnounced))
    && w.master.tracking.Keys <= w.snapshots.Keys
  }

  ghost predicate Inv(w: System) {
    MessagesOk(w) && NodesOk(w) && ReadyOk(w) && AutomaticOk(w)
  }

  /** More messages and more snapshots: what was announced stays announced. */
  ghost predicate Grows(w: System, v: System) {
    && w.ready <= v.ready
    && w.snapshots.Keys <= v.snapshots.Keys
    && forall s :: s in w.snapshots ==> v.snapshots[s] == w.snapshots[s]
  }

  lemma AllReadyLasts(w: System, v: System, session: Session)
    requires Grows(w, v) && AllReady(w, session)
    ensures AllReady(v, session)
  {
    forall n | n in v.snapshots[session] ensures AnnouncedReady(v.ready, n, session) {
      assert AnnouncedReady(w.ready, n, session);
    }
  }

  lemma RecordLasts(w: System, v: System, session: Session)
    requires Grows(w, v) && RecordOk(w, session)
    requires session in v.master.tracking && v.master.tracking[session].expected == w.master.tracking[session].expected
    requires v.master.tracking[session].ready == w.master.tracking[session].ready
    ensures RecordOk(v, session)
  {
    forall n | n in v.master.tracking[session].ready ensures AnnouncedReady(v.ready, n, session) {
      assert AnnouncedReady(w.ready, n, session);
    }
  }

  /** A step of the master alone keeps what holds of the nodes. */
  lemma MasterStepKeepsNodes(w: System, v: System)
    requires NodesOk(w) && ReadyOk(w) && Grows(w, v) && v.nodes == w.nodes && v.persisted == w.persisted && v.ready == w.ready
    ensures NodesOk(v) && ReadyOk(v)
  {
    forall id | id in v.nodes ensures NodeOk(v, id) {
      assert NodeOk(w, id);
      var n := w.nodes[id];
      if n.coordinated && n.commit {
        AllReadyLasts(w, v, n.session.value);
      }
    }
    forall p | p in v.persisted ensures p.1.Some? && AllReady(v, p.1.value) {
      AllReadyLasts(w, v, p.1.value);
    }
  }

  lemma CreateKeeps(w: System, session: Session, stamp: Stamp, expected: set<NodeId>)
    requires Inv(w)
    ensures Inv(After(w, Create(session, stamp, expected)))
  {
    var v := After(w, Create(session, stamp, expected));
    if session !in w.snapshots {
      MasterStepKeepsNodes(w, v);
      forall c | c in v.commits ensures AllReady(v, c.session) {
        AllReadyLasts(w, v, c.session);
      }
      assert RecordOk(v, session);
    }
  }

  lemma RecordReadyKeepsRecord(w: System, m: ReadyMessage, s: Session)
    requires Inv(w) && m in w.ready && s in w.master.tracking
    ensures RecordOk(After(w, ReceiveReady(m)), s)
  {
    var v := After(w, ReceiveReady(m));
    assert RecordOk(w, s);
    forall n | n in v.master.tracking[s].ready ensures AnnouncedReady(v.ready, n, s) {
      assert n in w.master.tracking[s].ready ==> AnnouncedReady(w.ready, n, s);
    }
  }

  lemma CountOne<T>(a: seq<T>, b: seq<T>, x: T)
    requires x !in a + b
    ensures forall y :: multiset(a + (b + [x]))[y] == multiset(a + b)[y] + if y == x then 1 else 0
  {
    assert a + (b + [x]) == a + b + [x];
    assert multiset(a + b)[x] == 0;
  }

  lemma RecordReadyKeepsAutomatic(w: System, m: ReadyMessage)
    requires AutomaticOk(w) && m in w.ready
    ensures AutomaticOk(After(w, ReceiveReady(m)))
  {
    var v := After(w, ReceiveReady(m));
    if v.master.queue != w.master.queue {
      var s := m.session.value;
      assert s !in w.automatic + w.master.queue;
      CountOne(w.automatic, w.master.queue, s);
      assert v.automatic + v.master.queue == w.automatic + w.master.queue + [s];
    }
  }

  lemma ReceiveReadyKeeps(w: System, m: ReadyMessage)
    requires Inv(w)
    ensures Inv(After(w, ReceiveReady(m)))
  {
    var v := After(w, ReceiveReady(m));
    if m in w.ready {
      MasterStepKeepsNodes(w, v);
      RecordReadyKeepsAutomatic(w, m);
      forall r | r in v.master.tracking ensures RecordOk(v, r) {
        RecordReadyKeepsRecord(w, m, r);
      }
      forall c | c in v.commits ensures AllReady(v, c.session) {
        AllReadyLasts(w, v, c.session);
      }
    }
  }

  lemma DispatchKeeps(w: System, session: Session)
    requires Inv(w)
    ensures Inv(Dispatch(w, session))
  {
    var v := Dispatch(w, session);
    MasterStepKeepsNodes(w, v);
    forall s | s in v.master.tracking ensures RecordOk(v, s) {
      RecordLasts(w, v, s);
    }
    forall c | c in v.commits ensures AllReady(v, c.session) {
      if c in w.commits {
        AllReadyLasts(w, v, c.session);
      } else {
        assert RecordOk(w, session);
      }
    }
  }

  lemma TakeHeadKeeps(w: System)
    requires Inv(w) && w.master.queue != []
    ensures Inv(w.(master := w.master.(queue := w.master.queue[1..]), automatic := w.automatic + [w.master.queue[0]]))
  {
    var v := w.(master := w.master.(queue := w.master.queue[1..]), automatic := w.automatic + [w.master.queue[0]]);
    assert v.automatic + v.master.queue == w.automatic + w.master.queue;
    MasterStepKeepsNodes(w, v);
    forall s | s in v.master.tracking ensures RecordOk(v, s) {
      RecordLasts(w, v, s);
    }
    forall c | c in v.commits ensures AllReady(v, c.session) {
      AllReadyLasts(w, v, c.session);
    }
  }

  /** A node's own step: a commit must be one that the master sent. */
  ghost predicate Allowed(w: System, step: Step) {
    step.Commit? ==> exists c :: c in w.commits && step.commitSession == Some(c.session)
  }

  lemma TakeGrows(w: System, id: NodeId, step: Step)
    requires id in w.nodes
    ensures var v := Take(w, id, step);
            && Grows(w, v) && v.nodes == w.nodes[id := StreamPhase.Next(w.nodes[id], step)]
            && v.master == w.master && v.commits == w.commits && v.automatic == w.automatic && v.snapshots == w.snapshots
            && (forall m :: m in v.ready && m !in w.ready ==>
                  var e := Emitted(w.nodes[id], step);
                  e.Ready? && m == ReadyMessage(id, e.session, e.stamp, e.evidence))
            && (forall p :: p in v.persisted && p !in w.persisted ==>
                  Emitted(w.nodes[id], step) == Persisted(true, p.1))
  {
  }

  lemma TakeKeepsNode(w: System, id: NodeId, step: Step)
    requires Inv(w) && id in w.nodes && Allowed(w, step)
    ensures NodeOk(Take(w, id, step), id)
  {
    var n, v := w.nodes[id], Take(w, id, step);
    TakeGrows(w, id, step);
    assert NodeOk(w, id);
    StreamPhase.StepKeeps(n, step);
    OnlyCommitCommits(n, step);
    var t := v.nodes[id];
    if t.coordinated && t.commit {
      if step.Commit? && CommitMatches(n, step.commitSession, step.commitStamp) {
        var c :| c in w.commits && step.commitSession == Some(c.session);
        AllReadyLasts(w, v, c.session);
      } else {
        AllReadyLasts(w, v, n.session.value);
      }
    }
  }

  lemma TakeKeepsNodes(w: System, id: NodeId, step: Step)
    requires Inv(w) && id in w.nodes && Allowed(w, step)
    ensures NodesOk(Take(w, id, step))
  {
    var v := Take(w, id, step);
    TakeGrows(w, id, step);
    forall k | k in v.nodes ensures NodeOk(v, k) {
      assert NodeOk(w, k);
      if k == id {
        TakeKeepsNode(w, id, step);
      } else if w.nodes[k].coordinated && w.nodes[k].commit {
        AllReadyLasts(w, v, w.nodes[k].session.value);
      }
    }
    forall p | p in v.persisted ensures p.1.Some? && AllReady(v, p.1.value) {
      assert NodeOk(w, id);
      AllReadyLasts(w, v, if p in w.persisted then p.1.value else w.nodes[id].session.value);
    }
  }

  lemma EvidenceLastsOver(ev: Evidence, n: Node, step: Step)
    requires GoodEvidence(ev, n.starts)
    ensures GoodEvidence(ev, StreamPhase.Next(n, step).starts)
  {
    StartsGrow(n, step);
    EvidenceInLonger(ev, n.starts, StreamPhase.Next(n, step).starts);
  }

  lemma EvidenceInLonger(ev: Evidence, starts: seq<Option<Session>>, longer: seq<Option<Session>>)
    requires GoodEvidence(ev, starts) && starts <= longer
    ensures GoodEvidence(ev, longer)
  {
    assert longer == starts + longer[|starts|..];
    EvidenceLasts(ev, starts, longer[|starts|..]);
  }

  lemma TakeKeepsReady(w: System, id: NodeId, step: Step)
    requires Inv(w) && id in w.nodes
    ensures ReadyOk(Take(w, id, step))
  {
    var n, v := w.nodes[id], Take(w, id, step);
    TakeGrows(w, id, step);
    assert StreamPhase.Inv(n) by {
      assert NodeOk(w, id);
    }
    ReadyIsGood(n, step);
    forall m | m in v.ready
      ensures m.node in v.nodes && m.session == m.evidence.session && GoodEvidence(m.evidence, v.nodes[m.node].starts)
    {
      if m.node == id {
        EvidenceLastsOver(m.evidence, n, step);
      }
    }
  }

  lemma TakeKeeps(w: System, id: NodeId, step: Step)
    requires Inv(w) && id in w.nodes && Allowed(w, step)
    ensures Inv(Take(w, id, step))
  {
    var v := Take(w, id, step);
    TakeGrows(w, id, step);
    TakeKeepsNodes(w, id, step);
    TakeKeepsReady(w, id, step);
    forall s | s in v.master.tracking ensures RecordOk(v, s) {
      RecordLasts(w, v, s);
    }
    forall c | c in v.commits ensures AllReady(v, c.session) {
      AllReadyLasts(w, v, c.session);
    }
  }

  lemma MoveKeeps(w: System, move: Move)
    requires Inv(w)
    ensures Inv(After(w, move))
  {
    match move
    case Create(session, stamp, expected) => CreateKeeps(w, session, stamp, expected);
    case ReceiveReady(message) => ReceiveReadyKeeps(w, message);
    case AutomaticCommit =>
      if w.master.queue != [] {
        TakeHeadKeeps(w);
        DispatchKeeps(w.(master := w.master.(queue := w.master.queue[1..]), automatic := w.automatic + [w.master.queue[0]]),
                      w.master.queue[0]);
      }
    case ClientCommit(wanted) => DispatchKeeps(w, wanted);
    case ReceiveCommit(commit) =>
      if commit in w.commits && commit.node in w.nodes {
        TakeKeeps(w, commit.node, StreamPhase.Commit(Some(commit.session), Some(commit.stamp)));
      }
    case Local(id, step) => if id in w.nodes && !step.Commit? { TakeKeeps(w, id, step); }
  }

  lemma {:induction false} RunKeeps(ids: set<NodeId>, moves: seq<Move>)
    ensures Inv(Run(ids, moves))
  {
    if moves != [] {
      RunKeeps(ids, moves[..|moves| - 1]);
      MoveKeeps(Run(ids, moves[..|moves| - 1]), moves[|moves| - 1]);
    }
  }

  // ---------------------------------------------------------------- what follows for every run

  /**
   No node has persisted a sample for a coordinated session unless every node of that session's snapshot
   has announced that it is ready for it.
   */
  lemma NoSampleBeforeAllReady(ids: set<NodeId>, moves: seq<Move>, id: NodeId, session: Option<Session>)
    requires (id, session) in Run(ids, moves).persisted
    ensures session.Some? && AllReady(Run(ids, moves), session.value)
  {
    RunKeeps(ids, moves);
    assert (id, session).1 == session;
  }

  /** Each of those announcements rests on samples heard by its own node after its own start for that session. */
  lemma ReadinessIsEarned(ids: set<NodeId>, moves: seq<Move>, m: ReadyMessage)
    requires m in Run(ids, moves).ready
    ensures var w := Run(ids, moves);
            m.node in w.nodes && m.session == m.evidence.session && GoodEvidence(m.evidence, w.nodes[m.node].starts)
  {
    RunKeeps(ids, moves);
  }

  /** The automatic commit is dispatched at most once per record. */
  lemma AutomaticCommitOnce(ids: set<NodeId>, moves: seq<Move>, session: Session)
    ensures multiset(Run(ids, moves).automatic)[session] <= 1
  {
    RunKeeps(ids, moves);
    var w := Run(ids, moves);
    assert multiset(w.automatic + w.master.queue) == multiset(w.automatic) + multiset(w.master.queue);
    assert multiset(w.automatic + w.master.queue)[session] <= 1;
  }

  // ---------------------------------------------------------------- the automatic commit is decided, exactly once

  /** Every expected node of the tracked start, and there is one, has been recorded as ready. */
  ghost predicate Complete(m: Master, session: Session) {
    session in m.tracking && m.tracking[session].ready == m.tracking[session].expected != {}
  }

  /** A tracked start has its automatic commit dispatched or queued once if it is complete, and not at all otherwise. */
  ghost predicate DecidedOk(w: System, session: Session) {
    session in w.master.tracking ==>
      && w.master.tracking[session].ready <= w.master.tracking[session].expected
      && (w.master.tracking[session].readyAnnounced <==> Complete(w.master, session))
      && multiset(w.automatic + w.master.queue)[session] == if Complete(w.master, session) then 1 else 0
  }

  ghost predicate AllDecided(w: System) {
    forall s :: s in w.master.tracking ==> DecidedOk(w, s)
  }

  /** The master notes this announcement: the start is tracked, expects the node, and has this stamp. */
  predicate Noted(m: Master, message: ReadyMessage) {
    && message.session.Some? && message.session.value in m.tracking
    && var r := m.tracking[message.session.value];
       message.node in r.expected && message.stamp == Some(r.stamp)
  }

  /**
   An announcement in the network that the master notes adds its node to the ready ones, and queues the
   automatic commit exactly when it is the one that makes the start complete; any other changes nothing.
   */
  lemma AnnouncementIsNoted(w: System, message: ReadyMessage)
    requires message in w.ready && (Noted(w.master, message) ==> DecidedOk(w, message.session.value))
    ensures var m, m' := w.master, After(w, ReceiveReady(message)).master;
            if !Noted(m, message) then m' == m
            else
              var s := message.session.value;
              var r := m.tracking[s];
              && m'.tracking.Keys == m.tracking.Keys && (forall k :: k in m.tracking && k != s ==> m'.tracking[k] == m.tracking[k])
              && m'.tracking[s].ready == r.ready + {message.node}
              && m'.tracking[s].expected == r.expected && m'.tracking[s].stamp == r.stamp
              && m'.queue == if r.ready != r.expected && r.ready + {message.node} == r.expected then m.queue + [s] else m.queue
  {
    if Noted(w.master, message) {
      var r := w.master.tracking[message.session.value];
      assert message.node in r.expected;
    }
  }

  lemma {:induction false} SameCount(w: System, v: System, s: Session)
    requires v.automatic + v.master.queue == w.automatic + w.master.queue && DecidedOk(w, s) && s in w.master.tracking
    requires s in v.master.tracking && v.master.tracking[s].(commitDispatched := false) == w.master.tracking[s].(commitDispatched := false)
    ensures DecidedOk(v, s)
  {
  }

  /** The queue gains `k` at its end, or nothing. */
  lemma CountInLonger(w: System, queue: seq<Session>, k: Session, s: Session)
    requires queue == w.master.queue || queue == w.master.queue + [k]
    ensures multiset(w.automatic + queue)[s] ==
            multiset(w.automatic + w.master.queue)[s] + if queue != w.master.queue && s == k then 1 else 0
  {
    if queue != w.master.queue {
      assert w.automatic + queue == (w.automatic + w.master.queue) + [k];
    }
  }

  lemma NoteKeepsDecided(w: System, message: ReadyMessage, s: Session)
    requires AllDecided(w) && message in w.ready && s in After(w, ReceiveReady(message)).master.tracking
    ensures DecidedOk(After(w, ReceiveReady(message)), s)
  {
    var m, v := w.master, After(w, ReceiveReady(message));
    assert v.automatic == w.automatic;
    if Noted(m, message) {
      var k := message.session.value;
      assert DecidedOk(w, k) && DecidedOk(w, s);
      CountInLonger(w, v.master.queue, k, s);
      var r := m.tracking[k];
      assert v.master.tracking[k].readyAnnounced <==> v.master.tracking[k].ready == r.expected;
    } else {
      assert v.master == m && DecidedOk(w, s);
    }
  }

  lemma CreateKeepsDecided(w: System, session: Session, stamp: Stamp, expected: set<NodeId>)
    requires AutomaticOk(w) && session !in w.snapshots
    ensures AllDecided(After(w, Create(session, stamp, expected)))
  {
    assert session !in w.automatic + w.master.queue;
    assert multiset(w.automatic + w.master.queue)[session] == 0;
  }

  lemma DispatchKeepsDecided(w: System, session: Session)
    requires AllDecided(w)
    ensures AllDecided(Dispatch(w, session))
  {
    forall s | s in Dispatch(w, session).master.tracking ensures DecidedOk(Dispatch(w, session), s) {
      SameCount(w, Dispatch(w, session), s);
    }
  }

  lemma HeadKeepsDecided(w: System)
    requires AllDecided(w) && w.master.queue != []
    ensures AllDecided(w.(master := w.master.(queue := w.master.queue[1..]), automatic := w.automatic + [w.master.queue[0]]))
  {
    var v := w.(master := w.master.(queue := w.master.queue[1..]), automatic := w.automatic + [w.master.queue[0]]);
    assert v.automatic + v.master.queue == w.automatic + w.master.queue;
    forall s | s in v.master.tracking ensures DecidedOk(v, s) {
      SameCount(w, v, s);
    }
  }

  lemma TakeKeepsDecided(w: System, id: NodeId, step: Step)
    requires AllDecided(w) && id in w.nodes
    ensures AllDecided(Take(w, id, step))
  {
    TakeGrows(w, id, step);
    forall s | s in Take(w, id, step).master.tracking ensures DecidedOk(Take(w, id, step), s) {
      SameCount(w, Take(w, id, step), s);
    }
  }

  lemma MoveKeepsDecided(w: System, move: Move)
    requires AutomaticOk(w) && AllDecided(w)
    ensures AllDecided(After(w, move))
  {
    match move
    case Create(session, stamp, expected) => if session !in w.snapshots { CreateKeepsDecided(w, session, stamp, expected); }
    case ReceiveReady(message) =>
      if message in w.ready {
        forall s | s in After(w, move).master.tracking ensures DecidedOk(After(w, move), s) {
          NoteKeepsDecided(w, message, s);
        }
      }
    case AutomaticCommit =>
      if w.master.queue != [] {
        HeadKeepsDecided(w);
        DispatchKeepsDecided(w.(master := w.master.(queue := w.master.queue[1..]), automatic := w.automatic + [w.master.queue[0]]),
                             w.master.queue[0]);
      }
    case ClientCommit(wanted) => DispatchKeepsDecided(w, wanted);
    case ReceiveCommit(commit) =>
      if commit in w.commits && commit.node in w.nodes {
        TakeKeepsDecided(w, commit.node, StreamPhase.Commit(Some(commit.session), Some(commit.stamp)));
      }
    case Local(id, step) => if id in w.nodes && !step.Commit? { TakeKeepsDecided(w, id, step); }
  }

  lemma {:induction false} RunDecides(ids: set<NodeId>, moves: seq<Move>)
    ensures Inv(Run(ids, moves)) && AllDecided(Run(ids, moves))
  {
    RunKeeps(ids, moves);
    if moves != [] {
      RunDecides(ids, moves[..|moves| - 1]);
      MoveKeepsDecided(Run(ids, moves[..|moves| - 1]), moves[|moves| - 1]);
    }
  }

  /**
   In every run, the automatic commit of a tracked start is queued or dispatched exactly once when all its
   expected nodes have been recorded as ready, and not before.
   */
  lemma AutomaticCommitExactly(ids: set<NodeId>, moves: seq<Move>, session: Session)
    requires session in Run(ids, moves).master.tracking
    ensures var w := Run(ids, moves);
            multiset(w.automatic + w.master.queue)[session] ==
              if w.master.tracking[session].ready == w.master.tracking[session].expected != {} then 1 else 0
  {
    RunDecides(ids, moves);
    assert DecidedOk(Run(ids, moves), session);
  }

  /** A commit goes to every expected node with the recorded stamp, exactly when all are ready, whoever asks for it. */
  lemma CommitReaches(w: System, session: Session, c: CommitMessage)
    ensures var v := After(w, ClientCommit(session));
            c in v.commits <==>
              || c in w.commits
              || (&& session in w.master.tracking && w.master.tracking[session].ready == w.master.tracking[session].expected
                  && c.session == session && c.node in w.master.tracking[session].expected
                  && c.stamp == w.master.tracking[session].stamp)
    ensures var m, m' := w.master, After(w, ClientCommit(session)).master;
            && m'.queue == m.queue && m'.tracking.Keys == m.tracking.Keys
            && forall k :: k in m.tracking ==>
                 m'.tracking[k] == if k == session && m.tracking[k].ready == m.tracking[k].expected
                                   then m.tracking[k].(commitDispatched := true) else m.tracking[k]
    ensures w.master.queue != [] && w.master.queue[0] == session ==>
              var v := After(w, AutomaticCommit);
              && v.commits == After(w, ClientCommit(session)).commits
              && v.master.queue == w.master.queue[1..] && v.automatic == w.automatic + [session]
  {
  }
}
