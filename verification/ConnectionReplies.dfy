/**
 What the replies of a Connect All decide: exactly which reply discovers a subject, exactly which one completes
 it, and what every other event does to the sequence. Replies are described field by field.
 */
module ConnectionReplies {
  import opened Wrappers
  import opened ConnectionSequence
  import opened ConnectionSafety

  // ---------------------------------------------------------------- the one result of a subject

  /** Entry `k` is about the subject, and no other entry is. */
  predicate OnlyResult(results: seq<SubjectResult>, id: SubjectId, k: nat) {
    k < |results| && results[k].subject == id && forall j :: 0 <= j < |results| && j != k ==> results[j].subject != id
  }

  lemma {:induction false} NoResult(results: seq<SubjectResult>, id: SubjectId)
    ensures ResultsFor(results, id) == [] <==> forall j :: 0 <= j < |results| ==> results[j].subject != id
  {
    if results != [] {
      var front := results[..|results| - 1];
      NoResult(front, id);
      assert forall j :: 0 <= j < |front| ==> front[j] == results[j];
    }
  }

  lemma {:induction false} OneResultIs(results: seq<SubjectResult>, id: SubjectId, k: nat)
    requires OnlyResult(results, id, k)
    ensures ResultsFor(results, id) == [results[k]]
  {
    var n := |results| - 1;
    var front := results[..n];
    assert forall j :: 0 <= j < |front| ==> front[j] == results[j];
    if k == n {
      NoResult(front, id);
    } else {
      assert OnlyResult(front, id, k);
      OneResultIs(front, id, k);
    }
  }

  lemma {:induction false} OneResultExists(results: seq<SubjectResult>, id: SubjectId) returns (k: nat)
    requires |ResultsFor(results, id)| == 1
    ensures OnlyResult(results, id, k)
  {
    var n := |results| - 1;
    var front := results[..n];
    assert forall j :: 0 <= j < |front| ==> front[j] == results[j];
    NoResult(front, id);
    if results[n].subject == id {
      k := n;
    } else {
      k := OneResultExists(front, id);
    }
  }

  // ---------------------------------------------------------------- which replies are answers

  /** A reply of this kind to the outstanding step: same token, sequence and node. */
  predicate RepliesTo(s: State, e: Event, op: Operation, kind: Kind) {
    && e.Reply? && s.pending.Some? && s.pending.value.op == op && e.kind == kind
    && e.token == Some(s.pending.value.token) && e.sequence == s.sequence && e.node == s.pending.value.subject.node
  }

  /** One sensor for each location of the subject, the selected addresses at their places, all connected and set up. */
  ghost predicate AllThere(subject: Subject, selected: seq<Address>, sensors: seq<Sensor>) {
    && |sensors| == |subject.locations|
    && (forall i, j :: 0 <= i < j < |sensors| ==> sensors[i].address != sensors[j].address)
    && (forall a :: a in selected <==> exists i :: 0 <= i < |sensors| && sensors[i].address == a)
    && Reported(sensors) == Pairing(selected, subject.locations)
    && (forall i :: 0 <= i < |sensors| ==> sensors[i].connected)
    && (forall i :: 0 <= i < |sensors| ==> sensors[i].setUp)
  }

  /** The reply says that the outstanding connection of the subject is complete, with every sensor connected and set up. */
  ghost predicate Connects(s: State, e: Event, id: SubjectId) {
    && RepliesTo(s, e, Connecting, SensorConnected) && s.pending.value.subject.id == id
    && e.complete && id in s.selected
    && exists k :: 0 <= k < |e.results| && OnlyResult(e.results, id, k)
                   && AllThere(s.pending.value.subject, s.selected[id], e.results[k].connected)
  }

  lemma GoodIsAllThere(subject: Subject, selected: seq<Address>, sensors: seq<Sensor>)
    ensures GoodConnection(subject, selected, sensors) <==> AllThere(subject, selected, sensors)
  {
    var addresses := SensorAddresses(sensors);
    assert forall a :: a in addresses <==> exists i :: 0 <= i < |sensors| && sensors[i].address == a by {
      forall a | a in addresses ensures exists i :: 0 <= i < |sensors| && sensors[i].address == a {
        var i :| 0 <= i < |addresses| && addresses[i] == a;
        assert sensors[i].address == a;
      }
      forall i | 0 <= i < |sensors| ensures sensors[i].address in addresses {
        assert addresses[i] == sensors[i].address;
      }
    }
    assert Elements(addresses) == Elements(selected) <==> forall a :: a in selected <==> a in addresses by {
      if Elements(addresses) == Elements(selected) {
        forall a ensures a in selected <==> a in addresses {
          assert a in Elements(addresses) <==> a in Elements(selected);
        }
      }
    }
    if AllThere(subject, selected, sensors) {
      forall i, j | 0 <= i < j < |addresses| ensures addresses[i] != addresses[j] {
        assert sensors[i].address != sensors[j].address;
      }
    }
    if GoodConnection(subject, selected, sensors) {
      forall i, j | 0 <= i < j < |sensors| ensures sensors[i].address != sensors[j].address {
        assert addresses[i] != addresses[j];
      }
    }
  }

  lemma {:induction false} NextSubjectKeepsSets(s: State, dispatched: bool)
    ensures var t := NextSubject(s, dispatched);
            t.completed == s.completed && t.discovered == s.discovered && t.selected == s.selected
    decreases |s.subjects| - s.index
  {
    if s.index < |s.subjects| && s.subjects[s.index].id in s.completed {
      NextSubjectKeepsSets(s.(index := s.index + 1), dispatched);
    }
  }

  lemma ConnectionCompletes(s: State, subject: Subject, sensors: seq<Sensor>, valid: bool, dispatched: bool)
    requires subject.id in s.selected
    ensures var t := OnConnected(s, subject, sensors, valid, dispatched);
            && t.discovered == s.discovered && t.selected == s.selected
            && t.completed == s.completed + (if valid && AllThere(subject, s.selected[subject.id], sensors) then {subject.id} else {})
  {
    GoodIsAllThere(subject, s.selected[subject.id], sensors);
    var u := s.(completed := s.completed + {subject.id}, pending := None,
                confirmed := s.confirmed[subject.id := Reported(sensors)],
                out := s.out + [Identify(subject.node, subject.id)], index := s.index + 1);
    NextSubjectKeepsSets(u, dispatched);
  }

  /** An answer to an outstanding connection completes its subject exactly when it says that all is there. */
  lemma AnswerCompletes(s: State, e: Event, dispatched: bool)
    requires Inv(s) && e.Reply? && Answers(s, e) && s.pending.value.op.Connecting?
    ensures var id, t := s.pending.value.subject.id, OnAnswer(s, e, dispatched);
            && t.discovered == s.discovered && t.selected == s.selected
            && t.completed == s.completed + (if Connects(s, e, id) then {id} else {})
  {
    var p := s.pending.value;
    var mine := ResultsFor(e.results, p.subject.id);
    if !e.kind.Error? {
      if |mine| == 1 {
        var k := OneResultExists(e.results, p.subject.id);
        OneResultIs(e.results, p.subject.id, k);
        forall j: nat | OnlyResult(e.results, p.subject.id, j) ensures j == k {
        }
      } else {
        forall j: nat ensures !OnlyResult(e.results, p.subject.id, j) {
          if OnlyResult(e.results, p.subject.id, j) {
            OneResultIs(e.results, p.subject.id, j);
          }
        }
      }
      ConnectionCompletes(KeepSelection(s, e), p.subject, if mine != [] then mine[0].connected else [], |mine| == 1 && e.complete, dispatched);
    }
  }

  // ---------------------------------------------------------------- which replies discover

  /** As many addresses as locations, all present, all different, and none selected for another subject. */
  ghost predicate AllFound(subject: Subject, selected: map<SubjectId, seq<Address>>, addresses: seq<Address>) {
    && |addresses| == |subject.locations|
    && (forall i, j :: 0 <= i < j < |addresses| ==> addresses[i] != addresses[j])
    && (forall i :: 0 <= i < |addresses| ==> addresses[i] != "")
    && (forall k, a :: k in selected && k != subject.id && a in selected[k] ==> a !in addresses)
  }

  /** The reply says that the outstanding discovery of the subject is complete, and entry `k` holds what was found. */
  ghost predicate DiscoversBy(s: State, e: Event, id: SubjectId, k: nat) {
    && RepliesTo(s, e, Discovering, SensorsDiscovered) && s.pending.value.subject.id == id
    && e.complete && OnlyResult(e.results, id, k)
    && AllFound(s.pending.value.subject, s.selected, e.results[k].discovered)
  }

  ghost predicate Discovers(s: State, e: Event, id: SubjectId) {
    exists k: nat :: DiscoversBy(s, e, id, k)
  }

  lemma GoodIsAllFound(subject: Subject, selected: map<SubjectId, seq<Address>>, addresses: seq<Address>)
    ensures GoodDiscovery(subject, addresses, AddressesOfOthers(selected, subject.id)) <==> AllFound(subject, selected, addresses)
  {
    var others := AddressesOfOthers(selected, subject.id);
    if AllFound(subject, selected, addresses) {
      forall i | 0 <= i < |addresses| ensures addresses[i] !in others {
        assert addresses[i] in addresses;
      }
    }
    if GoodDiscovery(subject, addresses, others) {
      forall k, a | k in selected && k != subject.id && a in selected[k] ensures a !in addresses {
        assert a in others;
      }
    }
  }

  lemma DiscoveryDiscovers(s: State, subject: Subject, addresses: seq<Address>, valid: bool, dispatched: bool)
    ensures var t := OnDiscovered(s, subject, addresses, valid, dispatched);
            var good := valid && AllFound(subject, s.selected, addresses);
            && t.completed == s.completed
            && t.discovered == s.discovered + (if good then {subject.id} else {})
            && t.selected == if good then s.selected[subject.id := addresses] else s.selected
  {
    GoodIsAllFound(subject, s.selected, addresses);
  }

  /**
   An answer to an outstanding discovery discovers its subject exactly when it says that all is found, and then
   selects what was found; otherwise it keeps what it lists as selected, if anything.
   */
  lemma AnswerDiscovers(s: State, e: Event, dispatched: bool)
    requires e.Reply? && Answers(s, e) && s.pending.value.op.Discovering?
    ensures var id, t := s.pending.value.subject.id, OnAnswer(s, e, dispatched);
            && t.completed == s.completed
            && t.discovered == s.discovered + (if Discovers(s, e, id) then {id} else {})
            && (forall k: nat :: DiscoversBy(s, e, id, k) ==> t.selected == s.selected[id := e.results[k].discovered])
            && (!Discovers(s, e, id) ==> t.selected == if e.selected != [] then s.selected[id := e.selected] else s.selected)
  {
    var p := s.pending.value;
    var u := KeepSelection(s, e);
    var mine := ResultsFor(e.results, p.subject.id);
    if !e.kind.Error? {
      var addresses := if mine != [] then mine[0].discovered else [];
      if |mine| == 1 {
        var k := OneResultExists(e.results, p.subject.id);
        OneResultIs(e.results, p.subject.id, k);
        SameForOthers(p.subject, s.selected, u.selected, addresses);
        assert DiscoversBy(s, e, p.subject.id, k) <==> e.complete && AllFound(p.subject, s.selected, addresses);
        forall j: nat | OnlyResult(e.results, p.subject.id, j) ensures j == k {
        }
      } else {
        forall j: nat ensures !OnlyResult(e.results, p.subject.id, j) {
          if OnlyResult(e.results, p.subject.id, j) {
            OneResultIs(e.results, p.subject.id, j);
          }
        }
      }
      DiscoveryDiscovers(u, p.subject, addresses, |mine| == 1 && e.complete, dispatched);
    }
  }

  /** What the subject itself had selected does not matter. */
  lemma SameForOthers(subject: Subject, a: map<SubjectId, seq<Address>>, b: map<SubjectId, seq<Address>>, addresses: seq<Address>)
    requires forall k :: k != subject.id ==> (k in a <==> k in b) && (k in a ==> a[k] == b[k])
    ensures AllFound(subject, a, addresses) <==> AllFound(subject, b, addresses)
  {
  }

  // ---------------------------------------------------------------- every event, exactly

  /** A discovery report outside any sequence names the subject, and it is configured. */
  ghost predicate StrayOn(s: State, e: Event, id: SubjectId) {
    && e.Reply? && e.kind.SensorsDiscovered? && e.sequence.None?
    && (exists i :: 0 <= i < |s.subjects| && s.subjects[i].id == id)
    && exists k :: 0 <= k < |e.results| && e.results[k].subject == id
  }

  /** A Reset of the subject's node is reported as done. */
  ghost predicate ResetOf(s: State, e: Event, id: SubjectId) {
    && e.CleanupComplete? && e.recover && e.ready
    && exists i :: 0 <= i < |s.subjects| && s.subjects[i].id == id && s.subjects[i].node == e.node
  }

  /** A sensor selected for the subject is reported lost. */
  ghost predicate LossOf(s: State, e: Event, id: SubjectId) {
    e.SensorDisconnected? && id in s.selected && exists i :: 0 <= i < |s.selected[id]| && s.selected[id][i] in e.lost
  }

  lemma {:induction false} RediscoverExactly(s: State, results: seq<SubjectResult>, id: SubjectId)
    ensures var t := Rediscover(s, results);
            var named := HasId(s.subjects, id) && exists k :: 0 <= k < |results| && results[k].subject == id;
            && (id in t.completed <==> id in s.completed && !named)
            && (id in t.discovered <==> id in s.discovered && !named)
            && (!named ==> (id in t.selected <==> id in s.selected) && (id in s.selected ==> t.selected[id] == s.selected[id]))
            && (named ==> id in t.selected)
  {
    if results != [] {
      var front := results[..|results| - 1];
      RediscoverExactly(s, front, id);
      RediscoverIssuesNothing(s, front);
      assert forall j :: 0 <= j < |front| ==> front[j] == results[j];
    }
  }

  /** The last report that names a configured subject is what is selected for it. */
  lemma RediscoverSelects(s: State, results: seq<SubjectResult>, k: nat)
    requires k < |results| && HasId(s.subjects, results[k].subject)
    requires forall j :: k < j < |results| ==> results[j].subject != results[k].subject
    ensures var t, id := Rediscover(s, results), results[k].subject; id in t.selected && t.selected[id] == results[k].discovered
  {
    var n := |results| - 1;
    RediscoverIssuesNothing(s, results[..n]);
    if k < n {
      RediscoverSelects(s, results[..n], k);
    }
  }

  lemma ResetExactly(s: State, node: NodeId, id: SubjectId)
    ensures var t, e := Retire(s, node), CleanupComplete(node, true, true);
            && (id in t.completed <==> id in s.completed && !ResetOf(s, e, id))
            && (id in t.discovered <==> id in s.discovered && !ResetOf(s, e, id))
            && (id in t.selected <==> id in s.selected && !ResetOf(s, e, id))
  {
    assert ResetOf(s, CleanupComplete(node, true, true), id) <==> id in SubjectsOn(s.subjects, node);
  }

  lemma LossExactly(s: State, lost: set<Address>, id: SubjectId)
    ensures var t, e := Lose(s, lost), SensorDisconnected(lost);
            (id in t.completed <==> id in s.completed && !LossOf(s, e, id)) && t.discovered == s.discovered && t.selected == s.selected
  {
    var e := SensorDisconnected(lost);
    if id in s.selected && id in HurtIn(s.selected, lost) {
      var a :| a in s.selected[id] && a in lost;
      var i :| 0 <= i < |s.selected[id]| && s.selected[id][i] == a;
      assert LossOf(s, e, id);
    }
  }

  lemma ReplyExactly(s: State, e: Event, dispatched: bool, id: SubjectId)
    requires Inv(s) && e.Reply?
    ensures var t := OnEvent(s, e, dispatched);
            && (id in t.completed <==> (id in s.completed && !StrayOn(s, e, id)) || Connects(s, e, id))
            && (id in t.discovered <==> (id in s.discovered && !StrayOn(s, e, id)) || Discovers(s, e, id))
  {
    if e.kind.SensorsDiscovered? && e.sequence.None? {
      RediscoverExactly(s, e.results, id);
      RediscoverIssuesNothing(s, e.results);
      assert !Answers(Rediscover(s, e.results), e);
    } else if Answers(s, e) {
      if s.pending.value.op.Connecting? {
        AnswerCompletes(s, e, dispatched);
      } else {
        AnswerDiscovers(s, e, dispatched);
      }
    }
  }

  /**
   After any event a subject is completed exactly when it was and no stray discovery, Reset or loss hit it, or
   the event is the reply that says that all its sensors are connected and set up; and it is discovered exactly
   when it was and no stray discovery or Reset hit it, or the event is the reply that says that all is found.
   */
  lemma EventExactly(s: State, e: Event, dispatched: bool, id: SubjectId)
    requires Inv(s)
    ensures var t := OnEvent(s, e, dispatched);
            && (id in t.completed <==>
                  (id in s.completed && !StrayOn(s, e, id) && !ResetOf(s, e, id) && !LossOf(s, e, id)) || Connects(s, e, id))
            && (id in t.discovered <==>
                  (id in s.discovered && !StrayOn(s, e, id) && !ResetOf(s, e, id)) || Discovers(s, e, id))
  {
    match e
    case CleanupStarted =>
    case CleanupComplete(node, recover, ready) => if recover && ready { ResetExactly(s, node, id); }
    case SensorDisconnected(lost) => LossExactly(s, lost, id);
    case Reply(_, _, _, _, _, _, _) => ReplyExactly(s, e, dispatched, id);
  }

  /** Only an event can complete a subject. */
  lemma OtherStepsCompleteNothing(s: State, step: Step)
    requires !step.Received?
    ensures Next(s, step).completed <= s.completed
  {
    if step.Started? {
      NextSubjectKeepsSets(Begun(s), step.dispatched);
    }
  }

  // ---------------------------------------------------------------- over whole runs

  /** Step `j` of the run is the reply that completes the subject. */
  ghost predicate ConnectedAt(steps: seq<Step>, j: nat, id: SubjectId) {
    j < |steps| && steps[j].Received? && Connects(Run(steps[..j]), steps[j].e, id)
  }

  /** And the subject has been completed ever since. */
  ghost predicate ConnectedSince(steps: seq<Step>, j: nat, id: SubjectId) {
    ConnectedAt(steps, j, id) && forall k :: j < k <= |steps| ==> id in Run(steps[..k]).completed
  }

  /** In every run, a completed subject was completed by such a reply and has been ever since. */
  lemma {:induction false} CompletedByReply(steps: seq<Step>, id: SubjectId) returns (j: nat)
    requires id in Run(steps).completed
    ensures ConnectedSince(steps, j, id)
  {
    var n := |steps| - 1;
    var front := steps[..n];
    var s := Run(front);
    RunKeeps(front);
    assert steps[..|steps|] == steps;
    if id in s.completed {
      j := CompletedByReply(front, id);
      SinceExtends(steps, j, id);
    } else {
      j := n;
      if steps[n].Received? {
        EventExactly(s, steps[n].e, steps[n].dispatched, id);
      } else {
        OtherStepsCompleteNothing(s, steps[n]);
      }
      assert ConnectedAt(steps, j, id);
    }
  }

  lemma SamePrefix(steps: seq<Step>, k: nat)
    requires k < |steps|
    ensures steps[..|steps| - 1][..k] == steps[..k]
  {
  }

  lemma SinceExtends(steps: seq<Step>, j: nat, id: SubjectId)
    requires steps != [] && ConnectedSince(steps[..|steps| - 1], j, id) && id in Run(steps).completed
    ensures ConnectedSince(steps, j, id)
  {
    SamePrefix(steps, j);
    assert ConnectedAt(steps, j, id);
    forall k | j < k <= |steps| ensures id in Run(steps[..k]).completed {
      CompletedAlong(steps, j, id, k);
    }
  }

  lemma CompletedAlong(steps: seq<Step>, j: nat, id: SubjectId, k: nat)
    requires steps != [] && j < k <= |steps| && id in Run(steps).completed
    requires k < |steps| ==> id in Run(steps[..|steps| - 1][..k]).completed
    ensures id in Run(steps[..k]).completed
  {
    if k < |steps| {
      SamePrefix(steps, k);
    } else {
      assert steps[..k] == steps;
    }
  }

  /**
   When the "completed" event is emitted, every configured subject is completed exactly when no out-of-sequence
   discovery or Reset report of the run, since the start, named a subject behind the cursor; and every completed
   subject was completed by a reply that listed each of its sensors as connected and set up at its place.
   */
  lemma FinishedMeansConfirmed(steps: seq<Step>, step: Step)
    requires EmitsFinished(Run(steps), Run(steps + [step]))
    ensures var t := Run(steps + [step]);
            && (AllCompleted(t) <==> !Hit(steps + [step], t.sequence))
            && forall id :: id in t.completed ==> exists j :: 0 <= j <= |steps| && ConnectedSince(steps + [step], j, id)
  {
    FinishedUnlessHit(steps, step);
    forall id | id in Run(steps + [step]).completed
      ensures exists j :: 0 <= j <= |steps| && ConnectedSince(steps + [step], j, id)
    {
      var j := CompletedByReply(steps + [step], id);
    }
  }

  // ---------------------------------------------------------------- what goes on and what stops

  /** Stopped with a failure; `stays` says that the step remains outstanding until its reply or a Reset. */
  ghost predicate StoppedFrom(s: State, t: State, stays: bool) {
    && !t.active && t.timer.None? && t.out == s.out + (if s.active then [Failed] else [])
    && t.pending == (if stays then s.pending else None)
  }

  /** A timer stops the sequence exactly when its step is the outstanding one; the step stays outstanding. */
  lemma TimerStops(s: State, token: nat)
    ensures var t := Next(s, TimerFired(token));
            if s.active && s.pending.Some? && s.pending.value.token == token
            then StoppedFrom(s, t, true) && t.completed == s.completed && t.selected == s.selected
            else t == s
  {
  }

  /** A cleanup that starts stops the sequence. */
  lemma CleanupStops(s: State, dispatched: bool)
    ensures var t := OnEvent(s, CleanupStarted, dispatched);
            if s.active then StoppedFrom(s, t, true) else t == s
  {
  }

  /** A Reset of the node that the outstanding step is for ends that step. */
  lemma ResetEndsStep(s: State, node: NodeId, dispatched: bool)
    requires Inv(s) && s.pending.Some?
    ensures var t := OnEvent(s, CleanupComplete(node, true, true), dispatched);
            if s.pending.value.subject.node == node then StoppedFrom(s, t, false)
            else t.pending == s.pending && t.active == s.active && t.timer == s.timer && t.out == s.out
  {
  }

  /** A loss stops an active sequence exactly when it hits a completed subject. */
  lemma LossStopsExactly(s: State, lost: set<Address>, dispatched: bool)
    requires s.active
    ensures var e := SensorDisconnected(lost);
            var t := OnEvent(s, e, dispatched);
            if exists id :: id in s.completed && LossOf(s, e, id) then StoppedFrom(s, t, true)
            else t == s
  {
    var e := SensorDisconnected(lost);
    if id :| id in s.completed && LossOf(s, e, id) {
      LossStops(s, lost, id, s.selected[id][LossAt(s, e, id)]);
    } else {
      forall id | id in s.completed ensures id !in HurtIn(s.selected, lost) {
        LossExactly(s, lost, id);
      }
      assert s.completed * HurtIn(s.selected, lost) == {};
      assert s.completed - HurtIn(s.selected, lost) == s.completed;
    }
  }

  ghost function LossAt(s: State, e: Event, id: SubjectId): (i: nat)
    requires LossOf(s, e, id)
    ensures i < |s.selected[id]| && s.selected[id][i] in e.lost
  {
    var i :| 0 <= i < |s.selected[id]| && s.selected[id][i] in e.lost;
    i
  }

  /** A reply that is neither an answer nor a stray discovery changes nothing. */
  lemma OthersAreIgnored(s: State, e: Event, dispatched: bool)
    requires e.Reply? && s.pending.Some?
    requires !RepliesTo(s, e, Discovering, SensorsDiscovered) && !RepliesTo(s, e, Connecting, SensorConnected)
    requires !RepliesTo(s, e, s.pending.value.op, Error)
    requires !(e.kind.SensorsDiscovered? && e.sequence.None?)
    ensures OnEvent(s, e, dispatched) == s
  {
  }

  /** An error, or an answer that is not good, ends the step and stops the sequence. */
  lemma BadAnswerStops(s: State, e: Event, dispatched: bool)
    requires Inv(s) && e.Reply? && Answers(s, e)
    requires var id := s.pending.value.subject.id; !Connects(s, e, id) && !Discovers(s, e, id)
    ensures StoppedFrom(s, OnAnswer(s, e, dispatched), false)
  {
    var p := s.pending.value;
    var u := KeepSelection(s, e);
    var mine := ResultsFor(e.results, p.subject.id);
    var valid := |mine| == 1 && e.complete;
    if !e.kind.Error? && valid {
      if p.op.Connecting? && GoodConnection(p.subject, s.selected[p.subject.id], mine[0].connected) {
        GoodAnswerConnects(s, e);
      }
      if p.op.Discovering? && GoodDiscovery(p.subject, mine[0].discovered, AddressesOfOthers(u.selected, p.subject.id)) {
        GoodAnswerDiscovers(s, e);
      }
    }
  }

  lemma GoodAnswerConnects(s: State, e: Event)
    requires Inv(s) && e.Reply? && Answers(s, e) && s.pending.value.op.Connecting? && !e.kind.Error? && e.complete
    requires var p, mine := s.pending.value, ResultsFor(e.results, s.pending.value.subject.id);
             |mine| == 1 && GoodConnection(p.subject, s.selected[p.subject.id], mine[0].connected)
    ensures Connects(s, e, s.pending.value.subject.id)
  {
    var p := s.pending.value;
    var k := OneResultExists(e.results, p.subject.id);
    OneResultIs(e.results, p.subject.id, k);
    GoodIsAllThere(p.subject, s.selected[p.subject.id], e.results[k].connected);
  }

  lemma GoodAnswerDiscovers(s: State, e: Event)
    requires e.Reply? && Answers(s, e) && s.pending.value.op.Discovering? && !e.kind.Error? && e.complete
    requires var p, mine := s.pending.value, ResultsFor(e.results, s.pending.value.subject.id);
             |mine| == 1
             && GoodDiscovery(p.subject, mine[0].discovered, AddressesOfOthers(KeepSelection(s, e).selected, p.subject.id))
    ensures Discovers(s, e, s.pending.value.subject.id)
  {
    var p, u := s.pending.value, KeepSelection(s, e);
    var k := OneResultExists(e.results, p.subject.id);
    OneResultIs(e.results, p.subject.id, k);
    GoodIsAllFound(p.subject, u.selected, e.results[k].discovered);
    SameForOthers(p.subject, s.selected, u.selected, e.results[k].discovered);
    assert DiscoversBy(s, e, p.subject.id, k);
  }

  /** A good discovery goes on to connect the same subject with what was found. */
  lemma DiscoveryGoesOn(s: State, e: Event)
    requires Inv(s) && e.Reply? && Answers(s, e) && s.active && Discovers(s, e, s.pending.value.subject.id)
    ensures var p, t := s.pending.value, OnAnswer(s, e, true);
            && t.active && t.index == s.index && t.pending == Some(Pending(s.nextToken, p.subject, Connecting))
            && t.timer == Some(s.nextToken)
            && t.out == s.out + [Command(p.subject.node, p.subject.id, Connecting, s.nextToken, {}, t.selected[p.subject.id])]
  {
    var p := s.pending.value;
    AnswerDiscovers(s, e, true);
    var k: nat :| DiscoversBy(s, e, p.subject.id, k);
    OneResultIs(e.results, p.subject.id, k);
    SameForOthers(p.subject, s.selected, KeepSelection(s, e).selected, e.results[k].discovered);
    GoodIsAllFound(p.subject, KeepSelection(s, e).selected, e.results[k].discovered);
  }

  /**
   Where the sequence goes next: to the first subject from the cursor on that is not completed. A dispatch that
   raises there stops it, with nothing left outstanding.
   */
  lemma {:induction false} GoesToNext(s: State, i: nat)
    requires s.index <= i <= |s.subjects|
    requires forall j :: s.index <= j < i ==> s.subjects[j].id in s.completed
    requires i < |s.subjects| ==> s.subjects[i].id !in s.completed
    ensures var t := NextSubject(s, true);
            if i == |s.subjects| then t == s.(index := i, active := false, out := s.out + [Finished])
            else
              var subject := s.subjects[i];
              var op := if subject.id in s.discovered then Connecting else Discovering;
              && t.index == i && t.active == s.active && t.pending == Some(Pending(s.nextToken, subject, op))
              && t.timer == Some(s.nextToken) && |t.out| == |s.out| + 1 && t.out[|s.out|].Command?
    ensures var t := NextSubject(s, false);
            i < |s.subjects| ==> !t.active && t.pending.None? && t.timer.None? && t.index == i && t.out != [] && t.out[|t.out| - 1] == Failed
    decreases |s.subjects| - s.index
  {
    if s.index < i {
      GoesToNext(s.(index := s.index + 1), i);
    }
  }

  /** A good connection identifies the subject and goes on with the one after it. */
  lemma ConnectionGoesOn(s: State, e: Event, dispatched: bool)
    requires Inv(s) && e.Reply? && Answers(s, e) && s.active && Connects(s, e, s.pending.value.subject.id)
    ensures var p, t := s.pending.value, OnAnswer(s, e, dispatched);
            exists u: State :: t == NextSubject(u, dispatched) && u.index == s.index + 1 && u.completed == s.completed + {p.subject.id}
                               && u.out == s.out + [Identify(p.subject.node, p.subject.id)] && u.pending.None? && u.active
  {
    var p := s.pending.value;
    var sensors := ConnectedSensors(s, e);
    GoodIsAllThere(p.subject, s.selected[p.subject.id], sensors);
    CompletionGoesOn(KeepSelection(s, e), sensors, dispatched);
  }

  lemma ConnectedSensors(s: State, e: Event) returns (sensors: seq<Sensor>)
    requires e.Reply? && s.pending.Some? && Connects(s, e, s.pending.value.subject.id)
    ensures var id := s.pending.value.subject.id;
            ResultsFor(e.results, id) != [] && |ResultsFor(e.results, id)| == 1 && sensors == ResultsFor(e.results, id)[0].connected
            && AllThere(s.pending.value.subject, s.selected[id], sensors)
  {
    var p := s.pending.value;
    var k :| 0 <= k < |e.results| && OnlyResult(e.results, p.subject.id, k)
              && AllThere(p.subject, s.selected[p.subject.id], e.results[k].connected);
    OneResultIs(e.results, p.subject.id, k);
    sensors := e.results[k].connected;
  }

  lemma CompletionGoesOn(s: State, sensors: seq<Sensor>, dispatched: bool)
    requires s.active && s.pending.Some? && s.pending.value.subject.id in s.selected
    requires GoodConnection(s.pending.value.subject, s.selected[s.pending.value.subject.id], sensors)
    ensures var subject := s.pending.value.subject;
            exists u: State :: OnConnected(s, subject, sensors, true, dispatched) == NextSubject(u, dispatched)
                               && u.index == s.index + 1 && u.completed == s.completed + {subject.id}
                               && u.out == s.out + [Identify(subject.node, subject.id)] && u.pending.None? && u.active
  {
    var subject := s.pending.value.subject;
    var u := s.(completed := s.completed + {subject.id}, pending := None,
                confirmed := s.confirmed[subject.id := Reported(sensors)],
                out := s.out + [Identify(subject.node, subject.id)], index := s.index + 1);
    assert OnConnected(s, subject, sensors, true, dispatched) == NextSubject(u, dispatched);
  }

  /** A start is refused exactly while something is active or outstanding; otherwise it begins a sequence at the front. */
  lemma StartBegins(s: State, dispatched: bool)
    ensures var t := Next(s, Started(dispatched));
            && (s.active || s.pending.Some? ==> t == s.(out := s.out + [Refused]))
            && (!s.active && s.pending.None? && s.subjects != [] ==>
                  exists u: State :: t == NextSubject(u, dispatched) && u.index == 0 && u.active && u.sequence == Some(s.nextToken)
                                     && u.completed == s.completed && u.out == s.out)
            && (!s.active && s.pending.None? && s.subjects == [] ==> t == s)
  {
    if !s.active && s.pending.None? && s.subjects != [] {
      assert Next(s, Started(dispatched)) == NextSubject(Begun(s), dispatched);
    }
  }
}
