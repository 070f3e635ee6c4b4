/** The Connect All object as it runs: one method per entry point, each proved against the step it takes. */
module ConnectAll {
  import opened Wrappers
  import opened ConnectionSequence

  /**
   `out` collects what is emitted and dispatched. A parameter `dispatched` says whether dispatching the
   next command succeeds. `state` is the abstract state, history included, and `Valid` ties the fields to it.
   */
  class SubjectConnectionSequence {
    var subjects: seq<Subject>
    var selected: map<SubjectId, seq<Address>>
    var completed: set<SubjectId>
    var discovered: set<SubjectId>
    var active: bool
    var pending: Option<Pending>
    var timer: Option<nat>
    var sequence: Option<nat>
    var index: nat
    var nextToken: nat
    var out: seq<Output>
    ghost var state: State

    ghost predicate Valid()
      reads this
    {
      && subjects == state.subjects && selected == state.selected && completed == state.completed
      && discovered == state.discovered && active == state.active && pending == state.pending && timer == state.timer
      && sequence == state.sequence && index == state.index && nextToken == state.nextToken && out == state.out
    }

    constructor ()
      ensures Valid() && state == Initial()
    {
      subjects, selected, completed, discovered, active := [], map[], {}, {}, false;
      pending, timer, sequence, index, nextToken, out := None, None, None, 0, 0, [];
      state := Initial();
    }

    method Configure(configured: seq<Subject>)
      requires Valid()
      modifies this
      ensures Valid() && state == ConnectionSequence.Configure(old(state), configured)
    {
      state := ConnectionSequence.Configure(state, configured);
      timer := None;
      subjects, selected, completed, discovered := configured, map[], {}, {};
      active, pending, sequence := false, None, None;
    }

    method Start(dispatched: bool)
      requires Valid()
      modifies this
      ensures Valid() && state == ConnectionSequence.Start(old(state), dispatched)
    {
      if active || pending.Some? {
        out := out + [Refused];
        state := ConnectionSequence.Start(state, dispatched);
        return;
      }
      if subjects == [] {
        return;
      }
      sequence, nextToken := Some(nextToken), nextToken + 1;
      active, index := true, 0;
      state := Begun(state);
      NextSubject(dispatched);
    }

    method NextSubject(dispatched: bool)
      requires Valid()
      modifies this
      ensures Valid() && state == ConnectionSequence.NextSubject(old(state), dispatched)
    {
      while index < |subjects|
        invariant Valid()
        invariant ConnectionSequence.NextSubject(state, dispatched) == ConnectionSequence.NextSubject(old(state), dispatched)
        decreases |subjects| - index
      {
        var subject := subjects[index];
        if subject.id in completed {
          index := index + 1;
          state := state.(index := index);
        } else {
          IssueStep(subject, if subject.id in discovered then Connecting else Discovering, dispatched);
          return;
        }
      }
      active := false;
      out := out + [Finished];
      state := state.(active := false, out := out);
    }

    method IssueStep(subject: Subject, op: Operation, dispatched: bool)
      requires Valid()
      modifies this
      ensures Valid() && state == Issue(old(state), subject, op, dispatched)
    {
      var token := nextToken;
      var excluded, chosen := {}, [];
      if op.Discovering? {
        excluded := set k, a | k in selected && k != subject.id && a in selected[k] :: a;
      } else if subject.id in selected {
        chosen := selected[subject.id];
      }
      nextToken := nextToken + 1;
      pending := Some(Pending(token, subject, op));
      timer := Some(token);
      out := out + [Command(subject.node, subject.id, op, token, excluded, chosen)];
      state := Issued(state, subject, op);
      if !dispatched {
        StopSequence();
        pending := None;
        state := state.(pending := None);
      }
    }

    method Expired(token: nat)
      requires Valid()
      modifies this
      ensures Valid() && state == Expire(old(state), token)
    {
      if pending.Some? && pending.value.token == token && active {
        StopSequence();
      }
    }

    method StopSequence()
      requires Valid()
      modifies this`active, this`timer, this`out, this`state
      ensures Valid() && state == Fail(old(state))
    {
      timer, active := None, false;
      out := out + [Failed];
      state := Fail(state);
    }

    method OnEvent(e: Event, dispatched: bool)
      requires Valid()
      modifies this
      ensures Valid() && state == ConnectionSequence.OnEvent(old(state), e, dispatched)
    {
      match e {
        case CleanupStarted =>
          if active {
            StopSequence();
          }
        case CleanupComplete(node, recover, ready) =>
          if recover && ready {
            RetireNode(node);
          }
        case SensorDisconnected(lost) =>
          LoseSensors(lost);
        case Reply(kind, token, seqId, node, chosen, complete, results) =>
          if kind.SensorsDiscovered? && seqId.None? {
            ForgetRediscovered(results);
          }
          if pending.None? || token != Some(pending.value.token) || seqId != sequence {
            return;
          }
          if node != pending.value.subject.node {
            return;
          }
          var expected := if pending.value.op.Discovering? then SensorsDiscovered else SensorConnected;
          if !kind.Error? && kind != expected {
            return;
          }
          AcceptAnswer(e, dispatched);
      }
    }

    method RetireNode(node: NodeId)
      requires Valid()
      modifies this
      ensures Valid() && state == Retire(old(state), node)
    {
      ForgetNode(node);
      state := Forgotten(state, node);
      if pending.Some? && pending.value.subject.node == node {
        AbandonStep();
      }
    }

    method ForgetNode(node: NodeId)
      modifies this`selected, this`completed, this`discovered
      ensures selected == old(selected) - SubjectsOn(subjects, node)
      ensures completed == old(completed) - SubjectsOn(subjects, node)
      ensures discovered == old(discovered) - SubjectsOn(subjects, node)
    {
      for i := 0 to |subjects|
        invariant selected == old(selected) - SubjectsOn(subjects[..i], node)
        invariant completed == old(completed) - SubjectsOn(subjects[..i], node)
        invariant discovered == old(discovered) - SubjectsOn(subjects[..i], node)
      {
        var subject := subjects[i];
        SubjectsOnExtends(subjects, node, i);
        if subject.node == node {
          selected := selected - {subject.id};
          completed := completed - {subject.id};
          discovered := discovered - {subject.id};
        }
      }
      assert subjects[..|subjects|] == subjects;
    }

    method LoseSensors(lost: set<Address>)
      requires Valid()
      modifies this
      ensures Valid() && state == Lose(old(state), lost)
    {
      var stopped := UncompleteHurt(lost);
      state := state.(completed := completed);
      if stopped {
        StopSequence();
      }
    }

    /** Whether an active sequence has to stop: a completed subject lost a sensor. */
    method UncompleteHurt(lost: set<Address>) returns (stopped: bool)
      modifies this`completed
      ensures completed == old(completed) - HurtIn(selected, lost)
      ensures stopped <==> active && old(completed) * HurtIn(selected, lost) != {}
    {
      stopped := false;
      var todo := selected.Keys;
      ghost var seen: set<SubjectId> := {};
      ghost var hurt := HurtIn(selected, lost);
      while todo != {}
        invariant todo + seen == selected.Keys && todo !! seen
        invariant completed == old(completed) - hurt * seen
        invariant stopped <==> active && old(completed) * hurt * seen != {}
        decreases todo
      {
        var id :| id in todo;
        todo := todo - {id};
        ghost var before := seen;
        seen := seen + {id};
        var hit := exists a :: a in selected[id] && a in lost;
        assert hit <==> id in hurt;
        if hit {
          assert hurt * seen == hurt * before + {id};
          var wasComplete := id in completed;
          completed := completed - {id};
          assert old(completed) * hurt * seen == old(completed) * hurt * before + (if wasComplete then {id} else {});
          if active && wasComplete {
            stopped := true;
          }
        } else {
          assert hurt * seen == hurt * before;
          assert old(completed) * hurt * seen == old(completed) * hurt * before;
        }
      }
      assert hurt * seen == hurt && old(completed) * hurt * seen == old(completed) * hurt;
    }

    method ForgetRediscovered(results: seq<SubjectResult>)
      requires Valid()
      modifies this
      ensures Valid() && state == Rediscover(old(state), results)
    {
      for i := 0 to |results|
        invariant Valid() && state == Rediscover(old(state), results[..i])
      {
        assert results[..i + 1][..i] == results[..i];
        ForgetOne(results[i]);
      }
      assert results[..|results|] == results;
    }

    method ForgetOne(r: SubjectResult)
      requires Valid()
      modifies this
      ensures Valid() && state == if HasId(old(state).subjects, r.subject) then Reselected(old(state), r) else old(state)
    {
      if exists j :: 0 <= j < |subjects| && subjects[j].id == r.subject {
        state := Reselected(state, r);
        completed := completed - {r.subject};
        discovered := discovered - {r.subject};
        selected := selected[r.subject := r.discovered];
      }
    }

    /** The terminal reply of the outstanding step. */
    method AcceptAnswer(e: Event, dispatched: bool)
      requires Valid() && e.Reply? && Answers(state, e)
      modifies this
      ensures Valid() && state == OnAnswer(old(state), e, dispatched)
    {
      var subject, op := pending.value.subject, pending.value.op;
      timer := None;
      if e.selected != [] && op.Discovering? {
        selected := selected[subject.id := e.selected];
      }
      state := KeepSelection(state, e);
      if e.kind.Error? {
        AbandonStep();
        return;
      }
      var mine := ResultsOf(e.results, subject.id);
      var valid := |mine| == 1 && e.complete;
      if op.Discovering? {
        AcceptDiscovery(subject, if mine != [] then mine[0].discovered else [], valid, dispatched);
      } else {
        AcceptConnection(subject, if mine != [] then mine[0].connected else [], valid, dispatched);
      }
    }

    method AbandonStep()
      requires Valid()
      modifies this
      ensures Valid() && state == GiveUp(old(state))
    {
      if active {
        StopSequence();
      }
      pending := None;
      state := state.(pending := None);
    }

    method AcceptDiscovery(subject: Subject, addresses: seq<Address>, valid: bool, dispatched: bool)
      requires Valid()
      modifies this
      ensures Valid() && state == OnDiscovered(old(state), subject, addresses, valid, dispatched)
    {
      var others := set k, a | k in selected && k != subject.id && a in selected[k] :: a;
      if !valid || !GoodDiscovery(subject, addresses, others) {
        AbandonStep();
      } else {
        KeepAddresses(subject, addresses, dispatched);
      }
    }

    method KeepAddresses(subject: Subject, addresses: seq<Address>, dispatched: bool)
      requires Valid()
      modifies this
      ensures Valid() && state == AcceptAddresses(old(state), subject, addresses, dispatched)
    {
      selected := selected[subject.id := addresses];
      discovered := discovered + {subject.id};
      pending := None;
      state := state.(selected := selected, discovered := discovered, pending := None);
      if active {
        IssueStep(subject, Connecting, dispatched);
      }
    }

    method AcceptConnection(subject: Subject, sensors: seq<Sensor>, valid: bool, dispatched: bool)
      requires Valid()
      modifies this
      ensures Valid() && state == OnConnected(old(state), subject, sensors, valid, dispatched)
    {
      var chosen := if subject.id in selected then selected[subject.id] else [];
      if !valid || !GoodConnection(subject, chosen, sensors) {
        AbandonStep();
      } else {
        CompleteSubject(subject, sensors, dispatched);
      }
    }

    method CompleteSubject(subject: Subject, sensors: seq<Sensor>, dispatched: bool)
      requires Valid()
      modifies this
      ensures Valid() && state == ConnectionSequence.CompleteSubject(old(state), subject, sensors, dispatched)
    {
      completed := completed + {subject.id};
      pending := None;
      state := state.(completed := completed, pending := None, confirmed := state.confirmed[subject.id := Reported(sensors)]);
      if !active {
        return;
      }
      out := out + [Identify(subject.node, subject.id)];
      index := index + 1;
      state := state.(out := out, index := index);
      NextSubject(dispatched);
    }
  }

  lemma SubjectsOnExtends(subjects: seq<Subject>, node: NodeId, i: nat)
    requires i < |subjects|
    ensures SubjectsOn(subjects[..i + 1], node) ==
            SubjectsOn(subjects[..i], node) + if subjects[i].node == node then {subjects[i].id} else {}
  {
    var a, b := subjects[..i], subjects[..i + 1];
    forall id | id in SubjectsOn(a, node) ensures id in SubjectsOn(b, node) {
      var k :| 0 <= k < |a| && a[k].node == node && a[k].id == id;
      assert b[k] == a[k];
    }
    assert b[i] == subjects[i];
  }

  method ResultsOf(results: seq<SubjectResult>, id: SubjectId) returns (mine: seq<SubjectResult>)
    ensures mine == ResultsFor(results, id)
  {
    mine := [];
    for i := 0 to |results|
      invariant mine == ResultsFor(results[..i], id)
    {
      assert results[..i + 1][..i] == results[..i];
      if results[i].subject == id {
        mine := mine + [results[i]];
      }
    }
    assert results[..|results|] == results;
  }
}
