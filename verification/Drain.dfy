/**
 The drain barrier: stop acknowledgements are collected per stop session, and the finalization
 callback runs once every expected node has drained and no subject is acquiring any more.

 The decision to finalize and the callback's return are separate steps, because the callback runs
 outside the lock and other acknowledgements, stops and starts may come in between.
 */
module Drain {
  import opened Wrappers

  type NodeId = string
  type SubjectId = string
  type StopId = string

  datatype Ack = Ack(ok: bool, drained: bool, subjects: set<SubjectId>)

  datatype Record = Record(expected: set<NodeId>, acks: map<NodeId, Ack>, finalizing: bool, finalized: bool)

  /** The aggregate drain event; `error` when some node, or the callback, failed. */
  datatype Aggregate = Aggregate(stop: StopId, error: bool, allDrained: bool)

  /**
   `running` are the callbacks in progress, `decided` the status that each was given when it was
   decided, and `returned` counts normal returns per stop session.
   */
  datatype Barrier = Barrier(
    records: map<StopId, Record>,
    active: set<SubjectId>,
    hasCallback: bool,
    running: multiset<StopId>,
    decided: map<StopId, bool>,
    returned: multiset<StopId>,
    events: seq<Aggregate>)

  // ---------------------------------------------------------------- specification

  /** Every expected node has acknowledged, and its latest acknowledgement says drained. */
  predicate AllDrained(r: Record) {
    forall n :: n in r.expected ==> n in r.acks && r.acks[n].drained
  }

  function DrainedSubjects(acks: map<NodeId, Ack>): set<SubjectId> {
    set n, s | n in acks && s in acks[n].subjects :: s
  }

  predicate SomeError(acks: map<NodeId, Ack>) {
    exists n :: n in acks && !acks[n].ok
  }

  function StartStream(b: Barrier, subjects: set<SubjectId>): Barrier {
    b.(active := b.active + subjects)
  }

  function CreateRecord(b: Barrier, id: StopId, expected: set<NodeId>): Barrier {
    b.(records := b.records[id := Record(expected, map[], false, false)])
  }

  function Emit(b: Barrier, e: Aggregate): Barrier {
    b.(events := b.events + [e])
  }

  function RecordAck(b: Barrier, id: StopId, n: NodeId, ack: Ack): Barrier {
    if id !in b.records then b
    else
      var r := b.records[id].(acks := b.records[id].acks[n := ack]);
      if !AllDrained(r) || r.finalizing || r.finalized then b.(records := b.records[id := r])
      else
        var active := b.active - DrainedSubjects(r.acks);
        var error := SomeError(r.acks);
        if active != {} then
          Emit(b.(records := b.records[id := r.(finalized := true)], active := active), Aggregate(id, error, false))
        else if !b.hasCallback then
          Emit(b.(records := b.records[id := r.(finalized := true)], active := active), Aggregate(id, error, true))
        else
          b.(records := b.records[id := r.(finalizing := true)], active := active,
             running := b.running + multiset{id}, decided := b.decided[id := error])
  }

  function CallbackReturns(b: Barrier, id: StopId): Barrier
    requires id in b.running && id in b.records
  {
    Emit(b.(records := b.records[id := b.records[id].(finalizing := false, finalized := true)],
            running := b.running - multiset{id}, returned := b.returned + multiset{id}),
         Aggregate(id, id in b.decided && b.decided[id], true))
  }

  function CallbackRaises(b: Barrier, id: StopId): Barrier
    requires id in b.running && id in b.records
  {
    Emit(b.(records := b.records[id := b.records[id].(finalizing := false)], running := b.running - multiset{id}),
         Aggregate(id, true, true))
  }

  // ---------------------------------------------------------------- runs

  datatype Step =
    | Started(subjects: set<SubjectId>)
    | Stopped(id: StopId, expected: set<NodeId>)
    | Acked(id: StopId, n: NodeId, ack: Ack)
    | Returned(id: StopId)
    | Raised(id: StopId)

  /** A stop session id is used once; a callback only ends after it began. */
  function Next(b: Barrier, step: Step): Barrier {
    match step
    case Started(subjects) => StartStream(b, subjects)
    case Stopped(id, expected) => if id in b.records then b else CreateRecord(b, id, expected)
    case Acked(id, n, ack) => RecordAck(b, id, n, ack)
    case Returned(id) => if id in b.running && id in b.records then CallbackReturns(b, id) else b
    case Raised(id) => if id in b.running && id in b.records then CallbackRaises(b, id) else b
  }

  function Run(hasCallback: bool, steps: seq<Step>): Barrier {
    if steps == [] then Barrier(map[], {}, hasCallback, multiset{}, map[], multiset{}, [])
    else Next(Run(hasCallback, steps[..|steps| - 1]), steps[|steps| - 1])
  }

  ghost predicate Inv(b: Barrier) {
    && (forall id :: id in b.running || id in b.returned ==> id in b.records)
    && (forall id :: id in b.records ==> RecordOk(b, id))
  }

  ghost predicate RecordOk(b: Barrier, id: StopId)
    requires id in b.records
  {
    var r := b.records[id];
    && b.running[id] == (if r.finalizing then 1 else 0)
    && b.returned[id] <= (if r.finalized then 1 else 0)
    && !(r.finalizing && r.finalized)
  }

  lemma AckKeeps(b: Barrier, id: StopId, n: NodeId, ack: Ack)
    requires Inv(b)
    ensures Inv(RecordAck(b, id, n, ack))
  {
    var b' := RecordAck(b, id, n, ack);
    forall k | k in b'.records ensures RecordOk(b', k) {
      assert k in b.records && RecordOk(b, k);
    }
  }

  lemma StepKeeps(b: Barrier, step: Step)
    requires Inv(b)
    ensures Inv(Next(b, step))
  {
    if step.Acked? {
      AckKeeps(b, step.id, step.n, step.ack);
    } else {
      var b' := Next(b, step);
      forall k | k in b'.records ensures RecordOk(b', k) {
        assert k in b.records ==> RecordOk(b, k);
      }
    }
  }

  lemma StepKeepsFinalized(b: Barrier, step: Step, id: StopId)
    requires Inv(b) && id in b.records && b.records[id].finalized
    ensures id in Next(b, step).records && Next(b, step).records[id].finalized
  {
    if step.Acked? {
      AckKeepsFinalized(b, step.id, step.n, step.ack, id);
    } else if step.Returned? || step.Raised? {
      assert step.id in b.running && step.id in b.records ==> !b.records[step.id].finalized by {
        assert step.id in b.records ==> RecordOk(b, step.id);
      }
    }
  }

  lemma AckKeepsFinalized(b: Barrier, acked: StopId, n: NodeId, ack: Ack, id: StopId)
    requires id in b.records && b.records[id].finalized
    ensures var t := RecordAck(b, acked, n, ack); id in t.records && t.records[id].finalized
  {
  }

  lemma {:induction false} RunKeeps(hasCallback: bool, steps: seq<Step>)
    ensures Inv(Run(hasCallback, steps))
  {
    if steps != [] {
      RunKeeps(hasCallback, steps[..|steps| - 1]);
      StepKeeps(Run(hasCallback, steps[..|steps| - 1]), steps[|steps| - 1]);
    }
  }

  /** For each stop session the callback never overlaps itself and returns normally at most once. */
  lemma FinalizesAtMostOnce(hasCallback: bool, steps: seq<Step>, id: StopId)
    ensures var b := Run(hasCallback, steps);
            && b.running[id] <= 1 && b.returned[id] <= 1
            && b.running[id] + b.returned[id] <= 1
  {
    RunKeeps(hasCallback, steps);
    var b := Run(hasCallback, steps);
    if id in b.records {
      assert RecordOk(b, id);
    } else {
      assert id !in b.running && id !in b.returned;
    }
  }

  /** The callback is started only by an acknowledgement that leaves every expected node drained and nothing active. */
  lemma DecidedWhenDrained(b: Barrier, step: Step, id: StopId)
    requires Next(b, step).running[id] > b.running[id]
    ensures step.Acked? && step.id == id
    ensures var b' := Next(b, step);
            id in b'.records && AllDrained(b'.records[id]) && b'.active == {} && !b.records[id].finalized
  {
  }

  /** `finalized` never reverts, along any continuation of any run. */
  lemma {:induction false} FinalizedForever(hasCallback: bool, steps: seq<Step>, more: seq<Step>, id: StopId)
    requires var b := Run(hasCallback, steps); id in b.records && b.records[id].finalized
    ensures var b := Run(hasCallback, steps + more); id in b.records && b.records[id].finalized
  {
    if more == [] {
      assert steps + more == steps;
    } else {
      var front := more[..|more| - 1];
      FinalizedForever(hasCallback, steps, front, id);
      RunKeeps(hasCallback, steps + front);
      StepKeepsFinalized(Run(hasCallback, steps + front), more[|more| - 1], id);
      assert (steps + more)[..|steps + more| - 1] == steps + front;
    }
  }

  /** A subject stops being active only when a stop session that names it has drained on every expected node. */
  lemma ActiveUntilDrained(b: Barrier, step: Step, subject: SubjectId)
    requires subject in b.active && subject !in Next(b, step).active
    ensures step.Acked? && step.id in b.records
    ensures var r := Next(b, step).records[step.id];
            AllDrained(r) && subject in DrainedSubjects(r.acks)
  {
  }

  // ---------------------------------------------------------------- what an acknowledgement does, exactly

  /** The acknowledgements are in from every expected node, and the latest of each says drained. */
  ghost predicate Complete(expected: set<NodeId>, acks: map<NodeId, Ack>) {
    forall n :: n in expected ==> exists k :: k in acks && k == n && acks[k].drained
  }

  /** The acknowledgement makes its session complete, and nothing was decided for the session before. */
  ghost predicate Completes(b: Barrier, id: StopId, n: NodeId, ack: Ack) {
    && id in b.records && !b.records[id].finalizing && !b.records[id].finalized
    && Complete(b.records[id].expected, b.records[id].acks[n := ack])
  }

  /** The subject is among those that the session's nodes, the sender included, acknowledged. */
  ghost predicate Names(b: Barrier, id: StopId, n: NodeId, ack: Ack, subject: SubjectId)
    requires id in b.records
  {
    subject in ack.subjects || exists k :: k in b.records[id].acks && k != n && subject in b.records[id].acks[k].subjects
  }

  /** Some node, the sender included, acknowledged with an error. */
  ghost predicate Failed(b: Barrier, id: StopId, n: NodeId, ack: Ack)
    requires id in b.records
  {
    !ack.ok || exists k :: k in b.records[id].acks && k != n && !b.records[id].acks[k].ok
  }

  lemma NamedAreDrained(b: Barrier, id: StopId, n: NodeId, ack: Ack)
    requires id in b.records
    ensures forall subject :: subject in DrainedSubjects(b.records[id].acks[n := ack]) <==> Names(b, id, n, ack, subject)
    ensures SomeError(b.records[id].acks[n := ack]) <==> Failed(b, id, n, ack)
  {
    var acks := b.records[id].acks[n := ack];
    forall subject ensures subject in DrainedSubjects(acks) <==> Names(b, id, n, ack, subject) {
      if subject in ack.subjects {
        assert acks[n] == ack;
      }
      if k :| k in b.records[id].acks && k != n && subject in b.records[id].acks[k].subjects {
        assert acks[k] == b.records[id].acks[k];
      }
    }
    if !ack.ok {
      assert acks[n] == ack;
    }
    if k :| k in b.records[id].acks && k != n && !b.records[id].acks[k].ok {
      assert acks[k] == b.records[id].acks[k];
    }
  }

  /**
   Exactly the named subjects stop being active, when the acknowledgement completes its session and not
   otherwise. The callback is then decided if there is one and nothing is active any more; otherwise the
   session is finalized at once, with its aggregate event.
   */
  lemma AckExactly(b: Barrier, id: StopId, n: NodeId, ack: Ack)
    requires id in b.records
    ensures var b', done := Next(b, Acked(id, n, ack)), Completes(b, id, n, ack);
            && (forall subject :: subject in b'.active <==> subject in b.active && !(done && Names(b, id, n, ack, subject)))
            && b'.running == b.running + (if done && b'.active == {} && b.hasCallback then multiset{id} else multiset{})
            && b'.events == b.events + (if done && !(b'.active == {} && b.hasCallback)
                                        then [Aggregate(id, Failed(b, id, n, ack), b'.active == {})] else [])
            && id in b'.records && b'.records[id].acks == b.records[id].acks[n := ack]
            && b'.records[id].expected == b.records[id].expected
            && (b'.records[id].finalizing <==> b.records[id].finalizing || (done && b'.active == {} && b.hasCallback))
            && (b'.records[id].finalized <==> b.records[id].finalized || (done && !(b'.active == {} && b.hasCallback)))
            && b'.returned == b.returned
            && b'.decided == (if done && b'.active == {} && b.hasCallback then b.decided[id := Failed(b, id, n, ack)] else b.decided)
  {
    NamedAreDrained(b, id, n, ack);
    assert AllDrained(b.records[id].(acks := b.records[id].acks[n := ack])) <==>
           Complete(b.records[id].expected, b.records[id].acks[n := ack]);
  }

  /**
   An acknowledgement for an unknown session does nothing; starting streams makes exactly their subjects active;
   a stop opens its session with the nodes it expects, none of which has acknowledged.
   */
  lemma OthersExactly(b: Barrier, id: StopId, n: NodeId, ack: Ack, subjects: set<SubjectId>, expected: set<NodeId>)
    ensures id !in b.records ==> Next(b, Acked(id, n, ack)) == b
    ensures Next(b, Started(subjects)) == b.(active := b.active + subjects)
    ensures id !in b.records ==>
              var t := Next(b, Stopped(id, expected));
              t == b.(records := t.records) && t.records.Keys == b.records.Keys + {id}
              && t.records[id] == Record(expected, map[], false, false) && forall k :: k in b.records ==> t.records[k] == b.records[k]
  {
  }

  /**
   The callback's normal return finalizes its session, with the status it was decided with; a failure leaves it
   to a later acknowledgement.
   */
  lemma CallbackExactly(b: Barrier, id: StopId)
    requires id in b.running && id in b.records
    ensures var t := Next(b, Returned(id));
            && t.active == b.active && t.running == b.running - multiset{id} && t.returned == b.returned + multiset{id}
            && id in t.records && t.records[id] == b.records[id].(finalizing := false, finalized := true)
            && t.events == b.events + [Aggregate(id, id in b.decided && b.decided[id], true)]
    ensures var t := Next(b, Raised(id));
            && t.active == b.active && t.running == b.running - multiset{id} && t.returned == b.returned
            && id in t.records && t.records[id] == b.records[id].(finalizing := false)
            && t.events == b.events + [Aggregate(id, true, true)]
  {
  }

  // ---------------------------------------------------------------- the program

  class DrainBarrier {
    var records: map<StopId, Record>
    var active: set<SubjectId>
    var hasCallback: bool
    var running: multiset<StopId>
    var decided: map<StopId, bool>
    var returned: multiset<StopId>
    var events: seq<Aggregate>

    function Abs(): Barrier
      reads this
    {
      Barrier(records, active, hasCallback, running, decided, returned, events)
    }

    constructor (callback: bool)
      ensures Abs() == Run(callback, [])
    {
      records, active, hasCallback := map[], {}, callback;
      running, decided, returned, events := multiset{}, map[], multiset{}, [];
    }

    method CreateDrainRecord(id: StopId, expected: set<NodeId>)
      modifies this
      ensures Abs() == CreateRecord(old(Abs()), id, expected)
    {
      records := records[id := Record(expected, map[], false, false)];
    }

    /** Returns whether the caller must now run the finalization callback. */
    method RecordDrainAck(id: StopId, n: NodeId, ack: Ack) returns (finalize: bool)
      modifies this
      ensures Abs() == RecordAck(old(Abs()), id, n, ack)
      ensures running == if finalize then old(running) + multiset{id} else old(running)
    {
      if id !in records {
        return false;
      }
      var r := records[id];
      r := r.(acks := r.acks[n := ack]);
      if !AllDrained(r) || r.finalizing || r.finalized {
        records := records[id := r];
        return false;
      }
      var drained, error := UnionOfAcks(r.acks);
      active := active - drained;
      finalize := active == {} && hasCallback;
      if finalize {
        r := r.(finalizing := true);
        running := running + multiset{id};
        decided := decided[id := error];
      } else {
        r := r.(finalized := true);
        events := events + [Aggregate(id, error, active == {})];
      }
      records := records[id := r];
    }

    method CallbackReturned(id: StopId)
      requires id in running && id in records
      modifies this
      ensures Abs() == CallbackReturns(old(Abs()), id)
    {
      records := records[id := records[id].(finalizing := false, finalized := true)];
      running, returned := running - multiset{id}, returned + multiset{id};
      events := events + [Aggregate(id, id in decided && decided[id], true)];
    }

    method CallbackRaised(id: StopId)
      requires id in running && id in records
      modifies this
      ensures Abs() == CallbackRaises(old(Abs()), id)
    {
      records := records[id := records[id].(finalizing := false)];
      running := running - multiset{id};
      events := events + [Aggregate(id, true, true)];
    }
  }

  method UnionOfAcks(acks: map<NodeId, Ack>) returns (subjects: set<SubjectId>, error: bool)
    ensures subjects == DrainedSubjects(acks) && error == SomeError(acks)
  {
    subjects, error := {}, false;
    var left := acks.Keys;
    while left != {}
      invariant left <= acks.Keys
      invariant subjects == set n, s | n in acks.Keys - left && s in acks[n].subjects :: s
      invariant error <==> exists n :: n in acks.Keys - left && !acks[n].ok
      decreases left
    {
      var n :| n in left;
      subjects := subjects + acks[n].subjects;
      error := error || !acks[n].ok;
      left := left - {n};
    }
  }
}
