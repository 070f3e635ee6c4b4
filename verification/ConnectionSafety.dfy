/** What every run of the ordered Connect All keeps, and what follows from it. */
module ConnectionSafety {
  import opened Wrappers
  import opened ConnectionSequence

  // ---------------------------------------------------------------- the invariant

  ghost predicate KnownIds(s: State) {
    && UniqueIds(s.subjects)
    && (forall id :: id in s.selected ==> HasId(s.subjects, id))
    && s.discovered <= s.selected.Keys && s.completed <= s.selected.Keys
  }

  /** A discovered subject has one distinct, nonempty address per location. */
  ghost predicate GoodSelection(s: State, i: nat)
    requires i < |s.subjects|
  {
    var id := s.subjects[i].id;
    id in s.discovered ==>
      && id in s.selected && |s.selected[id]| == |s.subjects[i].locations| && Distinct(s.selected[id])
      && "" !in s.selected[id]
  }

  ghost predicate Disjoint(s: State, a: SubjectId, b: SubjectId) {
    a in s.selected && b in s.selected ==> forall x :: x in s.selected[a] ==> x !in s.selected[b]
  }

  /** Discovered subjects share no address. */
  ghost predicate Exclusive(s: State) {
    && (forall i: nat :: i < |s.subjects| ==> GoodSelection(s, i))
    && (forall a, b :: a in s.discovered && b in s.discovered && a != b ==> Disjoint(s, a, b))
  }

  /** A completed subject was confirmed with the pairing of its current selection. */
  ghost predicate ConfirmedOk(s: State, i: nat)
    requires i < |s.subjects|
  {
    var id := s.subjects[i].id;
    id in s.completed ==>
      id in s.selected && id in s.confirmed && s.confirmed[id] == Pairing(s.selected[id], s.subjects[i].locations)
  }

  ghost predicate DataOk(s: State) {
    KnownIds(s) && Exclusive(s) && forall i: nat :: i < |s.subjects| ==> ConfirmedOk(s, i)
  }

  /** The outstanding step is about a configured subject that it can still change. */
  ghost predicate PendingOk(s: State) {
    s.pending.Some? ==>
      var p := s.pending.value;
      && p.subject in s.subjects && s.sequence.Some? && p.token < s.nextToken
      && p.subject.id !in s.completed
      && (p.op.Discovering? ==> p.subject.id !in s.discovered)
      && (p.op.Connecting? ==> p.subject.id in s.selected)
  }

  /** An active sequence has its one step outstanding, at the cursor, with the timer armed; an inactive one has no timer. */
  ghost predicate ActiveOk(s: State) {
    if s.active then
      && s.index < |s.subjects| && s.pending.Some? && s.pending.value.subject == s.subjects[s.index]
      && s.timer == Some(s.pending.value.token)
    else s.timer.None?
  }

  function Rank(step: (nat, Operation)): nat {
    2 * step.0 + if step.1.Connecting? then 1 else 0
  }

  ghost predicate Increasing(issued: seq<(nat, Operation)>, bound: nat) {
    && (forall i :: 0 <= i < |issued| ==> Rank(issued[i]) < bound)
    && (forall i, j :: 0 <= i < j < |issued| ==> Rank(issued[i]) < Rank(issued[j]))
  }

  ghost predicate IssuedOk(s: State) {
    && Increasing(s.issued, 2 * |s.subjects|)
    && (s.active && s.pending.Some? ==>
          s.issued != [] && s.issued[|s.issued| - 1] == (s.index, s.pending.value.op))
  }

  ghost predicate AllBehindCompleted(s: State) {
    forall j :: 0 <= j < s.index && j < |s.subjects| ==> s.subjects[j].id in s.completed
  }

  /** Behind the cursor everything stays completed, exactly until an out-of-sequence report hits it. */
  ghost predicate BehindOk(s: State) {
    s.active ==> (s.disturbed <==> !AllBehindCompleted(s))
  }

  ghost predicate Inv(s: State) {
    DataOk(s) && PendingOk(s) && ActiveOk(s) && IssuedOk(s) && BehindOk(s)
  }

  // ---------------------------------------------------------------- issuing steps

  lemma IncreasingExtends(issued: seq<(nat, Operation)>, bound: nat, step: (nat, Operation), bigger: nat)
    requires Increasing(issued, bound) && bound <= Rank(step) < bigger
    ensures Increasing(issued + [step], bigger)
  {
  }

  lemma LastBounds(issued: seq<(nat, Operation)>, bound: nat)
    requires Increasing(issued, bound) && issued != []
    ensures Increasing(issued, Rank(issued[|issued| - 1]) + 1)
  {
  }

  /** The data depends only on the configuration, the selection and what is known of it. */
  lemma SameData(s: State, t: State)
    requires DataOk(s)
    requires t.subjects == s.subjects && t.selected == s.selected && t.discovered == s.discovered
             && t.completed == s.completed && t.confirmed == s.confirmed
    ensures DataOk(t)
  {
    forall i: nat | i < |t.subjects| ensures GoodSelection(t, i) && ConfirmedOk(t, i) {
      assert GoodSelection(s, i) && ConfirmedOk(s, i);
    }
    forall a, b | a in t.discovered && b in t.discovered && a != b ensures Disjoint(t, a, b) {
      assert Disjoint(s, a, b);
    }
  }

  lemma IssueKeeps(s: State, op: Operation, dispatched: bool)
    requires DataOk(s) && s.active && s.sequence.Some? && s.index < |s.subjects| && BehindOk(s)
    requires Increasing(s.issued, Rank((s.index, op)))
    requires var id := s.subjects[s.index].id;
             && id !in s.completed && (op.Discovering? <==> id !in s.discovered)
    ensures Inv(Issue(s, s.subjects[s.index], op, dispatched))
  {
    SameData(s, Issue(s, s.subjects[s.index], op, dispatched));
    IncreasingExtends(s.issued, Rank((s.index, op)), (s.index, op), 2 * |s.subjects|);
  }

  lemma {:induction false} NextSubjectKeeps(s: State, dispatched: bool)
    requires DataOk(s) && s.active && s.pending.None? && s.timer.None? && s.sequence.Some?
    requires s.index <= |s.subjects| && BehindOk(s) && Increasing(s.issued, 2 * s.index)
    ensures Inv(NextSubject(s, dispatched))
    ensures NextSubject(s, dispatched).subjects == s.subjects
    decreases |s.subjects| - s.index
  {
    if s.index >= |s.subjects| {
      SameData(s, NextSubject(s, dispatched));
    } else if s.subjects[s.index].id in s.completed {
      var t := s.(index := s.index + 1);
      SameData(s, t);
      assert AllBehindCompleted(t) <==> AllBehindCompleted(s);
      NextSubjectKeeps(t, dispatched);
    } else {
      IssueKeeps(s, if s.subjects[s.index].id in s.discovered then Connecting else Discovering, dispatched);
    }
  }

  lemma StartKeeps(s: State, dispatched: bool)
    requires Inv(s)
    ensures Inv(Start(s, dispatched))
  {
    if Busy(s) {
      SameData(s, Start(s, dispatched));
    } else if s.subjects != [] {
      SameData(s, Begun(s));
      NextSubjectKeeps(Begun(s), dispatched);
    }
  }

  lemma FailKeeps(s: State)
    requires DataOk(s) && PendingOk(s) && Increasing(s.issued, 2 * |s.subjects|)
    ensures Inv(Fail(s)) && Inv(Fail(s).(pending := None))
  {
    SameData(s, Fail(s));
    SameData(s, Fail(s).(pending := None));
  }

  lemma GiveUpKeeps(s: State)
    requires DataOk(s) && PendingOk(s) && Increasing(s.issued, 2 * |s.subjects|) && s.timer.None?
    ensures Inv(GiveUp(s))
  {
    FailKeeps(s);
    SameData(s, s.(pending := None));
  }

  // ---------------------------------------------------------------- events

  /** Forgetting subjects altogether. */
  lemma ForgetKeepsData(s: State, gone: set<SubjectId>, t: State)
    requires DataOk(s)
    requires t.subjects == s.subjects && t.confirmed == s.confirmed
             && t.selected == s.selected - gone && t.discovered == s.discovered - gone && t.completed == s.completed - gone
    ensures DataOk(t)
  {
    forall i: nat | i < |t.subjects| ensures GoodSelection(t, i) && ConfirmedOk(t, i) {
      assert GoodSelection(s, i) && ConfirmedOk(s, i);
    }
    forall a, b | a in t.discovered && b in t.discovered && a != b ensures Disjoint(t, a, b) {
      assert Disjoint(s, a, b);
    }
  }

  lemma RetireKeeps(s: State, node: NodeId)
    requires Inv(s)
    ensures Inv(Retire(s, node))
  {
    var gone := SubjectsOn(s.subjects, node);
    var t := s.(selected := s.selected - gone, completed := s.completed - gone, discovered := s.discovered - gone,
                disturbed := s.disturbed || (s.active && BehindIn(s, gone)));
    ForgetKeepsData(s, gone, t);
    if t.pending.Some? && t.pending.value.subject.node == node {
      var bare := t.(pending := None);
      SameData(t, bare);
      FailKeeps(bare);
    } else {
      if s.pending.Some? {
        var p := s.pending.value;
        assert p.subject.id !in gone by {
          var k :| 0 <= k < |s.subjects| && s.subjects[k] == p.subject;
        }
      }
      assert s.active ==> (AllBehindCompleted(t) <==> AllBehindCompleted(s) && !BehindIn(s, gone));
    }
  }

  lemma UncompleteKeepsData(s: State, hurt: set<SubjectId>)
    requires DataOk(s)
    ensures DataOk(s.(completed := s.completed - hurt))
  {
    var t := s.(completed := s.completed - hurt);
    forall i: nat | i < |t.subjects| ensures GoodSelection(t, i) && ConfirmedOk(t, i) {
      assert GoodSelection(s, i) && ConfirmedOk(s, i);
    }
    forall a, b | a in t.discovered && b in t.discovered && a != b ensures Disjoint(t, a, b) {
      assert Disjoint(s, a, b);
    }
  }

  lemma LoseKeeps(s: State, lost: set<Address>)
    requires Inv(s)
    ensures Inv(Lose(s, lost))
  {
    var hurt := HurtIn(s.selected, lost);
    UncompleteKeepsData(s, hurt);
    var t := s.(completed := s.completed - hurt);
    if s.active && s.completed * hurt != {} {
      FailKeeps(t);
    } else {
      if s.active {
        forall id | id in s.completed ensures id !in hurt {
          assert id !in s.completed * hurt;
        }
        assert t.completed == s.completed;
      }
    }
  }

  /** Rewriting the selection of a subject that is neither discovered nor completed any more. */
  lemma ReselectKeepsData(s: State, id: SubjectId, addresses: seq<Address>, t: State)
    requires DataOk(s) && HasId(s.subjects, id)
    requires t.subjects == s.subjects && t.confirmed == s.confirmed
             && t.selected == s.selected[id := addresses]
             && t.discovered == s.discovered - {id} && t.completed == s.completed - {id}
    ensures DataOk(t)
  {
    forall i: nat | i < |t.subjects| ensures GoodSelection(t, i) && ConfirmedOk(t, i) {
      assert GoodSelection(s, i) && ConfirmedOk(s, i);
    }
    forall a, b | a in t.discovered && b in t.discovered && a != b ensures Disjoint(t, a, b) {
      assert Disjoint(s, a, b);
    }
  }

  lemma {:induction false} RediscoverKeeps(s: State, results: seq<SubjectResult>)
    requires Inv(s)
    ensures Inv(Rediscover(s, results))
  {
    if results != [] {
      var t := Rediscover(s, results[..|results| - 1]);
      RediscoverKeeps(s, results[..|results| - 1]);
      var r := results[|results| - 1];
      if HasId(t.subjects, r.subject) {
        var u := Rediscover(s, results);
        ReselectKeepsData(t, r.subject, r.discovered, u);
        assert t.active ==> (AllBehindCompleted(u) <==> AllBehindCompleted(t) && !BehindIn(t, {r.subject}));
      }
    }
  }

  /** After a partial selection is kept, only the timer and that selection have changed. */
  lemma KeepSelectionKeeps(s: State, e: Event)
    requires Inv(s) && e.Reply? && s.pending.Some?
    ensures var t := KeepSelection(s, e);
            DataOk(t) && PendingOk(t) && t.timer.None? && IssuedOk(t) && BehindOk(t)
  {
    var p, t := s.pending.value, KeepSelection(s, e);
    if t.selected != s.selected {
      assert s.discovered - {p.subject.id} == s.discovered && s.completed - {p.subject.id} == s.completed;
      var k :| 0 <= k < |s.subjects| && s.subjects[k] == p.subject;
      assert HasId(s.subjects, p.subject.id);
      ReselectKeepsData(s, p.subject.id, e.selected, t);
    } else {
      SameData(s, t);
    }
  }

  lemma DiscoveredKeepsData(s: State, subject: Subject, addresses: seq<Address>, t: State)
    requires DataOk(s) && subject in s.subjects && subject.id !in s.completed
    requires GoodDiscovery(subject, addresses, AddressesOfOthers(s.selected, subject.id))
    requires t.subjects == s.subjects && t.confirmed == s.confirmed && t.completed == s.completed
             && t.selected == s.selected[subject.id := addresses] && t.discovered == s.discovered + {subject.id}
    ensures DataOk(t)
  {
    var k :| 0 <= k < |s.subjects| && s.subjects[k] == subject;
    forall i: nat | i < |t.subjects| ensures GoodSelection(t, i) && ConfirmedOk(t, i) {
      assert GoodSelection(s, i) && ConfirmedOk(s, i);
    }
    assert HasId(t.subjects, subject.id);
    var others := AddressesOfOthers(s.selected, subject.id);
    forall a, b | a in t.discovered && b in t.discovered && a != b ensures Disjoint(t, a, b) {
      if a != subject.id && b != subject.id {
        assert Disjoint(s, a, b);
      } else {
        var other := if a == subject.id then b else a;
        assert forall x :: x in s.selected[other] ==> x in others;
      }
    }
  }

  lemma OnDiscoveredKeeps(s: State, addresses: seq<Address>, valid: bool, dispatched: bool)
    requires DataOk(s) && PendingOk(s) && s.timer.None? && IssuedOk(s) && BehindOk(s)
    requires s.pending.Some? && s.pending.value.op.Discovering?
    requires s.active ==> s.index < |s.subjects| && s.pending.value.subject == s.subjects[s.index]
    ensures Inv(OnDiscovered(s, s.pending.value.subject, addresses, valid, dispatched))
  {
    var subject := s.pending.value.subject;
    if !valid || !GoodDiscovery(subject, addresses, AddressesOfOthers(s.selected, subject.id)) {
      GiveUpKeeps(s);
    } else {
      var t := s.(selected := s.selected[subject.id := addresses], discovered := s.discovered + {subject.id},
                  pending := None);
      DiscoveredKeepsData(s, subject, addresses, t);
      if t.active {
        LastBounds(s.issued, 2 * |s.subjects|);
        IssueKeeps(t, Connecting, dispatched);
      }
    }
  }

  lemma ConnectedKeepsData(s: State, subject: Subject, sensors: seq<Sensor>, t: State)
    requires DataOk(s) && subject in s.subjects && subject.id in s.selected
    requires GoodConnection(subject, s.selected[subject.id], sensors)
    requires t.subjects == s.subjects && t.selected == s.selected && t.discovered == s.discovered
             && t.completed == s.completed + {subject.id} && t.confirmed == s.confirmed[subject.id := Reported(sensors)]
    ensures DataOk(t)
  {
    var k :| 0 <= k < |s.subjects| && s.subjects[k] == subject;
    forall i: nat | i < |t.subjects| ensures GoodSelection(t, i) && ConfirmedOk(t, i) {
      assert GoodSelection(s, i) && ConfirmedOk(s, i);
    }
    forall a, b | a in t.discovered && b in t.discovered && a != b ensures Disjoint(t, a, b) {
      assert Disjoint(s, a, b);
    }
  }

  lemma OnConnectedKeeps(s: State, sensors: seq<Sensor>, valid: bool, dispatched: bool)
    requires DataOk(s) && PendingOk(s) && s.timer.None? && IssuedOk(s) && BehindOk(s)
    requires s.pending.Some? && s.pending.value.op.Connecting?
    requires s.active ==> s.index < |s.subjects| && s.pending.value.subject == s.subjects[s.index]
    ensures Inv(OnConnected(s, s.pending.value.subject, sensors, valid, dispatched))
  {
    var subject := s.pending.value.subject;
    if !valid || !GoodConnection(subject, s.selected[subject.id], sensors) {
      GiveUpKeeps(s);
    } else {
      CompleteKeeps(s, sensors, dispatched);
    }
  }

  lemma CompleteKeeps(s: State, sensors: seq<Sensor>, dispatched: bool)
    requires DataOk(s) && PendingOk(s) && s.timer.None? && IssuedOk(s) && BehindOk(s)
    requires s.pending.Some? && s.pending.value.op.Connecting?
    requires s.active ==> s.index < |s.subjects| && s.pending.value.subject == s.subjects[s.index]
    requires GoodConnection(s.pending.value.subject, s.selected[s.pending.value.subject.id], sensors)
    ensures Inv(CompleteSubject(s, s.pending.value.subject, sensors, dispatched))
  {
    var subject := s.pending.value.subject;
    var t := s.(completed := s.completed + {subject.id}, pending := None,
                confirmed := s.confirmed[subject.id := Reported(sensors)]);
    ConnectedKeepsData(s, subject, sensors, t);
    if t.active {
      var u := t.(out := t.out + [Identify(subject.node, subject.id)], index := t.index + 1);
      SameData(t, u);
      LastBounds(s.issued, 2 * |s.subjects|);
      assert AllBehindCompleted(u) <==> AllBehindCompleted(s);
      NextSubjectKeeps(u, dispatched);
    }
  }

  lemma OnAnswerKeeps(s: State, e: Event, dispatched: bool)
    requires Inv(s) && e.Reply? && Answers(s, e)
    ensures Inv(OnAnswer(s, e, dispatched))
  {
    KeepSelectionKeeps(s, e);
    var p, t := s.pending.value, KeepSelection(s, e);
    var mine := ResultsFor(e.results, p.subject.id);
    if e.kind.Error? {
      GiveUpKeeps(t);
    } else if p.op.Discovering? {
      OnDiscoveredKeeps(t, if mine != [] then mine[0].discovered else [], |mine| == 1 && e.complete, dispatched);
    } else {
      OnConnectedKeeps(t, if mine != [] then mine[0].connected else [], |mine| == 1 && e.complete, dispatched);
    }
  }

  lemma OnEventKeeps(s: State, e: Event, dispatched: bool)
    requires Inv(s)
    ensures Inv(OnEvent(s, e, dispatched))
  {
    match e
    case CleanupStarted => if s.active { FailKeeps(s); }
    case CleanupComplete(node, recover, ready) => if recover && ready { RetireKeeps(s, node); }
    case SensorDisconnected(lost) => LoseKeeps(s, lost);
    case Reply(kind, _, sequence, _, _, _, results) =>
      RediscoverKeeps(s, results);
      var t := if kind.SensorsDiscovered? && sequence.None? then Rediscover(s, results) else s;
      if Answers(t, e) {
        OnAnswerKeeps(t, e, dispatched);
      }
  }

  lemma ConfigureKeeps(s: State, subjects: seq<Subject>)
    requires UniqueIds(subjects)
    ensures Inv(Configure(s, subjects))
  {
  }

  lemma StepKeeps(s: State, step: Step)
    requires Inv(s)
    ensures Inv(Next(s, step))
  {
    match step
    case Configured(subjects) => if UniqueIds(subjects) { ConfigureKeeps(s, subjects); }
    case Started(dispatched) => StartKeeps(s, dispatched);
    case TimerFired(token) => if Expire(s, token) != s { FailKeeps(s); }
    case Received(e, dispatched) => OnEventKeeps(s, e, dispatched);
  }

  lemma {:induction false} RunKeeps(steps: seq<Step>)
    ensures Inv(Run(steps))
  {
    if steps != [] {
      RunKeeps(steps[..|steps| - 1]);
      StepKeeps(Run(steps[..|steps| - 1]), steps[|steps| - 1]);
    }
  }

  // ---------------------------------------------------------------- what follows for every run

  /** In every run, discovered subjects have one distinct nonempty address per location and share none. */
  lemma AddressesAreExclusive(steps: seq<Step>)
    ensures var s := Run(steps);
            && (forall i: nat :: i < |s.subjects| && s.subjects[i].id in s.discovered ==>
                  var id := s.subjects[i].id;
                  && id in s.selected && |s.selected[id]| == |s.subjects[i].locations|
                  && Distinct(s.selected[id]) && "" !in s.selected[id])
            && (forall a, b :: a in s.discovered && b in s.discovered && a != b ==>
                  a in s.selected && b in s.selected && Elements(s.selected[a]) !! Elements(s.selected[b]))
  {
    RunKeeps(steps);
    var s := Run(steps);
    forall i: nat | i < |s.subjects| && s.subjects[i].id in s.discovered
      ensures var id := s.subjects[i].id;
              && id in s.selected && |s.selected[id]| == |s.subjects[i].locations|
              && Distinct(s.selected[id]) && "" !in s.selected[id]
    {
      assert GoodSelection(s, i);
    }
    forall a, b | a in s.discovered && b in s.discovered && a != b
      ensures Elements(s.selected[a]) !! Elements(s.selected[b])
    {
      assert Disjoint(s, a, b);
    }
  }

  /** In every run, an active sequence has one outstanding step, at its cursor, with the timer armed for it. */
  lemma OneOutstandingStep(steps: seq<Step>)
    ensures var s := Run(steps);
            && (s.active ==>
                  && s.index < |s.subjects| && s.pending.Some? && s.pending.value.subject == s.subjects[s.index]
                  && s.timer == Some(s.pending.value.token))
            && (!s.active ==> s.timer.None?)
            && (s.pending.Some? && s.pending.value.op.Connecting? ==> s.pending.value.subject.id in s.selected)
  {
    RunKeeps(steps);
  }

  lemma {:induction false} IncreasingIsShort(issued: seq<(nat, Operation)>, bound: nat)
    requires Increasing(issued, bound)
    ensures |issued| <= bound
  {
    if issued != [] {
      LastBounds(issued, bound);
      IncreasingIsShort(issued[..|issued| - 1], Rank(issued[|issued| - 1]));
    }
  }

  /** A sequence issues at most one discovery and then one connection per subject, in configuration order. */
  lemma AtMostTwoStepsPerSubject(steps: seq<Step>)
    ensures var s := Run(steps);
            && |s.issued| <= 2 * |s.subjects|
            && (forall i :: 0 <= i < |s.issued| ==> s.issued[i].0 < |s.subjects|)
            && (forall i, j :: 0 <= i < j < |s.issued| ==>
                  || s.issued[i].0 < s.issued[j].0
                  || (s.issued[i].0 == s.issued[j].0 && s.issued[i].1.Discovering? && s.issued[j].1.Connecting?))
  {
    RunKeeps(steps);
    var s := Run(steps);
    IncreasingIsShort(s.issued, 2 * |s.subjects|);
    forall i | 0 <= i < |s.issued| ensures Rank(s.issued[i]) < 2 * |s.subjects| {
    }
    forall i, j | 0 <= i < j < |s.issued| ensures Rank(s.issued[i]) < Rank(s.issued[j]) {
    }
  }

  /** How much an active sequence still has to issue. */
  function Measure(s: State): int {
    if s.issued == [] then 2 * |s.subjects| else 2 * |s.subjects| - Rank(s.issued[|s.issued| - 1])
  }

  lemma {:induction false} NextSubjectIssues(s: State, dispatched: bool)
    ensures var t := NextSubject(s, dispatched);
            && t.subjects == s.subjects
            && (t.active ==> |t.issued| == |s.issued| + 1)
            && (t.active && s.issued != [] ==> t.issued[..|s.issued|] == s.issued)
    decreases |s.subjects| - s.index
  {
    if s.index < |s.subjects| && s.subjects[s.index].id in s.completed {
      NextSubjectIssues(s.(index := s.index + 1), dispatched);
    }
  }

  lemma {:induction false} RediscoverIssuesNothing(s: State, results: seq<SubjectResult>)
    ensures var t := Rediscover(s, results);
            && t.issued == s.issued && t.subjects == s.subjects && t.pending == s.pending && t.active == s.active
            && t.out == s.out && t.index == s.index && t.sequence == s.sequence
  {
    if results != [] {
      RediscoverIssuesNothing(s, results[..|results| - 1]);
    }
  }

  /** While a sequence stays active, every event leaves its steps alone or issues a later one. */
  lemma MeasureDecreases(s: State, e: Event, dispatched: bool)
    requires Inv(s) && s.active && OnEvent(s, e, dispatched).active
    ensures var t := OnEvent(s, e, dispatched);
            && t.subjects == s.subjects
            && (t.issued == s.issued || (|t.issued| == |s.issued| + 1 && 0 < Measure(t) < Measure(s)))
  {
    OnEventKeeps(s, e, dispatched);
    var t := OnEvent(s, e, dispatched);
    if e.Reply? {
      RediscoverIssuesNothing(s, e.results);
      var u := if e.kind.SensorsDiscovered? && e.sequence.None? then Rediscover(s, e.results) else s;
      if Answers(u, e) {
        AnswerIssues(u, e, dispatched);
        assert t.issued[..|s.issued|] == s.issued;
        assert t.issued[|s.issued| - 1] == s.issued[|s.issued| - 1];
        assert Rank(t.issued[|s.issued| - 1]) < Rank(t.issued[|s.issued|]) < 2 * |t.subjects|;
      }
    }
  }

  ghost predicate IssuesOneMore(s: State, t: State) {
    t.subjects == s.subjects && |t.issued| == |s.issued| + 1 && t.issued[..|s.issued|] == s.issued
  }

  lemma ConnectionIssues(s: State, subject: Subject, sensors: seq<Sensor>, valid: bool, dispatched: bool)
    requires s.issued != []
    ensures var t := OnConnected(s, subject, sensors, valid, dispatched); t.active ==> IssuesOneMore(s, t)
  {
    if s.active {
      var u := s.(completed := s.completed + {subject.id}, pending := None,
                  confirmed := s.confirmed[subject.id := Reported(sensors)],
                  out := s.out + [Identify(subject.node, subject.id)], index := s.index + 1);
      NextSubjectIssues(u, dispatched);
      assert CompleteSubject(s, subject, sensors, dispatched) == NextSubject(u, dispatched);
    }
  }

  lemma AnswerIssues(s: State, e: Event, dispatched: bool)
    requires e.Reply? && Answers(s, e) && s.active && s.issued != [] && OnAnswer(s, e, dispatched).active
    ensures IssuesOneMore(s, OnAnswer(s, e, dispatched))
  {
    var p, t := s.pending.value, KeepSelection(s, e);
    var mine := ResultsFor(e.results, p.subject.id);
    var valid := |mine| == 1 && e.complete;
    if !e.kind.Error? && p.op.Connecting? {
      ConnectionIssues(t, p.subject, if mine != [] then mine[0].connected else [], valid, dispatched);
    }
  }

  lemma SilentAnswer(s: State, e: Event, dispatched: bool)
    requires !s.active && e.Reply? && Answers(s, e)
    ensures var t := OnAnswer(s, e, dispatched); !t.active && t.issued == s.issued && t.out == s.out
  {
    var p, t := s.pending.value, KeepSelection(s, e);
    var mine := ResultsFor(e.results, p.subject.id);
    var valid := |mine| == 1 && e.complete;
    assert !t.active && t.issued == s.issued && t.out == s.out;
    if !e.kind.Error? && p.op.Discovering? {
      SilentDiscovery(t, p.subject, if mine != [] then mine[0].discovered else [], valid, dispatched);
    } else if !e.kind.Error? {
      SilentConnection(t, p.subject, if mine != [] then mine[0].connected else [], valid, dispatched);
    }
  }

  lemma SilentDiscovery(s: State, subject: Subject, addresses: seq<Address>, valid: bool, dispatched: bool)
    requires !s.active
    ensures var t := OnDiscovered(s, subject, addresses, valid, dispatched);
            !t.active && t.issued == s.issued && t.out == s.out
  {
  }

  lemma SilentConnection(s: State, subject: Subject, sensors: seq<Sensor>, valid: bool, dispatched: bool)
    requires !s.active
    ensures var t := OnConnected(s, subject, sensors, valid, dispatched);
            !t.active && t.issued == s.issued && t.out == s.out
  {
  }

  /** An inactive sequence sends nothing, even when a late valid reply arrives. */
  lemma InactiveIsSilent(s: State, e: Event, dispatched: bool)
    requires !s.active
    ensures var t := OnEvent(s, e, dispatched); !t.active && t.issued == s.issued && t.out == s.out
  {
    if e.Reply? {
      RediscoverIssuesNothing(s, e.results);
      var u := if e.kind.SensorsDiscovered? && e.sequence.None? then Rediscover(s, e.results) else s;
      if Answers(u, e) {
        SilentAnswer(u, e, dispatched);
      }
    }
  }

  /** Losing a sensor of a completed subject stops an active sequence. */
  lemma LossStops(s: State, lost: set<Address>, id: SubjectId, a: Address)
    requires s.active && id in s.completed && id in s.selected && a in s.selected[id] && a in lost
    ensures !Lose(s, lost).active && id !in Lose(s, lost).completed
  {
    assert id in s.completed * HurtIn(s.selected, lost);
  }

  // ---------------------------------------------------------------- what "completed" means

  ghost predicate AllCompleted(s: State) {
    forall i :: 0 <= i < |s.subjects| ==> s.subjects[i].id in s.completed
  }

  predicate EmitsFinished(s: State, t: State) {
    |t.out| > |s.out| && t.out[|t.out| - 1].Finished?
  }

  lemma {:induction false} FinishedAtTheEnd(s: State, dispatched: bool)
    requires s.active && s.index <= |s.subjects| && BehindOk(s)
    ensures var t := NextSubject(s, dispatched);
            EmitsFinished(s, t) ==> (t.disturbed <==> !AllCompleted(t))
    decreases |s.subjects| - s.index
  {
    if s.index < |s.subjects| && s.subjects[s.index].id in s.completed {
      var u := s.(index := s.index + 1);
      assert AllBehindCompleted(u) <==> AllBehindCompleted(s);
      FinishedAtTheEnd(u, dispatched);
    }
  }

  lemma FinishedOnConnected(s: State, sensors: seq<Sensor>, valid: bool, dispatched: bool)
    requires s.pending.Some? && BehindOk(s) && UniqueIds(s.subjects)
    requires s.active ==> s.index < |s.subjects| && s.pending.value.subject == s.subjects[s.index]
    ensures var t := OnConnected(s, s.pending.value.subject, sensors, valid, dispatched);
            EmitsFinished(s, t) ==> (t.disturbed <==> !AllCompleted(t))
  {
    var subject := s.pending.value.subject;
    var t := OnConnected(s, subject, sensors, valid, dispatched);
    if s.active && EmitsFinished(s, t) {
      var u := s.(completed := s.completed + {subject.id}, pending := None,
                  confirmed := s.confirmed[subject.id := Reported(sensors)],
                  out := s.out + [Identify(subject.node, subject.id)], index := s.index + 1);
      assert t == NextSubject(u, dispatched);
      assert AllBehindCompleted(u) <==> AllBehindCompleted(s);
      NeverShorter(u, dispatched);
      FinishedAtTheEnd(u, dispatched);
    }
  }

  /** Going on to the next subject sends something, after everything sent before. */
  lemma {:induction false} NeverShorter(s: State, dispatched: bool)
    ensures |NextSubject(s, dispatched).out| > |s.out|
    decreases |s.subjects| - s.index
  {
    if s.index < |s.subjects| && s.subjects[s.index].id in s.completed {
      NeverShorter(s.(index := s.index + 1), dispatched);
    }
  }

  lemma DiscoveryNeverFinishes(s: State, subject: Subject, addresses: seq<Address>, valid: bool, dispatched: bool)
    ensures !EmitsFinished(s, OnDiscovered(s, subject, addresses, valid, dispatched))
    ensures !EmitsFinished(s, GiveUp(s))
  {
  }

  lemma FinishedOnAnswer(s: State, e: Event, dispatched: bool)
    requires Inv(s) && e.Reply? && Answers(s, e) && EmitsFinished(s, OnAnswer(s, e, dispatched))
    ensures var t := OnAnswer(s, e, dispatched); t.disturbed <==> !AllCompleted(t)
  {
    var p, t := s.pending.value, KeepSelection(s, e);
    KeepSelectionKeeps(s, e);
    var mine := ResultsFor(e.results, p.subject.id);
    var valid := |mine| == 1 && e.complete;
    DiscoveryNeverFinishes(t, p.subject, if mine != [] then mine[0].discovered else [], valid, dispatched);
    FinishedOnConnected(t, if mine != [] then mine[0].connected else [], valid, dispatched);
  }

  lemma FinishedOnEvent(s: State, e: Event, dispatched: bool)
    requires Inv(s) && EmitsFinished(s, OnEvent(s, e, dispatched))
    ensures var t := OnEvent(s, e, dispatched); t.disturbed <==> !AllCompleted(t)
  {
    if e.Reply? {
      RediscoverIssuesNothing(s, e.results);
      RediscoverKeeps(s, e.results);
      var u := if e.kind.SensorsDiscovered? && e.sequence.None? then Rediscover(s, e.results) else s;
      FinishedOnAnswer(u, e, dispatched);
    }
  }

  lemma FinishedOnStep(s: State, step: Step)
    requires Inv(s) && EmitsFinished(s, Next(s, step))
    ensures var t := Next(s, step); t.disturbed <==> !AllCompleted(t)
  {
    match step
    case Configured(subjects) =>
    case TimerFired(token) =>
    case Started(dispatched) =>
      FinishedAtTheEnd(Begun(s), dispatched);
    case Received(e, dispatched) =>
      FinishedOnEvent(s, e, dispatched);
  }

  /** A subject counts as connected only with exactly the pairing of its selected addresses with its locations. */
  lemma CompletedMeansConfirmed(steps: seq<Step>, i: nat)
    requires var s := Run(steps); i < |s.subjects| && s.subjects[i].id in s.completed
    ensures var s := Run(steps);
            var id := s.subjects[i].id;
            && id in s.selected && id in s.confirmed
            && s.confirmed[id] == Pairing(s.selected[id], s.subjects[i].locations)
  {
    RunKeeps(steps);
    assert ConfirmedOk(Run(steps), i);
  }

  // ---------------------------------------------------------------- what a step tells the node

  /**
   A discovery leaves alone every address another subject has; a connection uses one distinct nonempty
   address per location, none of which another discovered subject has.
   */
  ghost predicate RightAddresses(s: State, subject: Subject, c: Output)
    requires c.Command?
  {
    if c.op.Discovering? then
      forall k, x :: k in s.selected && k != subject.id && x in s.selected[k] ==> x in c.excluded
    else
      && |c.chosen| == |subject.locations| && Distinct(c.chosen) && "" !in c.chosen
      && forall k :: k in s.discovered && k != subject.id && k in s.selected ==> Elements(c.chosen) !! Elements(s.selected[k])
  }

  lemma CommandIsRight(s: State, i: nat, op: Operation)
    requires DataOk(s) && i < |s.subjects| && (op.Connecting? ==> s.subjects[i].id in s.discovered)
    ensures CommandFor(s, s.subjects[i], op).Command? && RightAddresses(s, s.subjects[i], CommandFor(s, s.subjects[i], op))
  {
    var subject := s.subjects[i];
    if op.Connecting? {
      assert GoodSelection(s, i);
      forall k | k in s.discovered && k != subject.id && k in s.selected
        ensures Elements(s.selected[subject.id]) !! Elements(s.selected[k])
      {
        assert Disjoint(s, subject.id, k);
      }
    }
  }

  /** The step only adds output, and every command it adds is for the subject at the cursor and names the right addresses. */
  ghost predicate RightOutput(s: State, t: State) {
    s.out <= t.out && forall k :: |s.out| <= k < |t.out| && t.out[k].Command? ==> RightCommand(t, t.out[k])
  }

  ghost predicate RightCommand(t: State, c: Output)
    requires c.Command?
  {
    && t.index < |t.subjects| && c.subject == t.subjects[t.index].id && c.node == t.subjects[t.index].node
    && RightAddresses(t, t.subjects[t.index], c)
  }

  lemma IssueIsRight(s: State, op: Operation, dispatched: bool)
    requires DataOk(s) && s.index < |s.subjects| && (op.Connecting? ==> s.subjects[s.index].id in s.discovered)
    ensures RightOutput(s, Issue(s, s.subjects[s.index], op, dispatched))
  {
    CommandIsRight(s, s.index, op);
  }

  lemma {:induction false} NextSubjectIsRight(s: State, dispatched: bool)
    requires DataOk(s)
    ensures RightOutput(s, NextSubject(s, dispatched))
    decreases |s.subjects| - s.index
  {
    if s.index < |s.subjects| {
      if s.subjects[s.index].id in s.completed {
        SameData(s, s.(index := s.index + 1));
        NextSubjectIsRight(s.(index := s.index + 1), dispatched);
      } else {
        IssueIsRight(s, if s.subjects[s.index].id in s.discovered then Connecting else Discovering, dispatched);
      }
    }
  }

  lemma GiveUpIsRight(s: State)
    ensures RightOutput(s, GiveUp(s)) && RightOutput(s, Fail(s))
  {
  }

  lemma DiscoveryIsRight(s: State, addresses: seq<Address>, valid: bool, dispatched: bool)
    requires DataOk(s) && PendingOk(s) && s.pending.Some? && s.pending.value.op.Discovering?
    requires s.active ==> s.index < |s.subjects| && s.pending.value.subject == s.subjects[s.index]
    ensures RightOutput(s, OnDiscovered(s, s.pending.value.subject, addresses, valid, dispatched))
  {
    var subject := s.pending.value.subject;
    if !valid || !GoodDiscovery(subject, addresses, AddressesOfOthers(s.selected, subject.id)) {
      GiveUpIsRight(s);
    } else {
      var t := s.(selected := s.selected[subject.id := addresses], discovered := s.discovered + {subject.id}, pending := None);
      DiscoveredKeepsData(s, subject, addresses, t);
      if t.active {
        IssueIsRight(t, Connecting, dispatched);
      }
    }
  }

  lemma CompletionIsRight(s: State, sensors: seq<Sensor>, dispatched: bool)
    requires DataOk(s) && PendingOk(s) && s.pending.Some? && s.pending.value.op.Connecting?
    requires GoodConnection(s.pending.value.subject, s.selected[s.pending.value.subject.id], sensors)
    ensures RightOutput(s, CompleteSubject(s, s.pending.value.subject, sensors, dispatched))
  {
    var subject := s.pending.value.subject;
    var t := s.(completed := s.completed + {subject.id}, pending := None,
                confirmed := s.confirmed[subject.id := Reported(sensors)]);
    ConnectedKeepsData(s, subject, sensors, t);
    if t.active {
      var u := t.(out := t.out + [Identify(subject.node, subject.id)], index := t.index + 1);
      SameData(t, u);
      NextSubjectIsRight(u, dispatched);
    }
  }

  lemma ConnectionIsRight(s: State, sensors: seq<Sensor>, valid: bool, dispatched: bool)
    requires DataOk(s) && PendingOk(s) && s.pending.Some? && s.pending.value.op.Connecting?
    ensures RightOutput(s, OnConnected(s, s.pending.value.subject, sensors, valid, dispatched))
  {
    var subject := s.pending.value.subject;
    if !valid || !GoodConnection(subject, s.selected[subject.id], sensors) {
      GiveUpIsRight(s);
    } else {
      CompletionIsRight(s, sensors, dispatched);
    }
  }

  lemma AnswerIsRight(s: State, e: Event, dispatched: bool)
    requires Inv(s) && e.Reply? && Answers(s, e)
    ensures RightOutput(s, OnAnswer(s, e, dispatched))
  {
    KeepSelectionKeeps(s, e);
    var p, t := s.pending.value, KeepSelection(s, e);
    var mine := ResultsFor(e.results, p.subject.id);
    var valid := |mine| == 1 && e.complete;
    if e.kind.Error? {
      GiveUpIsRight(t);
    } else if p.op.Discovering? {
      DiscoveryIsRight(t, if mine != [] then mine[0].discovered else [], valid, dispatched);
    } else {
      ConnectionIsRight(t, if mine != [] then mine[0].connected else [], valid, dispatched);
    }
  }

  lemma EventIsRight(s: State, e: Event, dispatched: bool)
    requires Inv(s)
    ensures RightOutput(s, OnEvent(s, e, dispatched))
  {
    if e.Reply? {
      RediscoverIssuesNothing(s, e.results);
      RediscoverKeeps(s, e.results);
      var u := if e.kind.SensorsDiscovered? && e.sequence.None? then Rediscover(s, e.results) else s;
      if Answers(u, e) {
        AnswerIsRight(u, e, dispatched);
      }
    }
  }

  lemma StepIsRight(s: State, step: Step)
    requires Inv(s)
    ensures RightOutput(s, Next(s, step))
  {
    match step
    case Configured(_) =>
    case TimerFired(_) =>
    case Started(dispatched) =>
      if !Busy(s) && s.subjects != [] {
        SameData(s, Begun(s));
        NextSubjectIsRight(Begun(s), dispatched);
      }
    case Received(e, dispatched) => EventIsRight(s, e, dispatched);
  }

  /** In every run, every command is for the subject at the cursor and names the right addresses when it is issued. */
  lemma EveryCommandIsRight(steps: seq<Step>, step: Step)
    ensures RightOutput(Run(steps), Run(steps + [step]))
  {
    RunKeeps(steps);
    assert (steps + [step])[..|steps|] == steps;
    StepIsRight(Run(steps), step);
  }

  // ---------------------------------------------------------------- what disturbs a sequence

  /** An out-of-sequence report about a subject behind the cursor. */
  predicate Disturbs(s: State, e: Event) {
    match e
    case CleanupComplete(node, recover, ready) => recover && ready && BehindIn(s, SubjectsOn(s.subjects, node))
    case Reply(kind, _, sequence, _, _, _, results) =>
      kind.SensorsDiscovered? && sequence.None? && exists k :: 0 <= k < |results| && BehindIn(s, {results[k].subject})
    case _ => false
  }

  lemma {:induction false} RediscoverDisturbs(s: State, results: seq<SubjectResult>)
    requires s.active
    ensures Rediscover(s, results).disturbed <==>
            s.disturbed || exists k :: 0 <= k < |results| && BehindIn(s, {results[k].subject})
  {
    if results != [] {
      var before, r := results[..|results| - 1], results[|results| - 1];
      RediscoverIssuesNothing(s, before);
      RediscoverDisturbs(s, before);
      var t := Rediscover(s, before);
      assert BehindIn(t, {r.subject}) <==> BehindIn(s, {r.subject});
      assert BehindIn(s, {r.subject}) ==> HasId(s.subjects, r.subject);
      assert forall k :: 0 <= k < |before| ==> before[k] == results[k];
    }
  }

  lemma {:induction false} NextSubjectKeepsMark(s: State, dispatched: bool)
    ensures NextSubject(s, dispatched).disturbed == s.disturbed
    decreases |s.subjects| - s.index
  {
    if s.index < |s.subjects| && s.subjects[s.index].id in s.completed {
      NextSubjectKeepsMark(s.(index := s.index + 1), dispatched);
    }
  }

  lemma ConnectedKeepsMark(s: State, subject: Subject, sensors: seq<Sensor>, valid: bool, dispatched: bool)
    ensures OnConnected(s, subject, sensors, valid, dispatched).disturbed == s.disturbed
  {
    NextSubjectKeepsMark(
      s.(completed := s.completed + {subject.id}, pending := None,
         confirmed := s.confirmed[subject.id := Reported(sensors)],
         out := s.out + [Identify(subject.node, subject.id)], index := s.index + 1), dispatched);
  }

  lemma AnswerKeepsMark(s: State, e: Event, dispatched: bool)
    requires e.Reply? && Answers(s, e)
    ensures OnAnswer(s, e, dispatched).disturbed == s.disturbed
  {
    var p, t := s.pending.value, KeepSelection(s, e);
    var mine := ResultsFor(e.results, p.subject.id);
    var valid := |mine| == 1 && e.complete;
    if !e.kind.Error? && p.op.Connecting? {
      ConnectedKeepsMark(t, p.subject, if mine != [] then mine[0].connected else [], valid, dispatched);
    }
  }

  /** Exactly the out-of-sequence reports about subjects behind the cursor disturb an active sequence. */
  lemma DisturbedByReports(s: State, e: Event, dispatched: bool)
    requires s.active
    ensures OnEvent(s, e, dispatched).disturbed <==> s.disturbed || Disturbs(s, e)
  {
    if e.Reply? {
      RediscoverDisturbs(s, e.results);
      var u := if e.kind.SensorsDiscovered? && e.sequence.None? then Rediscover(s, e.results) else s;
      if Answers(u, e) {
        AnswerKeepsMark(u, e, dispatched);
      }
    }
  }

  /** The mark changes only by a start and by these reports. */
  lemma MarkedByReports(s: State, e: Event, dispatched: bool)
    ensures OnEvent(s, e, dispatched).disturbed <==> s.disturbed || (s.active && Disturbs(s, e))
  {
    if s.active {
      DisturbedByReports(s, e, dispatched);
    } else if e.Reply? {
      RediscoverMarksNothing(s, e.results);
      RediscoverIssuesNothing(s, e.results);
      var u := if e.kind.SensorsDiscovered? && e.sequence.None? then Rediscover(s, e.results) else s;
      if Answers(u, e) {
        AnswerKeepsMark(u, e, dispatched);
      }
    }
  }

  lemma {:induction false} RediscoverMarksNothing(s: State, results: seq<SubjectResult>)
    requires !s.active
    ensures Rediscover(s, results).disturbed == s.disturbed
  {
    if results != [] {
      RediscoverMarksNothing(s, results[..|results| - 1]);
      RediscoverIssuesNothing(s, results[..|results| - 1]);
    }
  }

  // ---------------------------------------------------------------- sequences of a run

  lemma {:induction false} NextSubjectKeepsIds(s: State, dispatched: bool)
    ensures var t := NextSubject(s, dispatched); t.sequence == s.sequence && t.nextToken >= s.nextToken
    decreases |s.subjects| - s.index
  {
    if s.index < |s.subjects| && s.subjects[s.index].id in s.completed {
      NextSubjectKeepsIds(s.(index := s.index + 1), dispatched);
    }
  }

  lemma ConnectedKeepsIds(s: State, subject: Subject, sensors: seq<Sensor>, valid: bool, dispatched: bool)
    ensures var t := OnConnected(s, subject, sensors, valid, dispatched); t.sequence == s.sequence && t.nextToken >= s.nextToken
  {
    NextSubjectKeepsIds(
      s.(completed := s.completed + {subject.id}, pending := None,
         confirmed := s.confirmed[subject.id := Reported(sensors)],
         out := s.out + [Identify(subject.node, subject.id)], index := s.index + 1), dispatched);
  }

  lemma AnswerKeepsIds(s: State, e: Event, dispatched: bool)
    requires e.Reply? && Answers(s, e)
    ensures var t := OnAnswer(s, e, dispatched); t.sequence == s.sequence && t.nextToken >= s.nextToken
  {
    var p, t := s.pending.value, KeepSelection(s, e);
    var mine := ResultsFor(e.results, p.subject.id);
    var valid := |mine| == 1 && e.complete;
    if !e.kind.Error? && p.op.Connecting? {
      ConnectedKeepsIds(t, p.subject, if mine != [] then mine[0].connected else [], valid, dispatched);
    }
  }

  lemma {:induction false} RediscoverKeepsIds(s: State, results: seq<SubjectResult>)
    ensures var t := Rediscover(s, results); t.sequence == s.sequence && t.nextToken == s.nextToken
  {
    if results != [] {
      RediscoverKeepsIds(s, results[..|results| - 1]);
    }
  }

  lemma EventKeepsIds(s: State, e: Event, dispatched: bool)
    ensures var t := OnEvent(s, e, dispatched); t.sequence == s.sequence && t.nextToken >= s.nextToken
  {
    if e.Reply? {
      RediscoverKeepsIds(s, e.results);
      var u := if e.kind.SensorsDiscovered? && e.sequence.None? then Rediscover(s, e.results) else s;
      if Answers(u, e) {
        AnswerKeepsIds(u, e, dispatched);
      }
    }
  }

  ghost predicate IdIssued(s: State) {
    s.sequence.Some? ==> s.sequence.value < s.nextToken
  }

  /** Only a start makes a new sequence, and it takes a fresh id. */
  lemma SequenceIds(s: State, step: Step)
    requires IdIssued(s)
    ensures var t := Next(s, step);
            && IdIssued(t) && t.nextToken >= s.nextToken
            && (t.sequence.Some? && t.sequence != s.sequence ==>
                  step.Started? && t.sequence == Some(s.nextToken) && !t.disturbed)
  {
    match step
    case Configured(_) =>
    case TimerFired(_) =>
    case Started(dispatched) =>
      NextSubjectKeepsIds(Begun(s), dispatched);
      NextSubjectKeepsMark(Begun(s), dispatched);
    case Received(e, dispatched) => EventKeepsIds(s, e, dispatched);
  }

  lemma {:induction false} RunIds(steps: seq<Step>, j: nat)
    requires j <= |steps|
    ensures IdIssued(Run(steps)) && IdIssued(Run(steps[..j])) && Run(steps[..j]).nextToken <= Run(steps).nextToken
  {
    if steps != [] {
      var n := |steps| - 1;
      if j <= n {
        RunIds(steps[..n], j);
        assert steps[..n][..j] == steps[..j];
      } else {
        RunIds(steps[..n], n);
        assert steps[..j] == steps;
      }
      SequenceIds(Run(steps[..n]), steps[n]);
    } else {
      assert steps[..j] == steps;
    }
  }

  /** Step `j` of the run is an out-of-sequence report, during this sequence, about a subject behind the cursor. */
  ghost predicate HitAt(steps: seq<Step>, j: nat, sequence: Option<nat>) {
    j < |steps| && steps[j].Received? &&
    var s := Run(steps[..j]);
    s.active && s.sequence == sequence && Disturbs(s, steps[j].e)
  }

  ghost predicate Hit(steps: seq<Step>, sequence: Option<nat>) {
    exists j :: 0 <= j < |steps| && HitAt(steps, j, sequence)
  }

  lemma HitExtends(steps: seq<Step>, sequence: Option<nat>)
    requires steps != []
    ensures var n := |steps| - 1;
            Hit(steps, sequence) <==> Hit(steps[..n], sequence) || HitAt(steps, n, sequence)
  {
    var n := |steps| - 1;
    forall j | 0 <= j < n ensures HitAt(steps[..n], j, sequence) == HitAt(steps, j, sequence) {
      assert steps[..n][..j] == steps[..j];
    }
  }

  /** A fresh sequence has not been hit. */
  lemma FreshIsNotHit(steps: seq<Step>)
    ensures !Hit(steps, Some(Run(steps).nextToken))
  {
    forall j | 0 <= j < |steps| ensures !HitAt(steps, j, Some(Run(steps).nextToken)) {
      RunIds(steps, j);
    }
  }

  /** In every run, the mark of the current sequence says whether one of its reports hit it. */
  lemma {:induction false} MarkIsHit(steps: seq<Step>)
    ensures var s := Run(steps); s.sequence.Some? ==> (s.disturbed <==> Hit(steps, s.sequence))
  {
    if steps != [] {
      var n := |steps| - 1;
      var s, t := Run(steps[..n]), Run(steps);
      MarkIsHit(steps[..n]);
      RunIds(steps[..n], 0);
      SequenceIds(s, steps[n]);
      HitExtends(steps, t.sequence);
      if t.sequence.Some? && t.sequence != s.sequence {
        FreshIsNotHit(steps[..n]);
      } else if steps[n].Received? {
        MarkedByReports(s, steps[n].e, steps[n].dispatched);
      } else if t.sequence.Some? {
        QuietStepKeepsMark(s, steps[n]);
      }
    }
  }

  lemma QuietStepKeepsMark(s: State, step: Step)
    requires !step.Received? && IdIssued(s) && Next(s, step).sequence == s.sequence
    ensures Next(s, step).disturbed == s.disturbed
  {
    if step.Started? {
      NextSubjectKeepsIds(Begun(s), step.dispatched);
    }
  }

  lemma FinishedByAnswer(s: State, e: Event, dispatched: bool)
    requires EmitsFinished(s, OnEvent(s, e, dispatched))
    ensures s.pending.Some?
  {
    if e.Reply? {
      RediscoverIssuesNothing(s, e.results);
    }
  }

  lemma FinishedHasSequence(s: State, step: Step)
    requires Inv(s) && EmitsFinished(s, Next(s, step))
    ensures Next(s, step).sequence.Some?
  {
    if step.Started? {
      NextSubjectKeepsIds(Begun(s), step.dispatched);
    } else if step.Received? {
      EventKeepsIds(s, step.e, step.dispatched);
      FinishedByAnswer(s, step.e, step.dispatched);
    }
  }

  /** "completed" is emitted with every subject completed exactly when no report of the sequence hit one behind the cursor. */
  lemma FinishedUnlessHit(steps: seq<Step>, step: Step)
    requires EmitsFinished(Run(steps), Run(steps + [step]))
    ensures var t := Run(steps + [step]); AllCompleted(t) <==> !Hit(steps + [step], t.sequence)
  {
    RunKeeps(steps);
    assert (steps + [step])[..|steps|] == steps;
    FinishedOnStep(Run(steps), step);
    FinishedHasSequence(Run(steps), step);
    MarkIsHit(steps + [step]);
  }

  // ---------------------------------------------------------------- "completed" can lie

  const Left := Subject("L", "node", ["ankle"])
  const Right := Subject("R", "node", ["wrist"])

  function Found(token: nat, id: SubjectId, a: Address): Step {
    Received(Reply(SensorsDiscovered, Some(token), Some(0), "node", [], true, [SubjectResult(id, [a], [])]), true)
  }

  function Linked(token: nat, id: SubjectId, a: Address, l: Location): Step {
    Received(Reply(SensorConnected, Some(token), Some(0), "node", [], true,
                   [SubjectResult(id, [], [Sensor(a, l, true, true)])]), true)
  }

  function Stray(id: SubjectId, a: Address): Step {
    Received(Reply(SensorsDiscovered, None, None, "node", [], true, [SubjectResult(id, [a], [])]), true)
  }

  /** Left is connected; a stray discovery then drops it while Right is still being connected. */
  function StrayDiscovery(): seq<Step> {
    [Configured([Left, Right]), Started(true), Found(1, "L", "A"), Linked(2, "L", "A", "ankle"),
     Stray("L", "B"), Found(3, "R", "B2"), Linked(4, "R", "B2", "wrist")]
  }

  lemma OneResult(r: SubjectResult, id: SubjectId)
    ensures ResultsFor([r], id) == if r.subject == id then [r] else []
  {
    assert [r][..0] == [];
  }

  lemma RediscoverOne(s: State, r: SubjectResult)
    requires HasId(s.subjects, r.subject)
    ensures Rediscover(s, [r]) ==
            s.(completed := s.completed - {r.subject}, discovered := s.discovered - {r.subject},
               selected := s.selected[r.subject := r.discovered],
               disturbed := s.disturbed || (s.active && BehindIn(s, {r.subject})))
  {
    assert [r][..0] == [];
    assert Rediscover(s, []) == s;
  }

  /** A good discovery answer moves on to connecting the same subject. */
  lemma FoundStep(s: State, subject: Subject, a: Address)
    requires s.active && s.sequence == Some(0) && subject.node == "node" && |subject.locations| == 1 && a != ""
    requires s.pending.Some? && s.pending.value.subject == subject && s.pending.value.op.Discovering?
    requires a !in AddressesOfOthers(s.selected, subject.id)
    ensures Next(s, Found(s.pending.value.token, subject.id, a)) ==
            Issue(s.(timer := None, selected := s.selected[subject.id := [a]],
                     discovered := s.discovered + {subject.id}, pending := None), subject, Connecting, true)
  {
    OneResult(SubjectResult(subject.id, [a], []), subject.id);
  }

  /** A good connection answer moves on to the next subject. */
  lemma LinkedStep(s: State, subject: Subject, a: Address)
    requires s.active && s.sequence == Some(0) && subject.node == "node" && |subject.locations| == 1
    requires s.pending.Some? && s.pending.value.subject == subject && s.pending.value.op.Connecting?
    requires subject.id in s.selected && s.selected[subject.id] == [a]
    ensures var l := subject.locations[0];
            Next(s, Linked(s.pending.value.token, subject.id, a, l)) ==
            NextSubject(s.(timer := None, completed := s.completed + {subject.id}, pending := None,
                           confirmed := s.confirmed[subject.id := Reported([Sensor(a, l, true, true)])],
                           out := s.out + [Identify(subject.node, subject.id)], index := s.index + 1), true)
  {
    var l := subject.locations[0];
    var sensors := [Sensor(a, l, true, true)];
    OneResult(SubjectResult(subject.id, [], sensors), subject.id);
    assert Reported(sensors) == Pairing([a], subject.locations) by {
      assert seq(1, i requires 0 <= i < 1 => (sensors[i].address, sensors[i].location)) == [(a, l)];
      assert seq(1, i requires 0 <= i < 1 => ([a][i], subject.locations[i])) == [(a, l)];
    }
    assert SensorAddresses(sensors) == [a];
    assert GoodConnection(subject, [a], sensors);
  }

  /** Up to the stray discovery: Left is completed and the discovery of Right is outstanding. */
  lemma LeftConnected() returns (s: State)
    ensures s == Next(Next(Next(Next(Initial(), Configured([Left, Right])), Started(true)), Found(1, "L", "A")),
                      Linked(2, "L", "A", "ankle"))
    ensures s.active && s.sequence == Some(0) && s.subjects == [Left, Right] && s.index == 1 && s.completed == {"L"}
            && s.discovered == {"L"} && s.selected == map["L" := ["A"]] && s.pending == Some(Pending(3, Right, Discovering))
            && s.nextToken == 4
  {
    var s1 := Next(Initial(), Configured([Left, Right]));
    var s2 := Next(s1, Started(true));
    assert s2.pending == Some(Pending(1, Left, Discovering)) && s2.active && s2.sequence == Some(0) && s2.nextToken == 2;
    FoundStep(s2, Left, "A");
    var s3 := Next(s2, Found(1, "L", "A"));
    assert s3.pending == Some(Pending(2, Left, Connecting)) && s3.selected == map["L" := ["A"]];
    LinkedStep(s3, Left, "A");
    s := Next(s3, Linked(2, "L", "A", "ankle"));
  }

  lemma RunStep(steps: seq<Step>, step: Step)
    ensures Run(steps + [step]) == Next(Run(steps), step)
  {
    assert (steps + [step])[..|steps|] == steps;
  }

  /** The stray discovery drops Left behind the cursor, and the discovery of Right goes on. */
  lemma LeftDropped() returns (s: State)
    ensures var t := Next(Next(Next(Initial(), Configured([Left, Right])), Started(true)), Found(1, "L", "A"));
            s == Next(Next(Next(t, Linked(2, "L", "A", "ankle")), Stray("L", "B")), Found(3, "R", "B2"))
    ensures s.active && s.sequence == Some(0) && s.subjects == [Left, Right] && s.index == 1 && s.completed == {}
            && "R" in s.selected && s.selected["R"] == ["B2"] && s.pending == Some(Pending(4, Right, Connecting))
  {
    var s4 := LeftConnected();
    StrayDrops(s4);
    var s5 := Next(s4, Stray("L", "B"));
    FoundStep(s5, Right, "B2");
    s := Next(s5, Found(3, "R", "B2"));
  }

  lemma StrayDrops(s: State)
    requires s.active && s.sequence == Some(0) && s.subjects == [Left, Right] && s.index == 1 && s.completed == {"L"}
             && s.discovered == {"L"} && s.selected == map["L" := ["A"]] && s.pending == Some(Pending(3, Right, Discovering))
             && s.nextToken == 4
    ensures var t := Next(s, Stray("L", "B"));
            t == s.(completed := {}, discovered := {}, selected := map["L" := ["B"]], disturbed := true)
  {
    assert s.subjects[0].id == "L";
    assert HasId(s.subjects, "L") && BehindIn(s, {"L"});
    RediscoverOne(s, SubjectResult("L", ["B"], []));
  }

  /** The "completed" event does not by itself mean that every subject is connected. */
  lemma CompletedCanLie()
    ensures var steps := StrayDiscovery();
            && EmitsFinished(Run(steps[..6]), Run(steps))
            && Run(steps).subjects == [Left, Right] && Run(steps).completed == {"R"}
  {
    var s6 := LeftDropped();
    LinkedStep(s6, Right, "B2");
    var steps := StrayDiscovery();
    RunOf4(steps);
    RunStep(steps[..4], steps[4]);
    RunStep(steps[..5], steps[5]);
    RunStep(steps[..6], steps[6]);
    assert steps[..4] + [steps[4]] == steps[..5] && steps[..5] + [steps[5]] == steps[..6] && steps[..6] + [steps[6]] == steps;
  }

  lemma RunOf4(steps: seq<Step>)
    requires |steps| >= 4
    ensures Run(steps[..4]) == Next(Next(Next(Next(Initial(), steps[0]), steps[1]), steps[2]), steps[3])
  {
    assert steps[..4] == [] + [steps[0]] + [steps[1]] + [steps[2]] + [steps[3]];
    RunStep([], steps[0]);
    RunStep([] + [steps[0]], steps[1]);
    RunStep([] + [steps[0]] + [steps[1]], steps[2]);
    RunStep([] + [steps[0]] + [steps[1]] + [steps[2]], steps[3]);
  }
}
