/** A run in which an obligation can be cleared although its own sensor never confirmed a STOP. */
module StopExample {
  import opened Wrappers
  import opened StopObligations
  import opened StopSafety
  import opened StopEvidence

  const Connecting: Id -> ConnectOutcome := (id: Id) => Connects
  const Starting: Id -> bool := (id: Id) => false

  /** The plugin does not confirm its STOP in time. */
  const Stopping: Id -> StopOutcome := (id: Id) => StopOutcome(false, false, true)

  /** The deadline of the cleanup has passed already. */
  const Cleaning: Id -> CleanupOutcome := (id: Id) => CleanupOutcome(true, 0, false, false, false, false)

  /** The first sensor is started, its STOP is not confirmed, and then its link is lost. */
  function FirstLost(): seq<Step> {
    FirstStopped() + [LinkLost(0)]
  }

  function FirstStopped(): seq<Step> {
    FirstMeasuring() + [DoStop(None, true, Stopping)]
  }

  function FirstMeasuring(): seq<Step> {
    FirstLinked() + [DoStart(None, Starting)]
  }

  function FirstLinked(): seq<Step> {
    FirstBound() + [DoConnect([0], Connecting)]
  }

  function FirstBound(): seq<Step> {
    FirstConfigured() + [Discovered(0, "A")]
  }

  function FirstConfigured(): seq<Step> {
    [] + [DoReconfigure(map[0 := "ble"], [0], {}, true)]
  }

  /** A second configuration; the cleanup of its sensor comes too late. */
  function SecondLate(): seq<Step> {
    SecondBound() + [DoCleanup(None, Cleaning)]
  }

  function SecondBound(): seq<Step> {
    SecondConfigured() + [Discovered(1, "B")]
  }

  function SecondConfigured(): seq<Step> {
    FirstLost() + [DoReconfigure(map[1 := "ble"], [1], {}, true)]
  }

  /** Discovery then finds the first sensor's device again and gives its address to the second sensor. */
  function Rebound(): seq<Step> {
    SecondLate() + [Discovered(1, "A")]
  }

  function Bare(a: Address): Handle {
    Handle("ble", Some(a), false, false, false, false, NeverStarted)
  }

  const Measuring := Handle("ble", Some("A"), true, true, true, false, Owed)

  lemma Keys()
    ensures Upper("A") == "A" && Upper("B") == "B"
  {
  }

  lemma SelectOne(handles: map<Id, Handle>, id: Id, wanted: Handle -> bool)
    requires id in handles
    ensures Select(handles, [id], wanted) == if wanted(handles[id]) then [id] else []
  {
    assert [id][..0] == [];
    assert Select(handles, [], wanted) == [];
  }

  lemma Configure0()
    ensures Next(Initial(), DoReconfigure(map[0 := "ble"], [0], {}, true)) == State(map[0 := NewHandle("ble")], [0], map[])
  {
    var s := Initial();
    assert Retain(s.handles, s.sensors, s.obligations) == map[];
    assert Elements([0]) == {0};
    assert Retired(s, {}) == map[];
    assert Next(s, DoReconfigure(map[0 := "ble"], [0], {}, true)).handles == map[0 := NewHandle("ble")];
  }

  const LinkedUp := Bare("A").(connected := true, linked := true)

  lemma Connect0()
    ensures Next(State(map[0 := Bare("A")], [0], map[]), DoConnect([0], Connecting)) == State(map[0 := LinkedUp], [0], map[])
  {
    var s := State(map[0 := Bare("A")], [0], map[]);
    assert [0][..0] == [];
    assert ConnectEach(s.handles, [], Connecting) == Progress(s.handles, false);
    assert ConnectEach(s.handles, [0], Connecting) == Progress(map[0 := LinkedUp], false);
  }

  lemma Start0()
    ensures Next(State(map[0 := LinkedUp], [0], map[]), DoStart(None, Starting)) == State(map[0 := Measuring], [0], map[])
  {
    var t := State(map[0 := LinkedUp], [0], map[]);
    assert [0][..0] == [];
    SelectOne(t.handles, 0, MayStart(t, None));
    assert Startable(t, None) == [0];
    assert StartEach(t.handles, [], Starting) == Progress(t.handles, false);
    assert StartEach(t.handles, [0], Starting) == Progress(map[0 := Measuring], false);
  }

  const Isolated := Measuring.(quarantined := true)
  const Lost := Isolated.(connected := false, linked := false)

  lemma ObligeOne(s: State, id: Id)
    requires s.sensors == [id] && id in s.handles
    ensures ObligeEach(s, [id], [false]) == s.(obligations := s.obligations[Key(s.handles[id]) := Some(id)])
  {
    assert [id][..0] == [] && [false][..0] == [];
    assert ObligeEach(s, [], []) == s;
    assert ObligeEach(s, [id], [false]) == s.(obligations := Oblige(s, id));
  }

  lemma Verdict0(handles: map<Id, Handle>)
    requires handles == map[0 := Measuring]
    ensures StopEach(handles, [0], Stopping) == Outcome(map[0 := Isolated], [false])
  {
    assert [0][..0] == [];
    assert StopEach(handles, [], Stopping) == Outcome(handles, []);
  }

  /** A stop of the one configured sensor with a bad verdict. */
  lemma StopOneBad(s: State, id: Id, h: Handle)
    requires s.sensors == [id] && id in s.handles && Key(h) == Key(s.handles[id]) && h.address == s.handles[id].address
    requires StopEach(s.handles, [id], Stopping) == Outcome(s.handles[id := h], [false])
    ensures Stop(s, None, true, Stopping) == State(s.handles[id := h], [id], s.obligations[Key(h) := Some(id)])
  {
    SelectOne(s.handles, id, MayStop(None));
    assert StopTargets(s, None) == [id];
    ObligeOne(s.(handles := s.handles[id := h]), id);
  }

  lemma Stop0()
    ensures Next(OnlyFirst(Measuring, map[]), DoStop(None, true, Stopping)) == OnlyFirst(Isolated, map["A" := Some(0)])
  {
    var s := OnlyFirst(Measuring, map[]);
    Keys();
    Verdict0(s.handles);
    assert s.handles[0 := Isolated] == map[0 := Isolated];
    StopOneBad(s, 0, Isolated);
  }

  lemma Configure1()
    ensures Next(OnlyFirst(Lost, map["A" := Some(0)]), DoReconfigure(map[1 := "ble"], [1], {}, true)) ==
            WithSecond(NewHandle("ble"), map["A" := Some(0)])
  {
    var s := OnlyFirst(Lost, map["A" := Some(0)]);
    Keys();
    assert [0][..0] == [];
    assert Retain(s.handles, [], s.obligations) == s.obligations;
    assert Retain(s.handles, [0], s.obligations) == s.obligations;
    assert Elements([1]) == {1};
    assert Retired(s, {}) == s.handles;
    assert s.handles + (map id | id in map[1 := "ble"] :: NewHandle(map[1 := "ble"][id])) == map[0 := Lost, 1 := NewHandle("ble")];
  }

  /** A cleanup that comes too late changes no handle and obliges the one configured sensor. */
  lemma LateCleanup(s: State, id: Id)
    requires s.sensors == [id] && id in s.handles && HasAddress(s.handles[id])
    ensures Cleanup(s, None, Cleaning) == s.(obligations := s.obligations[Key(s.handles[id]) := Some(id)])
  {
    assert [id][..0] == [];
    SelectOne(s.handles, id, MayClean(None));
    assert CleanupTargets(s, None) == [id];
    assert CleanEach(s.handles, [], Cleaning) == Outcome(s.handles, []);
    assert s.handles[id := s.handles[id]] == s.handles;
    assert CleanEach(s.handles, [id], Cleaning) == Outcome(s.handles, [false]);
    ObligeOne(s, id);
  }

  // ---------------------------------------------------------------- the run, step by step

  lemma Extend(steps: seq<Step>, step: Step, s: State, t: State)
    requires RunFrom(Initial(), steps) == s && Next(s, step) == t
    ensures RunFrom(Initial(), steps + [step]) == t
  {
    assert (steps + [step])[..|steps|] == steps;
  }

  function OnlyFirst(h: Handle, obligations: map<Address, Option<Id>>): State {
    State(map[0 := h], [0], obligations)
  }

  function WithSecond(second: Handle, obligations: map<Address, Option<Id>>): State {
    State(map[0 := Lost, 1 := second], [1], obligations)
  }

  lemma RunFirstConfigured()
    ensures RunFrom(Initial(), FirstConfigured()) == OnlyFirst(NewHandle("ble"), map[])
  {
    Configure0();
    Extend([], DoReconfigure(map[0 := "ble"], [0], {}, true), Initial(), OnlyFirst(NewHandle("ble"), map[]));
  }

  lemma RunFirstBound()
    ensures RunFrom(Initial(), FirstBound()) == OnlyFirst(Bare("A"), map[])
  {
    RunFirstConfigured();
    assert Bind(OnlyFirst(NewHandle("ble"), map[]), 0, "A") == OnlyFirst(Bare("A"), map[]);
    Extend(FirstConfigured(), Discovered(0, "A"), OnlyFirst(NewHandle("ble"), map[]), OnlyFirst(Bare("A"), map[]));
  }

  lemma RunFirstLinked()
    ensures RunFrom(Initial(), FirstLinked()) == OnlyFirst(LinkedUp, map[])
  {
    RunFirstBound();
    Connect0();
    Extend(FirstBound(), DoConnect([0], Connecting), OnlyFirst(Bare("A"), map[]), OnlyFirst(LinkedUp, map[]));
  }

  lemma RunFirstMeasuring()
    ensures RunFrom(Initial(), FirstMeasuring()) == OnlyFirst(Measuring, map[])
  {
    RunFirstLinked();
    Start0();
    Extend(FirstLinked(), DoStart(None, Starting), OnlyFirst(LinkedUp, map[]), OnlyFirst(Measuring, map[]));
  }

  lemma RunFirstStopped()
    ensures RunFrom(Initial(), FirstStopped()) == OnlyFirst(Isolated, map["A" := Some(0)])
  {
    RunFirstMeasuring();
    Stop0();
    Extend(FirstMeasuring(), DoStop(None, true, Stopping), OnlyFirst(Measuring, map[]), OnlyFirst(Isolated, map["A" := Some(0)]));
  }

  lemma RunFirstLost()
    ensures RunFrom(Initial(), FirstLost()) == OnlyFirst(Lost, map["A" := Some(0)])
  {
    RunFirstStopped();
    assert LoseLink(OnlyFirst(Isolated, map["A" := Some(0)]), 0) == OnlyFirst(Lost, map["A" := Some(0)]);
    Extend(FirstStopped(), LinkLost(0), OnlyFirst(Isolated, map["A" := Some(0)]), OnlyFirst(Lost, map["A" := Some(0)]));
  }

  lemma RunSecondConfigured()
    ensures RunFrom(Initial(), SecondConfigured()) == WithSecond(NewHandle("ble"), map["A" := Some(0)])
  {
    RunFirstLost();
    Configure1();
    Extend(FirstLost(), DoReconfigure(map[1 := "ble"], [1], {}, true),
           OnlyFirst(Lost, map["A" := Some(0)]), WithSecond(NewHandle("ble"), map["A" := Some(0)]));
  }

  lemma RunSecondBound()
    ensures RunFrom(Initial(), SecondBound()) == WithSecond(Bare("B"), map["A" := Some(0)])
  {
    RunSecondConfigured();
    assert Bind(WithSecond(NewHandle("ble"), map["A" := Some(0)]), 1, "B") == WithSecond(Bare("B"), map["A" := Some(0)]);
    Extend(SecondConfigured(), Discovered(1, "B"),
           WithSecond(NewHandle("ble"), map["A" := Some(0)]), WithSecond(Bare("B"), map["A" := Some(0)]));
  }

  lemma CleanupStep(s: State)
    ensures Next(s, DoCleanup(None, Cleaning)) == Cleanup(s, None, Cleaning)
  {
  }

  lemma CleanupLate(s: State)
    requires s == WithSecond(Bare("B"), map["A" := Some(0)])
    ensures Next(s, DoCleanup(None, Cleaning)) == WithSecond(Bare("B"), map["A" := Some(0), "B" := Some(1)])
  {
    CleanupStep(s);
    assert Key(s.handles[1]) == "B" by {
      Keys();
    }
    LateCleanup(s, 1);
    assert s.obligations["B" := Some(1)] == map["A" := Some(0), "B" := Some(1)];
  }

  lemma RunSecondLate()
    ensures RunFrom(Initial(), SecondLate()) == WithSecond(Bare("B"), map["A" := Some(0), "B" := Some(1)])
  {
    RunSecondBound();
    var s := WithSecond(Bare("B"), map["A" := Some(0)]);
    CleanupLate(s);
    Extend(SecondBound(), DoCleanup(None, Cleaning), s, WithSecond(Bare("B"), map["A" := Some(0), "B" := Some(1)]));
  }

  lemma RunRebound()
    ensures RunFrom(Initial(), Rebound()) == WithSecond(Bare("A"), map["A" := Some(0), "B" := Some(1)])
  {
    RunSecondLate();
    var s := WithSecond(Bare("B"), map["A" := Some(0), "B" := Some(1)]);
    assert Bind(s, 1, "A") == WithSecond(Bare("A"), map["A" := Some(0), "B" := Some(1)]);
    Extend(SecondLate(), Discovered(1, "A"), s, WithSecond(Bare("A"), map["A" := Some(0), "B" := Some(1)]));
  }

  /** A reachable state from which a recovery clears the first address while its own handle still owes a STOP. */
  lemma ClearedByAnotherHandle()
    ensures var s := RunFrom(Initial(), Rebound());
            && "A" in s.obligations && s.obligations["A"] == Some(0) && Rival(s, "A", 0)
            && exists r: Request :: InOrder(s, r) && "A" !in Recover(s, r).obligations
                 && 0 in Recover(s, r).handles && Recover(s, r).handles[0].pending
  {
    RunRebound();
    Keys();
    var s := RunFrom(Initial(), Rebound());
    assert s.obligations["B"] == Some(1) && IsRival(s, "A", 0, s.obligations["B"]);
    RunKeeps(Initial(), Rebound());
    var r := RivalClears(s, "A", 0);
    assert InOrder(s, r) && "A" !in Recover(s, r).obligations;
  }
}
