/**
 Latest-value routing between sensors: each route holds one job and one replaceable value.

 Every lock section is a step, and jobs are taken from the executors in any order, so the theorems
 hold under every interleaving of submissions, workers, quiesce, drain waits and enable.
 */
module Routing {
  import opened Wrappers

  type Address = string

  datatype Route = Route(source: Address, target: Address)

  /** What became of an accepted value; values are numbered in the order of acceptance. */
  datatype Fate = Delivered | Superseded(later: nat) | Cancelled | ExecutorFailed

  /**
   `pending` maps a route to its undelivered value, if any, while a job of the route exists;
   `queued` and `running` are those jobs; `accepted`, `fate` and `delivered` are the history.
   */
  datatype Router = Router(
    enabled: bool,
    blocked: set<Address>,
    pending: map<Route, Option<nat>>,
    active: int,
    queued: multiset<Route>,
    running: multiset<Route>,
    accepted: seq<Route>,
    fate: map<nat, Fate>,
    delivered: seq<nat>)

  // ---------------------------------------------------------------- specification

  predicate Blocked(s: Router, r: Route) {
    r.source in s.blocked || r.target in s.blocked
  }

  /** None stands for every route. */
  predicate Targets(addresses: Option<set<Address>>, r: Route) {
    addresses.None? || r.source in addresses.value || r.target in addresses.value
  }

  /** Retires the route's job; a value it still holds is lost to the executor. */
  function FinishRoute(s: Router, r: Route): Router
    requires r in s.pending
  {
    s.(pending := s.pending - {r}, active := s.active - 1,
       fate := if s.pending[r].Some? then s.fate[s.pending[r].value := ExecutorFailed] else s.fate)
  }

  function Submit(s: Router, r: Route, executorOk: bool): Router {
    if !s.enabled || Blocked(s, r) then s
    else
      var k := |s.accepted|;
      var t := s.(accepted := s.accepted + [r], pending := s.pending[r := Some(k)]);
      if r in s.pending then
        if s.pending[r].Some? then t.(fate := s.fate[s.pending[r].value := Superseded(k)]) else t
      else
        var u := t.(active := s.active + 1);
        if executorOk then u.(queued := s.queued + multiset{r}) else FinishRoute(u, r)
  }

  /** A worker takes the job and the latest value; `Some` is the call it will execute. */
  function TakeCall(s: Router, r: Route): Option<nat>
    requires r in s.pending
  {
    if Blocked(s, r) then None else s.pending[r]
  }

  function BeginRun(s: Router, r: Route): Router
    requires r in s.pending && r in s.queued
  {
    var t := s.(queued := s.queued - multiset{r}, running := s.running + multiset{r}, pending := s.pending[r := None]);
    if s.pending[r].None? then t
    else if TakeCall(s, r).None? then t.(fate := s.fate[s.pending[r].value := Cancelled])
    else t.(fate := s.fate[s.pending[r].value := Delivered], delivered := s.delivered + [s.pending[r].value])
  }

  /** After the call: run again for a newer value, or retire. */
  function EndRun(s: Router, r: Route, executorOk: bool): Router
    requires r in s.pending && r in s.running
  {
    var t := s.(running := s.running - multiset{r});
    if s.pending[r].Some? && executorOk then t.(queued := s.queued + multiset{r}) else FinishRoute(t, r)
  }

  predicate Hit(s: Router, addresses: Option<set<Address>>, r: Route) {
    addresses.None? || Blocked(s, r)
  }

  function HitValues(s: Router, addresses: Option<set<Address>>): set<nat> {
    set r | r in s.pending && Hit(s, addresses, r) && s.pending[r].Some? :: s.pending[r].value
  }

  function Quiesce(s: Router, addresses: Option<set<Address>>): Router {
    var t := if addresses.None? then s.(enabled := false) else s.(blocked := s.blocked + addresses.value);
    t.(pending := map r | r in s.pending :: if Hit(t, addresses, r) then None else s.pending[r],
       fate := s.fate + map k | k in HitValues(t, addresses) :: Cancelled)
  }

  function Enable(s: Router): Router {
    s.(enabled := true, blocked := {})
  }

  /** What a drain wait waits for. */
  predicate Drained(s: Router, addresses: Option<set<Address>>) {
    forall r :: r in s.pending ==> !Targets(addresses, r)
  }

  // ---------------------------------------------------------------- runs

  datatype Step =
    | Submitted(r: Route, executorOk: bool)
    | Begins(r: Route)
    | Ends(r: Route, executorOk: bool)
    | Quiesced(addresses: Option<set<Address>>)
    | Enabled

  function Next(s: Router, step: Step): Router {
    match step
    case Submitted(r, executorOk) => Submit(s, r, executorOk)
    case Begins(r) => if r in s.queued && r in s.pending then BeginRun(s, r) else s
    case Ends(r, executorOk) => if r in s.running && r in s.pending then EndRun(s, r, executorOk) else s
    case Quiesced(addresses) => Quiesce(s, addresses)
    case Enabled => Enable(s)
  }

  function Start(): Router {
    Router(false, {}, map[], 0, multiset{}, multiset{}, [], map[], [])
  }

  function RunFrom(s: Router, steps: seq<Step>): Router {
    if steps == [] then s else Next(RunFrom(s, steps[..|steps| - 1]), steps[|steps| - 1])
  }

  // ---------------------------------------------------------------- the invariant

  /** Every pending route has exactly one queued or running job. */
  ghost predicate JobsOk(s: Router) {
    forall r :: s.queued[r] + s.running[r] == if r in s.pending then 1 else 0
  }

  /** The counter counts the pending routes. */
  ghost predicate CountOk(s: Router) {
    s.active == |s.pending.Keys|
  }

  /** A route that may not run holds no value. */
  ghost predicate QuietOk(s: Router) {
    forall r :: r in s.pending && (!s.enabled || Blocked(s, r)) ==> s.pending[r].None?
  }

  type Pending = map<Route, Option<nat>>
  type Fates = map<nat, Fate>

  /** The value a route holds was accepted for it, last of all, and has met no fate. */
  ghost predicate HeldOk(p: Pending, acc: seq<Route>, f: Fates, r: Route)
    requires r in p
  {
    p[r].Some? ==>
      && p[r].value < |acc| && acc[p[r].value] == r && p[r].value !in f
      && forall j :: p[r].value < j < |acc| ==> acc[j] != r
  }

  /** An accepted value has a fate, or its route holds it; a superseding value is later on the same route. */
  ghost predicate ValueOk(p: Pending, acc: seq<Route>, f: Fates, k: nat)
    requires k < |acc|
  {
    if k in f then f[k].Superseded? ==> k < f[k].later < |acc| && acc[f[k].later] == acc[k]
    else acc[k] in p && p[acc[k]] == Some(k)
  }

  ghost predicate ValuesOk(p: Pending, acc: seq<Route>, f: Fates) {
    && (forall r :: r in p ==> HeldOk(p, acc, f, r))
    && (forall k: nat :: k < |acc| ==> ValueOk(p, acc, f, k))
    && (forall k :: k in f ==> k < |acc|)
  }

  /** The log of deliveries holds exactly the delivered values, each route's in the order of acceptance. */
  ghost predicate OrderOk(acc: seq<Route>, f: Fates, d: seq<nat>) {
    && (forall i :: 0 <= i < |d| ==> d[i] < |acc| && d[i] in f && f[d[i]] == Delivered)
    && (forall k :: k in f && f[k] == Delivered ==> k in d)
    && (forall i, j :: 0 <= i < j < |d| && acc[d[i]] == acc[d[j]] ==> d[i] < d[j])
  }

  ghost predicate ShapeOk(s: Router) {
    JobsOk(s) && CountOk(s) && QuietOk(s)
  }

  ghost predicate Inv(s: Router) {
    ShapeOk(s) && ValuesOk(s.pending, s.accepted, s.fate) && OrderOk(s.accepted, s.fate, s.delivered)
  }

  /** The three effects of an admitted submission. */
  function Replace(s: Router, r: Route): Router
    requires r in s.pending
  {
    var k := |s.accepted|;
    s.(accepted := s.accepted + [r], pending := s.pending[r := Some(k)],
       fate := if s.pending[r].Some? then s.fate[s.pending[r].value := Superseded(k)] else s.fate)
  }

  function Enter(s: Router, r: Route): Router {
    s.(accepted := s.accepted + [r], pending := s.pending[r := Some(|s.accepted|)],
       active := s.active + 1, queued := s.queued + multiset{r})
  }

  function EnterFails(s: Router, r: Route): Router {
    s.(accepted := s.accepted + [r], fate := s.fate[|s.accepted| := ExecutorFailed])
  }

  lemma SubmitCases(s: Router, r: Route, executorOk: bool)
    requires s.enabled && !Blocked(s, r)
    ensures Submit(s, r, executorOk) ==
            if r in s.pending then Replace(s, r) else if executorOk then Enter(s, r) else EnterFails(s, r)
  {
    if r !in s.pending {
      assert s.pending[r := Some(|s.accepted|)] - {r} == s.pending;
    }
  }

  /** One more value enters a route: `f` gives the superseded one its fate. */
  lemma AcceptKeepsValues(p: Pending, acc: seq<Route>, f: Fates, r: Route)
    requires ValuesOk(p, acc, f)
    ensures var f' := if r in p && p[r].Some? then f[p[r].value := Superseded(|acc|)] else f;
            ValuesOk(p[r := Some(|acc|)], acc + [r], f')
  {
    var f' := if r in p && p[r].Some? then f[p[r].value := Superseded(|acc|)] else f;
    var p', acc' := p[r := Some(|acc|)], acc + [r];
    assert r in p ==> HeldOk(p, acc, f, r);
    forall q | q in p' ensures HeldOk(p', acc', f', q) {
      assert q in p ==> HeldOk(p, acc, f, q);
    }
    forall k: nat | k < |acc'| ensures ValueOk(p', acc', f', k) {
      assert k < |acc| ==> ValueOk(p, acc, f, k);
    }
  }

  lemma AcceptKeepsOrder(acc: seq<Route>, f: Fates, d: seq<nat>, r: Route, f': Fates)
    requires OrderOk(acc, f, d)
    requires forall k :: k in f ==> k in f'
    requires forall k :: k in f' && (k !in f || f'[k] != f[k]) ==> f'[k] != Delivered && (k in f ==> f[k] != Delivered)
    ensures OrderOk(acc + [r], f', d)
  {
  }

  lemma ReplaceKeeps(s: Router, r: Route)
    requires Inv(s) && r in s.pending && s.enabled && !Blocked(s, r)
    ensures Inv(Replace(s, r))
  {
    var t := Replace(s, r);
    assert t.pending.Keys == s.pending.Keys;
    AcceptKeepsValues(s.pending, s.accepted, s.fate, r);
    assert HeldOk(s.pending, s.accepted, s.fate, r);
    AcceptKeepsOrder(s.accepted, s.fate, s.delivered, r, t.fate);
  }

  lemma EnterKeepsShape(s: Router, r: Route)
    requires ShapeOk(s) && r !in s.pending && s.enabled && !Blocked(s, r)
    ensures ShapeOk(Enter(s, r))
  {
    EnterKeepsJobs(s, r);
    EnterKeepsCount(s, r);
  }

  lemma EnterKeepsJobs(s: Router, r: Route)
    requires JobsOk(s) && r !in s.pending
    ensures JobsOk(Enter(s, r))
  {
    var t := Enter(s, r);
    forall q ensures t.queued[q] + t.running[q] == if q in t.pending then 1 else 0 {
      assert s.queued[q] + s.running[q] == if q in s.pending then 1 else 0;
    }
  }

  lemma EnterKeepsCount(s: Router, r: Route)
    requires CountOk(s) && r !in s.pending
    ensures CountOk(Enter(s, r))
  {
    assert Enter(s, r).pending.Keys == s.pending.Keys + {r};
  }

  lemma EnterKeeps(s: Router, r: Route)
    requires Inv(s) && r !in s.pending && s.enabled && !Blocked(s, r)
    ensures Inv(Enter(s, r))
  {
    var t := Enter(s, r);
    EnterKeepsShape(s, r);
    AcceptKeepsValues(s.pending, s.accepted, s.fate, r);
    AcceptKeepsOrder(s.accepted, s.fate, s.delivered, r, t.fate);
  }

  lemma EnterFailsKeeps(s: Router, r: Route)
    requires Inv(s) && r !in s.pending
    ensures Inv(EnterFails(s, r))
  {
    var t := EnterFails(s, r);
    assert |s.accepted| !in s.fate;
    AcceptKeepsOrder(s.accepted, s.fate, s.delivered, r, t.fate);
    RefuseKeepsValues(s.pending, s.accepted, s.fate, r);
  }

  /** A value that the executor refuses at once. */
  lemma RefuseKeepsValues(p: Pending, acc: seq<Route>, f: Fates, r: Route)
    requires ValuesOk(p, acc, f) && r !in p
    ensures ValuesOk(p, acc + [r], f[|acc| := ExecutorFailed])
  {
    var acc', f' := acc + [r], f[|acc| := ExecutorFailed];
    forall q | q in p ensures HeldOk(p, acc', f', q) {
      assert HeldOk(p, acc, f, q);
    }
    forall k: nat | k < |acc'| ensures ValueOk(p, acc', f', k) {
      assert k < |acc| ==> ValueOk(p, acc, f, k);
    }
  }

  lemma SubmitKeeps(s: Router, r: Route, executorOk: bool)
    requires Inv(s)
    ensures Inv(Submit(s, r, executorOk))
  {
    if s.enabled && !Blocked(s, r) {
      SubmitCases(s, r, executorOk);
      if r in s.pending {
        ReplaceKeeps(s, r);
      } else if executorOk {
        EnterKeeps(s, r);
      } else {
        EnterFailsKeeps(s, r);
      }
    }
  }

  /** A job never finds its route blocked with a value to cancel: quiesce has emptied it. */
  lemma BlockedHoldsNothing(s: Router, r: Route)
    requires Inv(s) && r in s.pending
    ensures TakeCall(s, r) == s.pending[r]
  {
  }

  /** A value leaves its route with a final fate, and the route may go. */
  lemma LeaveKeepsValues(p: Pending, acc: seq<Route>, f: Fates, r: Route, fate: Fate)
    requires ValuesOk(p, acc, f) && r in p && p[r].Some? && !fate.Superseded?
    ensures ValuesOk(p[r := None], acc, f[p[r].value := fate])
    ensures ValuesOk(p - {r}, acc, f[p[r].value := fate])
  {
    var f', p1, p2 := f[p[r].value := fate], p[r := None], p - {r};
    assert HeldOk(p, acc, f, r);
    forall q | q in p ensures HeldOk(p1, acc, f', q) && (q != r ==> HeldOk(p2, acc, f', q)) {
      assert HeldOk(p, acc, f, q);
    }
    forall k: nat | k < |acc| ensures ValueOk(p1, acc, f', k) && ValueOk(p2, acc, f', k) {
      assert ValueOk(p, acc, f, k);
    }
  }

  lemma RetireKeepsValues(p: Pending, acc: seq<Route>, f: Fates, r: Route)
    requires ValuesOk(p, acc, f) && r in p && p[r].None?
    ensures ValuesOk(p - {r}, acc, f)
  {
    forall q | q in p - {r} ensures HeldOk(p - {r}, acc, f, q) {
      assert HeldOk(p, acc, f, q);
    }
    forall k: nat | k < |acc| ensures ValueOk(p - {r}, acc, f, k) {
      assert ValueOk(p, acc, f, k);
    }
  }

  lemma DeliverKeepsOrder(p: Pending, acc: seq<Route>, f: Fates, d: seq<nat>, r: Route)
    requires ValuesOk(p, acc, f) && OrderOk(acc, f, d) && r in p && p[r].Some?
    ensures OrderOk(acc, f[p[r].value := Delivered], d + [p[r].value])
  {
    assert HeldOk(p, acc, f, r);
  }

  lemma BeginKeeps(s: Router, r: Route)
    requires Inv(s) && r in s.pending && r in s.queued
    ensures Inv(BeginRun(s, r))
  {
    var t := BeginRun(s, r);
    BlockedHoldsNothing(s, r);
    assert t.pending.Keys == s.pending.Keys;
    if s.pending[r].Some? {
      LeaveKeepsValues(s.pending, s.accepted, s.fate, r, Delivered);
      DeliverKeepsOrder(s.pending, s.accepted, s.fate, s.delivered, r);
    } else {
      assert t.pending == s.pending;
    }
  }

  lemma EndKeeps(s: Router, r: Route, executorOk: bool)
    requires Inv(s) && r in s.pending && r in s.running
    ensures Inv(EndRun(s, r, executorOk))
  {
    EndKeepsShape(s, r, executorOk);
    if !(s.pending[r].Some? && executorOk) {
      if s.pending[r].Some? {
        assert HeldOk(s.pending, s.accepted, s.fate, r);
        LeaveKeepsValues(s.pending, s.accepted, s.fate, r, ExecutorFailed);
      } else {
        RetireKeepsValues(s.pending, s.accepted, s.fate, r);
      }
    }
  }

  lemma EndKeepsShape(s: Router, r: Route, executorOk: bool)
    requires ShapeOk(s) && r in s.pending && r in s.running
    ensures ShapeOk(EndRun(s, r, executorOk))
  {
    var t := EndRun(s, r, executorOk);
    if !(s.pending[r].Some? && executorOk) {
      assert t.pending.Keys == s.pending.Keys - {r};
    }
  }

  /** Quiesce cancels values that had no fate and touches no other. */
  lemma QuiesceFates(s: Router, addresses: Option<set<Address>>)
    requires ValuesOk(s.pending, s.accepted, s.fate)
    ensures var t := Quiesce(s, addresses);
            && (forall k :: k in s.fate ==> k in t.fate && t.fate[k] == s.fate[k])
            && (forall k :: k in t.fate && k !in s.fate ==> t.fate[k] == Cancelled && k < |s.accepted|)
  {
    forall r | r in s.pending ensures HeldOk(s.pending, s.accepted, s.fate, r) {
    }
  }

  lemma QuiesceKeepsShape(s: Router, addresses: Option<set<Address>>)
    requires ShapeOk(s)
    ensures ShapeOk(Quiesce(s, addresses))
  {
    assert Quiesce(s, addresses).pending.Keys == s.pending.Keys;
  }

  lemma QuiesceKeepsValues(s: Router, addresses: Option<set<Address>>)
    requires ValuesOk(s.pending, s.accepted, s.fate)
    ensures var t := Quiesce(s, addresses); ValuesOk(t.pending, t.accepted, t.fate)
  {
    var t := Quiesce(s, addresses);
    QuiesceFates(s, addresses);
    forall q | q in t.pending ensures HeldOk(t.pending, t.accepted, t.fate, q) {
      assert HeldOk(s.pending, s.accepted, s.fate, q);
      if t.pending[q].Some? {
        QuiesceSpares(s, addresses, q);
      }
    }
    forall k: nat | k < |t.accepted| ensures ValueOk(t.pending, t.accepted, t.fate, k) {
      assert ValueOk(s.pending, s.accepted, s.fate, k);
    }
  }

  lemma QuiesceKeeps(s: Router, addresses: Option<set<Address>>)
    requires Inv(s)
    ensures Inv(Quiesce(s, addresses))
  {
    QuiesceKeepsShape(s, addresses);
    QuiesceKeepsValues(s, addresses);
    QuiesceFates(s, addresses);
  }

  lemma QuiesceSpares(s: Router, addresses: Option<set<Address>>, q: Route)
    requires ValuesOk(s.pending, s.accepted, s.fate) && q in s.pending
    requires Quiesce(s, addresses).pending[q].Some?
    ensures s.pending[q].value !in Quiesce(s, addresses).fate
  {
    assert HeldOk(s.pending, s.accepted, s.fate, q);
    forall r | r in s.pending && s.pending[r] == s.pending[q] ensures r == q {
      assert HeldOk(s.pending, s.accepted, s.fate, r);
    }
  }

  lemma StepKeeps(s: Router, step: Step)
    requires Inv(s)
    ensures Inv(Next(s, step))
  {
    match step
    case Submitted(r, executorOk) => SubmitKeeps(s, r, executorOk);
    case Begins(r) => if r in s.queued && r in s.pending { BeginKeeps(s, r); }
    case Ends(r, executorOk) => if r in s.running && r in s.pending { EndKeeps(s, r, executorOk); }
    case Quiesced(addresses) => QuiesceKeeps(s, addresses);
    case Enabled =>
  }

  lemma {:induction false} RunKeeps(s: Router, steps: seq<Step>)
    requires Inv(s)
    ensures Inv(RunFrom(s, steps))
  {
    if steps != [] {
      RunKeeps(s, steps[..|steps| - 1]);
      StepKeeps(RunFrom(s, steps[..|steps| - 1]), steps[|steps| - 1]);
    }
  }

  // ---------------------------------------------------------------- what follows for every run

  /** Under every interleaving, a pending route has exactly one job and the counter counts the pending routes. */
  lemma OneJobPerRoute(steps: seq<Step>)
    ensures var s := RunFrom(Start(), steps);
            && s.active == |s.pending|
            && forall r :: s.queued[r] + s.running[r] == if r in s.pending then 1 else 0
  {
    RunKeeps(Start(), steps);
    var s := RunFrom(Start(), steps);
    assert |s.pending.Keys| == |s.pending|;
  }

  /**
   Every accepted value is delivered, superseded by a later value of its route, cancelled, lost to the
   executor, or still held by its route, and exactly one of these; deliveries keep the order of acceptance.
   */
  lemma EveryValueAccountedFor(steps: seq<Step>, k: nat)
    requires k < |RunFrom(Start(), steps).accepted|
    ensures var s := RunFrom(Start(), steps);
            && (k in s.fate <==> !(s.accepted[k] in s.pending && s.pending[s.accepted[k]] == Some(k)))
            && (k in s.fate && s.fate[k].Superseded? ==>
                  k < s.fate[k].later < |s.accepted| && s.accepted[s.fate[k].later] == s.accepted[k])
            && (k in s.fate && s.fate[k].Delivered? <==> k in s.delivered)
            && (forall i, j :: 0 <= i < j < |s.delivered| ==>
                  && s.delivered[i] < |s.accepted| && s.delivered[j] < |s.accepted|
                  && (s.accepted[s.delivered[i]] == s.accepted[s.delivered[j]] ==> s.delivered[i] < s.delivered[j]))
  {
    RunKeeps(Start(), steps);
    var s := RunFrom(Start(), steps);
    assert ValueOk(s.pending, s.accepted, s.fate, k);
    if s.accepted[k] in s.pending {
      assert HeldOk(s.pending, s.accepted, s.fate, s.accepted[k]);
    }
  }

  /** A retired route delivered its last accepted value, unless quiesce or the executor took it. */
  lemma RetiredRouteDeliveredLast(steps: seq<Step>, k: nat)
    requires var s := RunFrom(Start(), steps);
             && k < |s.accepted| && s.accepted[k] !in s.pending
             && forall j :: k < j < |s.accepted| ==> s.accepted[j] != s.accepted[k]
    ensures var s := RunFrom(Start(), steps);
            k in s.fate && (s.fate[k].Delivered? || s.fate[k].Cancelled? || s.fate[k].ExecutorFailed?)
  {
    RunKeeps(Start(), steps);
    var s := RunFrom(Start(), steps);
    assert ValueOk(s.pending, s.accepted, s.fate, k);
  }

  /** A value is cancelled only by a quiesce that stops its route, and lost only to a failing executor. */
  lemma WhoEndsAValue(s: Router, step: Step, k: nat)
    requires Inv(s) && k in Next(s, step).fate && k !in s.fate
    ensures Next(s, step).fate[k].Cancelled? ==> step.Quiesced?
    ensures Next(s, step).fate[k].ExecutorFailed? ==>
            (step.Submitted? || step.Ends?) && !step.executorOk
    ensures Next(s, step).fate[k].Delivered? ==> step.Begins? && TakeCall(s, step.r) == Some(k)
  {
    match step
    case Submitted(r, executorOk) => if s.enabled && !Blocked(s, r) { SubmitCases(s, r, executorOk); }
    case Begins(r) => if r in s.pending { BlockedHoldsNothing(s, r); }
    case Ends(r, executorOk) =>
    case Quiesced(addresses) => QuiesceFates(s, addresses);
    case Enabled =>
  }

  /** A fate is final. */
  lemma FatesLast(s: Router, step: Step, k: nat)
    requires Inv(s) && k in s.fate
    ensures k in Next(s, step).fate && Next(s, step).fate[k] == s.fate[k]
  {
    match step
    case Submitted(r, executorOk) =>
      assert r in s.pending ==> HeldOk(s.pending, s.accepted, s.fate, r);
      if s.enabled && !Blocked(s, r) {
        SubmitCases(s, r, executorOk);
      }
    case Begins(r) => assert r in s.pending ==> HeldOk(s.pending, s.accepted, s.fate, r);
    case Ends(r, _) => assert r in s.pending ==> HeldOk(s.pending, s.accepted, s.fate, r);
    case Quiesced(addresses) => QuiesceFates(s, addresses);
    case Enabled =>
  }

  /** Nothing quiesces, and the executor takes every job. */
  predicate Smooth(step: Step) {
    !step.Quiesced? && (step.Submitted? || step.Ends? ==> step.executorOk)
  }

  lemma {:induction false} SmoothLosesNothing(s: Router, steps: seq<Step>, k: nat)
    requires Inv(s) && k !in s.fate && forall i :: 0 <= i < |steps| ==> Smooth(steps[i])
    ensures var t := RunFrom(s, steps); k in t.fate ==> t.fate[k].Delivered? || t.fate[k].Superseded?
  {
    if steps != [] {
      var n := |steps| - 1;
      SmoothLosesNothing(s, steps[..n], k);
      RunKeeps(s, steps[..n]);
      var t := RunFrom(s, steps[..n]);
      if k in t.fate {
        FatesLast(t, steps[n], k);
      } else if k in Next(t, steps[n]).fate {
        WhoEndsAValue(t, steps[n], k);
      }
    }
  }

  /**
   A route that retires with no quiesce and no executor failure since its last value was accepted has
   delivered that value.
   */
  lemma SmoothRouteDelivers(before: seq<Step>, after: seq<Step>, k: nat)
    requires forall i :: 0 <= i < |after| ==> Smooth(after[i])
    ensures var s, t := RunFrom(Start(), before), RunFrom(RunFrom(Start(), before), after);
            && |s.accepted| <= k < |t.accepted| && t.accepted[k] !in t.pending
            && (forall j :: k < j < |t.accepted| ==> t.accepted[j] != t.accepted[k])
            ==> k in t.fate && t.fate[k].Delivered?
  {
    var s := RunFrom(Start(), before);
    RunKeeps(Start(), before);
    RunKeeps(s, after);
    var t := RunFrom(s, after);
    if |s.accepted| <= k < |t.accepted| {
      SmoothLosesNothing(s, after, k);
      assert ValueOk(t.pending, t.accepted, t.fate, k);
    }
  }

  // ---------------------------------------------------------------- what each section does, exactly

  /** Routing is on and neither end of the route is blocked. */
  predicate Open(s: Router, r: Route) {
    s.enabled && r.source !in s.blocked && r.target !in s.blocked
  }

  /** A value is accepted exactly on an open route, and becomes the route's value; a job is queued when there is none. */
  lemma SubmitsExactly(s: Router, r: Route)
    ensures var t := Next(s, Submitted(r, true));
            if !Open(s, r) then t == s
            else
              && t.accepted == s.accepted + [r] && r in t.pending && t.pending[r] == Some(|s.accepted|)
              && t.queued == s.queued + (if r in s.pending then multiset{} else multiset{r})
              && (forall q :: q != r ==> (q in t.pending <==> q in s.pending) && (q in s.pending ==> t.pending[q] == s.pending[q]))
  {
  }

  /** A job takes the value that its route holds, if the route is not blocked, and runs with it. */
  lemma BeginsExactly(s: Router, r: Route)
    requires r in s.queued && r in s.pending
    ensures var t := Next(s, Begins(r));
            && r in t.running && t.pending == s.pending[r := None] && t.queued == s.queued - multiset{r}
            && t.delivered == s.delivered
                 + (if s.pending[r].Some? && r.source !in s.blocked && r.target !in s.blocked then [s.pending[r].value] else [])
  {
  }

  /** A job whose route got a newer value runs again; otherwise, or when the executor refuses, the route retires. */
  lemma EndsExactly(s: Router, r: Route, executorOk: bool)
    requires r in s.running && r in s.pending
    ensures var t := Next(s, Ends(r, executorOk));
            && t.running == s.running - multiset{r} && t.delivered == s.delivered && t.accepted == s.accepted
            && if s.pending[r].Some? && executorOk
               then t.pending == s.pending && t.queued == s.queued + multiset{r} && t.active == s.active
               else t.pending == s.pending - {r} && t.queued == s.queued && t.active == s.active - 1
  {
  }

  /** The quiesce, or an earlier one, is about an end of the route. */
  predicate Silenced(s: Router, addresses: Option<set<Address>>, r: Route) {
    addresses.None? || r.source in s.blocked + addresses.value || r.target in s.blocked + addresses.value
  }

  /** A quiesce stops exactly its routes: each loses the value it holds, and takes none until the next enable. */
  lemma QuiescesExactly(s: Router, addresses: Option<set<Address>>, r: Route)
    ensures var t := Next(s, Quiesced(addresses));
            && (Open(t, r) <==> Open(s, r) && addresses.Some? && r.source !in addresses.value && r.target !in addresses.value)
            && (r in t.pending <==> r in s.pending)
            && (r in s.pending && Silenced(s, addresses, r) ==> t.pending[r].None?)
            && (r in s.pending && !Silenced(s, addresses, r) ==> t.pending[r] == s.pending[r])
            && t.queued == s.queued && t.running == s.running && t.active == s.active
  {
  }

  /** An enable opens every route again: the next value is accepted, whatever was quiesced before. */
  lemma EnablesExactly(s: Router, r: Route)
    ensures var t := Next(s, Enabled);
            && Open(t, r) && t == s.(enabled := true, blocked := {})
            && Next(t, Submitted(r, true)).accepted == s.accepted + [r]
  {
  }

  // ---------------------------------------------------------------- quiesce, drain, enable

  /** The routes of `addresses` are stopped. */
  predicate Stopped(s: Router, addresses: Option<set<Address>>) {
    if addresses.None? then !s.enabled else addresses.value <= s.blocked
  }

  lemma StoppedAndDrainedStays(s: Router, step: Step, addresses: Option<set<Address>>)
    requires Stopped(s, addresses) && !step.Enabled?
    ensures Stopped(Next(s, step), addresses)
    ensures Drained(s, addresses) ==> Drained(Next(s, step), addresses)
  {
  }

  ghost predicate NoEnable(steps: seq<Step>) {
    forall i :: 0 <= i < |steps| ==> !steps[i].Enabled?
  }

  lemma {:induction false} StoppedStays(s: Router, steps: seq<Step>, addresses: Option<set<Address>>)
    requires Stopped(s, addresses) && NoEnable(steps)
    ensures Stopped(RunFrom(s, steps), addresses)
    ensures Drained(s, addresses) ==> Drained(RunFrom(s, steps), addresses)
  {
    if steps != [] {
      StoppedStays(s, steps[..|steps| - 1], addresses);
      StoppedAndDrainedStays(RunFrom(s, steps[..|steps| - 1]), steps[|steps| - 1], addresses);
    }
  }

  /**
   After quiesce, once a drain wait has succeeded, no call on a targeted route is queued, running or
   started until the next enable, whatever the other threads do.
   */
  lemma NothingRunsAfterDrain(before: seq<Step>, addresses: Option<set<Address>>, between: seq<Step>, after: seq<Step>)
    requires NoEnable(between) && NoEnable(after)
    requires var q := Next(RunFrom(Start(), before), Quiesced(addresses));
             Drained(RunFrom(q, between), addresses)
    ensures var q := Next(RunFrom(Start(), before), Quiesced(addresses));
            var s := RunFrom(RunFrom(q, between), after);
            forall r :: Targets(addresses, r) ==>
              r !in s.queued && r !in s.running && Next(s, Begins(r)) == s
  {
    var q := Next(RunFrom(Start(), before), Quiesced(addresses));
    RunKeeps(Start(), before);
    StepKeeps(RunFrom(Start(), before), Quiesced(addresses));
    StoppedStays(q, between, addresses);
    StoppedStays(RunFrom(q, between), after, addresses);
    RunKeeps(q, between);
    RunKeeps(RunFrom(q, between), after);
    DrainedIsQuiet(RunFrom(RunFrom(q, between), after), addresses);
  }

  lemma DrainedIsQuiet(s: Router, addresses: Option<set<Address>>)
    requires Inv(s) && Drained(s, addresses)
    ensures forall r :: Targets(addresses, r) ==> r !in s.queued && r !in s.running && Next(s, Begins(r)) == s
  {
    forall r | Targets(addresses, r) ensures r !in s.queued && r !in s.running {
      assert s.queued[r] + s.running[r] == 0;
    }
  }

  // ---------------------------------------------------------------- the program

  /** Taking a job, field by field. */
  lemma BeginRunFields(s: Router, r: Route)
    requires r in s.pending && r in s.queued
    ensures var t, held, call := BeginRun(s, r), s.pending[r], TakeCall(s, r);
            && t == s.(queued := s.queued - multiset{r}, running := s.running + multiset{r}, pending := s.pending[r := None],
                       fate := t.fate, delivered := t.delivered)
            && t.fate == (if held.None? then s.fate else s.fate[held.value := if call.None? then Cancelled else Delivered])
            && t.delivered == (if call.None? then s.delivered else s.delivered + [call.value])
  {
  }

  class SensorRouter {
    var enabled: bool
    var blocked: set<Address>
    var pending: map<Route, Option<nat>>
    var active: int
    var queued: multiset<Route>
    var running: multiset<Route>
    var accepted: seq<Route>
    var fate: map<nat, Fate>
    var delivered: seq<nat>

    function Abs(): Router
      reads this
    {
      Router(enabled, blocked, pending, active, queued, running, accepted, fate, delivered)
    }

    constructor ()
      ensures Abs() == Start()
    {
      enabled, blocked, pending, active := false, {}, map[], 0;
      queued, running, accepted, fate, delivered := multiset{}, multiset{}, [], map[], [];
    }

    method SubmitRoutedValue(r: Route, executorOk: bool)
      modifies this
      ensures Abs() == Submit(old(Abs()), r, executorOk)
    {
      if !enabled || r.source in blocked || r.target in blocked {
        return;
      }
      var k := |accepted|;
      accepted := accepted + [r];
      if r in pending {
        if pending[r].Some? {
          fate := fate[pending[r].value := Superseded(k)];
        }
        pending := pending[r := Some(k)];
        return;
      }
      pending := pending[r := Some(k)];
      active := active + 1;
      if executorOk {
        queued := queued + multiset{r};
      } else {
        FinishRoutedRoute(r);
      }
    }

    /** The first lock section of a job; returns the call to execute. */
    method RunRoutedRoute(r: Route) returns (call: Option<nat>)
      requires r in pending && r in queued
      modifies this
      ensures Abs() == BeginRun(old(Abs()), r) && call == TakeCall(old(Abs()), r)
    {
      ghost var s := Abs();
      call := pending[r];
      queued, running := queued - multiset{r}, running + multiset{r};
      pending := pending[r := None];
      if r.source in blocked || r.target in blocked {
        if call.Some? {
          fate := fate[call.value := Cancelled];
        }
        call := None;
      }
      if call.Some? {
        fate := fate[call.value := Delivered];
        delivered := delivered + [call.value];
      }
      BeginRunFields(s, r);
    }

    /** The last lock section of a job. */
    method EndRoutedRoute(r: Route, executorOk: bool)
      requires r in pending && r in running
      modifies this
      ensures Abs() == EndRun(old(Abs()), r, executorOk)
    {
      running := running - multiset{r};
      if pending[r].Some? && executorOk {
        queued := queued + multiset{r};
      } else {
        FinishRoutedRoute(r);
      }
    }

    method FinishRoutedRoute(r: Route)
      requires r in pending
      modifies this
      ensures Abs() == FinishRoute(old(Abs()), r)
    {
      if pending[r].Some? {
        fate := fate[pending[r].value := ExecutorFailed];
      }
      pending := pending - {r};
      active := active - 1;
    }

    method QuiesceRouting(addresses: Option<set<Address>>)
      modifies this
      ensures Abs() == Quiesce(old(Abs()), addresses)
    {
      if addresses.None? {
        enabled := false;
      } else {
        blocked := blocked + addresses.value;
      }
      ghost var t := Abs();
      var held, cancelled := CancelHeld(addresses);
      assert held == Quiesce(old(Abs()), addresses).pending;
      pending, fate := held, fate + map k | k in cancelled :: Cancelled;
    }

    /** The slots after the values on the targeted routes are taken out, and those values. */
    method CancelHeld(addresses: Option<set<Address>>) returns (held: map<Route, Option<nat>>, cancelled: set<nat>)
      ensures held.Keys == pending.Keys && cancelled == HitValues(Abs(), addresses)
      ensures forall r :: r in held ==> held[r] == if Hit(Abs(), addresses, r) then None else pending[r]
    {
      held, cancelled := pending, {};
      var left := pending.Keys;
      while left != {}
        invariant left <= pending.Keys && held.Keys == pending.Keys
        invariant forall r :: r in held ==> held[r] == if r !in left && Hit(Abs(), addresses, r) then None else pending[r]
        invariant cancelled == set r | r in pending.Keys - left && Hit(Abs(), addresses, r) && pending[r].Some? :: pending[r].value
        decreases left
      {
        var r :| r in left;
        if addresses.None? || r.source in blocked || r.target in blocked {
          if pending[r].Some? {
            cancelled := cancelled + {pending[r].value};
          }
          held := held[r := None];
        }
        left := left - {r};
      }
      assert cancelled == HitValues(Abs(), addresses);
    }

    method EnableRouting()
      modifies this
      ensures Abs() == Enable(old(Abs()))
    {
      enabled := true;
      blocked := {};
    }

    /** One evaluation of the drain condition. */
    method IsDrained(addresses: Option<set<Address>>) returns (ok: bool)
      ensures ok == Drained(Abs(), addresses)
    {
      var left := pending.Keys;
      while left != {}
        invariant left <= pending.Keys
        invariant forall r :: r in pending.Keys - left ==> !Targets(addresses, r)
        decreases left
      {
        var r :| r in left;
        if addresses.None? || r.source in addresses.value || r.target in addresses.value {
          return false;
        }
        left := left - {r};
      }
      return true;
    }
  }
}
