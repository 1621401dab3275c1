/** A pass without faults can always be carried through: from every state at rest, some schedule leads back to rest. */
module LifecyclePasses {
  import opened Domain
  import opened Repository
  import opened Queries
  import opened Reconciler
  import opened Lifecycle
  import opened LifecycleInvariant
  import opened LifecycleEffects
  import opened LifecycleSteps
  import opened LifecycleTheorems
  import opened LifecycleConvergence

  // Selections exist

  lemma OldestExists(rows: Rows, ids: set<Id>) returns (oldest: Id)
    requires ids != {} && ids <= rows.Keys
    ensures oldest in ids && forall id :: id in ids ==> rows[oldest].updatedAt <= rows[id].updatedAt
    decreases |ids|
  {
    var one :| one in ids;
    var rest := ids - {one};
    oldest := one;
    if rest != {} {
      var other := OldestExists(rows, rest);
      if rows[other].updatedAt < rows[one].updatedAt { oldest := other; }
    }
    assert forall id :: id in ids <==> id == one || id in rest;
  }

  lemma InFront(matching: set<Id>, oldest: Id, rest: seq<Id>)
    requires oldest in matching && NoDuplicates(rest) && forall id :: id in rest ==> id in matching - {oldest}
    ensures NoDuplicates([oldest] + rest) && forall id :: id in [oldest] + rest ==> id in matching
    ensures |matching - {oldest}| == |matching| - 1
  {
    var ids := [oldest] + rest;
    forall i, j | 0 <= i < j < |ids| ensures ids[i] != ids[j] {
      assert ids[j] == rest[j - 1] && rest[j - 1] in rest;
    }
  }

  /** The next oldest in front of a selection from the others. */
  lemma SelectionGrows(rows: Rows, matching: set<Id>, limit: nat, oldest: Id, rest: seq<Id>)
    requires limit > 0 && oldest in matching && matching <= rows.Keys
    requires forall id :: id in matching ==> rows[oldest].updatedAt <= rows[id].updatedAt
    requires Selected(rows, matching - {oldest}, limit - 1, rest)
    ensures Selected(rows, matching, limit, [oldest] + rest)
  {
    var ids := [oldest] + rest;
    InFront(matching, oldest, rest);
    forall i, id | 0 <= i < |ids| && id in matching && id !in ids
      ensures ids[i] in rows && rows[ids[i]].updatedAt <= rows[id].updatedAt {
      assert id != ids[0] && id !in rest;
      assert i > 0 ==> ids[i] == rest[i - 1];
    }
    forall i, j | 0 <= i < j < |ids|
      ensures ids[i] in rows && ids[j] in rows && rows[ids[i]].updatedAt <= rows[ids[j]].updatedAt
    {
      assert ids[j] == rest[j - 1] && rest[j - 1] in rest;
      assert i > 0 ==> ids[i] == rest[i - 1];
    }
  }

  lemma SelectionExists(rows: Rows, matching: set<Id>, limit: nat) returns (ids: seq<Id>)
    requires matching <= rows.Keys
    ensures Selected(rows, matching, limit, ids)
    decreases limit
  {
    if limit == 0 || matching == {} {
      ids := [];
    } else {
      var oldest := OldestExists(rows, matching);
      var rest := SelectionExists(rows, matching - {oldest}, limit - 1);
      ids := [oldest] + rest;
      SelectionGrows(rows, matching, limit, oldest, rest);
    }
  }

  // Schedules

  ghost predicate Reaches(cfg: Config, plan: Plan, s: State, s': State)
    requires cfg.Valid()
  {
    exists actions :: Proceeds(cfg, s, plan, actions) && s' == Run(cfg, s, actions)
  }

  lemma {:induction false} ProceedsOn(cfg: Config, s: State, plan: Plan, actions: seq<Action>, a: Action)
    requires cfg.Valid() && Proceeds(cfg, s, plan, actions) && Allowed(cfg, Run(cfg, s, actions), plan, a)
    ensures Proceeds(cfg, s, plan, actions + [a])
    ensures Run(cfg, s, actions + [a]) == Step(cfg, Run(cfg, s, actions), a)
    decreases |actions|
  {
    if actions == [] {
      assert [] + [a] == [a] && [a][1..] == [];
    } else {
      assert (actions + [a])[1..] == actions[1..] + [a];
      ProceedsOn(cfg, Step(cfg, s, actions[0]), plan, actions[1..], a);
    }
  }

  lemma ReachesStart(cfg: Config, plan: Plan, s: State)
    requires cfg.Valid()
    ensures Reaches(cfg, plan, s, s)
  {
    assert Proceeds(cfg, s, plan, []) && s == Run(cfg, s, []);
  }

  lemma ReachesOn(cfg: Config, plan: Plan, from: State, s: State, a: Action)
    requires cfg.Valid() && Reaches(cfg, plan, from, s) && Inv(cfg, s) && Allowed(cfg, s, plan, a)
    ensures Reaches(cfg, plan, from, Step(cfg, s, a)) && Inv(cfg, Step(cfg, s, a))
  {
    ReachesNext(cfg, plan, from, s, a);
    assert Inv(cfg, Step(cfg, s, a)) by { StepKeepsInv(cfg, s, a); }
  }

  lemma ReachesNext(cfg: Config, plan: Plan, from: State, s: State, a: Action)
    requires cfg.Valid() && Reaches(cfg, plan, from, s) && Allowed(cfg, s, plan, a)
    ensures Reaches(cfg, plan, from, Step(cfg, s, a))
  {
    var actions :| Proceeds(cfg, from, plan, actions) && s == Run(cfg, from, actions);
    ProceedsOn(cfg, from, plan, actions, a);
  }

  // The calls of the pass, one after another

  /** Nothing is under way but the pass; copies are dead, or wait to be delivered. */
  predicate OnlyPass(s: State, plan: Plan) {
    && s.uploads == map[] && s.deletes == map[] && s.attempts == map[] && s.passes.Keys <= {plan.pass}
    && forall c :: c in s.copies ==> s.copies[c].place.DeadQueue? || s.copies[c].place.MainQueue?
  }

  lemma PublishingStays(cfg: Config, s: State, plan: Plan, picked: seq<Id>)
    requires OnlyPass(s, plan) && plan.pass in s.passes
    ensures OnlyPass(StepPass(cfg, s, plan.pass, Ok, picked), plan)
  {
  }

  lemma {:induction false} CleanupsArePublished(cfg: Config, plan: Plan, from: State, s: State, rest: seq<Id>)
    returns (s': State)
    requires cfg.Valid() && Reaches(cfg, plan, from, s) && Inv(cfg, s) && OnlyPass(s, plan)
    requires plan.pass in s.passes && s.passes[plan.pass] == RepublishingCleanups(rest)
    ensures Reaches(cfg, plan, from, s') && Inv(cfg, s') && OnlyPass(s', plan) && s'.passes == map[]
    decreases |rest|
  {
    var a := PassStep(plan.pass, Ok, []);
    ReachesOn(cfg, plan, from, s, a);
    PublishingStays(cfg, s, plan, []);
    s' := Step(cfg, s, a);
    if rest != [] { s' := CleanupsArePublished(cfg, plan, from, s', rest[1..]); }
  }

  lemma {:induction false} UploadsArePublished(cfg: Config, plan: Plan, from: State, s: State, rest: seq<Id>)
    returns (s': State)
    requires cfg.Valid() && Reaches(cfg, plan, from, s) && Inv(cfg, s) && OnlyPass(s, plan)
    requires plan.pass in s.passes && s.passes[plan.pass] == Republishing(plan.before, rest)
    requires Selected(s.rows, UncleanedIds(s.rows, plan.before), cfg.batch, plan.uncleaned)
    ensures Reaches(cfg, plan, from, s') && Inv(cfg, s') && OnlyPass(s', plan) && s'.passes == map[]
    decreases |rest|
  {
    var a := PassStep(plan.pass, Ok, plan.uncleaned);
    ReachesOn(cfg, plan, from, s, a);
    PublishingStays(cfg, s, plan, plan.uncleaned);
    s' := Step(cfg, s, a);
    if rest == [] {
      SelectedIsPicked(cfg, s, plan.before, plan.uncleaned);
      PassTakesCleanups(cfg, s, plan.pass, plan.before, plan.uncleaned);
      s' := CleanupsArePublished(cfg, plan, from, s', plan.uncleaned);
    } else {
      s' := UploadsArePublished(cfg, plan, from, s', rest[1..]);
    }
  }

  lemma PassFailsStaleUploads(cfg: Config, plan: Plan, from: State, s: State) returns (s': State)
    requires cfg.Valid() && Reaches(cfg, plan, from, s) && Inv(cfg, s) && OnlyPass(s, plan)
    requires plan.pass in s.passes && s.passes[plan.pass] == FailingStale(plan.before)
    ensures Reaches(cfg, plan, from, s') && Inv(cfg, s') && OnlyPass(s', plan)
    ensures plan.pass in s'.passes && s'.passes[plan.pass] == SelectingStuck(plan.before)
    ensures s'.rows == FailedStale(s.rows, plan.before, s.now)
  {
    var a := PassStep(plan.pass, Ok, []);
    ReachesOn(cfg, plan, from, s, a);
    s' := Step(cfg, s, a);
    StaleStep(cfg, s, plan.pass, plan.before);
  }

  /** The first two calls of the pass. */
  lemma PassSelects(cfg: Config, plan: Plan, from: State, s: State) returns (s': State)
    requires cfg.Valid() && Reaches(cfg, plan, from, s) && Inv(cfg, s) && OnlyPass(s, plan)
    requires plan.pass in s.passes && s.passes[plan.pass] == FailingStale(plan.before)
    requires var rows := FailedStale(s.rows, plan.before, s.now);
      && Selected(rows, StuckIds(rows, plan.before), cfg.batch, plan.stuck)
    ensures Reaches(cfg, plan, from, s') && Inv(cfg, s') && OnlyPass(s', plan)
    ensures plan.pass in s'.passes && s'.passes[plan.pass] == Republishing(plan.before, plan.stuck)
    ensures s'.rows == FailedStale(s.rows, plan.before, s.now)
  {
    var a := PassStep(plan.pass, Ok, plan.stuck);
    var s1 := PassFailsStaleUploads(cfg, plan, from, s);
    ReachesOn(cfg, plan, from, s1, a);
    s' := Step(cfg, s1, a);
    SelectionStep(cfg, s1, plan.pass, plan.before, plan.stuck);
  }

  lemma StaleStep(cfg: Config, s: State, p: nat, before: nat)
    requires p in s.passes && s.passes[p] == FailingStale(before)
    ensures StepPass(cfg, s, p, Ok, []) ==
      s.(rows := FailedStale(s.rows, before, s.now), passes := s.passes[p := SelectingStuck(before)])
  {
  }

  lemma SelectionStep(cfg: Config, s: State, p: nat, before: nat, picked: seq<Id>)
    requires p in s.passes && s.passes[p] == SelectingStuck(before)
    requires Selected(s.rows, StuckIds(s.rows, before), cfg.batch, picked)
    ensures StepPass(cfg, s, p, Ok, picked) == s.(passes := s.passes[p := Republishing(before, picked)])
  {
    assert PicksStuck(cfg, s, before, picked);
  }

  // The deliveries, one after another

  /** One delivery is under way, and the broker still holds its copy for it. */
  predicate OneDelivery(s: State, t: nat, waiting: map<nat, Copy>) {
    && s.uploads == map[] && s.deletes == map[] && s.passes == map[] && s.attempts.Keys == {t}
    && Faultless(s.attempts[t].pc) && Holds(s, t, s.attempts[t].copy)
    && s.copies - {s.attempts[t].copy} == waiting
  }

  /** An upper bound on the calls an attempt still has to make. */
  function CallsLeft(pc: AttemptPc): nat {
    match pc
    case Getting => 20
    case Starting => 19
    case CheckingStart => 18
    case Rendering => 17
    case Storing(n, _, _) => if n <= |ThumbnailSizes()| then 10 + |ThumbnailSizes()| - n else 10
    case CheckingComplete(_) => 9
    case RemovingThumbs(_) => 8
    case Failing(_) => 7
    case CheckingFailed(_) => 6
    case Cleaning => 5
    case MarkingCleaned => 4
    case Returned(_) => 1
    case _ => 0
  }

  lemma UploadedTurnAdvances(cfg: Config, s: State, a: Attempt, gone: set<Key>)
    requires a.event.UploadEvent? && PcOk(cfg, s, a) && !Settling(a.pc)
    ensures var turn := UploadedTurn(cfg, s, a, Ok, gone);
      turn.next.Some? && CallsLeft(turn.next.value) < CallsLeft(a.pc) && CopiesAfter(s, turn.effect) == s.copies
  {
  }

  lemma DeletedTurnAdvances(cfg: Config, s: State, a: Attempt, gone: set<Key>)
    requires a.event.DeleteEvent? && PcOk(cfg, s, a) && !Settling(a.pc)
    ensures var turn := DeletedTurn(s, a, Ok, gone);
      turn.next.Some? && CallsLeft(turn.next.value) < CallsLeft(a.pc) && CopiesAfter(s, turn.effect) == s.copies
  {
  }

  lemma TurnAdvances(cfg: Config, s: State, t: nat)
    requires cfg.Valid() && t in s.attempts && PcOk(cfg, s, s.attempts[t]) && !Settling(s.attempts[t].pc)
    ensures var a, turn := s.attempts[t], AttemptTurn(cfg, s, t, Ok, {});
      turn.next.Some? && CallsLeft(turn.next.value) < CallsLeft(a.pc) && CopiesAfter(s, turn.effect) == s.copies
  {
    if s.attempts[t].event.UploadEvent? { UploadedTurnAdvances(cfg, s, s.attempts[t], {}); }
    else { DeletedTurnAdvances(cfg, s, s.attempts[t], {}); }
  }

  lemma CallIsMade(cfg: Config, s: State, t: nat, waiting: map<nat, Copy>)
    requires cfg.Valid() && OneDelivery(s, t, waiting) && PcOk(cfg, s, s.attempts[t]) && !Settling(s.attempts[t].pc)
    ensures var s' := StepAttempt(cfg, s, t, Ok, {});
              OneDelivery(s', t, waiting) && CallsLeft(s'.attempts[t].pc) < CallsLeft(s.attempts[t].pc)
  {
    TurnAdvances(cfg, s, t);
    FaultlessTurn(cfg, s, t, {});
  }

  lemma DeliveryIsAcknowledged(cfg: Config, s: State, t: nat, waiting: map<nat, Copy>)
    requires cfg.Valid() && OneDelivery(s, t, waiting) && Settling(s.attempts[t].pc)
    ensures var s' := StepAttempt(cfg, s, t, Ok, {});
      s'.copies == waiting && s'.attempts == map[] && s'.uploads == map[] && s'.deletes == map[] && s'.passes == map[]
  {
  }

  lemma {:induction false} DeliveryIsHandled(cfg: Config, plan: Plan, from: State, s: State, t: nat,
                                             waiting: map<nat, Copy>)
    returns (s': State)
    requires cfg.Valid() && Reaches(cfg, plan, from, s) && Inv(cfg, s) && OneDelivery(s, t, waiting)
    ensures Reaches(cfg, plan, from, s') && Inv(cfg, s') && s'.copies == waiting
    ensures s'.attempts == map[] && s'.uploads == map[] && s'.deletes == map[] && s'.passes == map[]
    decreases CallsLeft(s.attempts[t].pc)
  {
    var a := AttemptStep(t, Ok, {});
    ReachesOn(cfg, plan, from, s, a);
    s' := Step(cfg, s, a);
    if Settling(s.attempts[t].pc) {
      DeliveryIsAcknowledged(cfg, s, t, waiting);
    } else {
      assert PcOk(cfg, s, s.attempts[t]) by { assert AttemptOk(cfg, s, t); }
      CallIsMade(cfg, s, t, waiting);
      s' := DeliveryIsHandled(cfg, plan, from, s', t, waiting);
    }
  }

  lemma DeliveryBegins(cfg: Config, s: State, plan: Plan, c: nat)
    requires OnlyPass(s, plan) && s.passes == map[] && c in s.copies && s.copies[c].place.MainQueue?
    ensures OneDelivery(Occur(cfg, s, Deliver(c)), s.next, s.copies - {c})
  {
    var s' := Occur(cfg, s, Deliver(c));
    assert s'.attempts == map[s.next := NewAttempt(c, s.copies[c])];
    assert s'.copies - {c} == s.copies - {c};
  }

  lemma MessageIsHandled(cfg: Config, plan: Plan, from: State, s: State, c: nat) returns (s': State)
    requires cfg.Valid() && Reaches(cfg, plan, from, s) && Inv(cfg, s) && OnlyPass(s, plan) && s.passes == map[]
    requires c in s.copies && s.copies[c].place.MainQueue?
    ensures Reaches(cfg, plan, from, s') && Inv(cfg, s') && OnlyPass(s', plan) && s'.passes == map[]
    ensures s'.copies == s.copies - {c}
  {
    ReachesOn(cfg, plan, from, s, Deliver(c));
    DeliveryBegins(cfg, s, plan, c);
    s' := DeliveryIsHandled(cfg, plan, from, Occur(cfg, s, Deliver(c)), s.next, s.copies - {c});
  }

  lemma OneFewer(copies: map<nat, Copy>, c: nat)
    requires c in copies
    ensures |copies - {c}| < |copies|
  {
    assert copies == (copies - {c})[c := copies[c]];
  }

  lemma {:induction false} QueueIsDrained(cfg: Config, plan: Plan, from: State, s: State) returns (s': State)
    requires cfg.Valid() && Reaches(cfg, plan, from, s) && Inv(cfg, s) && OnlyPass(s, plan) && s.passes == map[]
    ensures Reaches(cfg, plan, from, s') && AtRest(s')
    decreases |s.copies|
  {
    if c :| c in s.copies && s.copies[c].place.MainQueue? {
      s' := MessageIsHandled(cfg, plan, from, s, c);
      OneFewer(s.copies, c);
      s' := QueueIsDrained(cfg, plan, from, s');
    } else {
      s' := s;
    }
  }

  /** The plan of the pass that would begin now. */
  lemma PlanExists(cfg: Config, s: State) returns (plan: Plan)
    requires cfg.Valid()
    ensures plan.pass == s.next && plan.before == Cutoff(cfg, s.now)
    ensures var rows := FailedStale(s.rows, plan.before, s.now);
      && Selected(rows, StuckIds(rows, plan.before), cfg.batch, plan.stuck)
      && Selected(rows, UncleanedIds(rows, plan.before), cfg.batch, plan.uncleaned)
  {
    var before := Cutoff(cfg, s.now);
    var rows := FailedStale(s.rows, before, s.now);
    var stuck := SelectionExists(rows, StuckIds(rows, before), cfg.batch);
    var uncleaned := SelectionExists(rows, UncleanedIds(rows, before), cfg.batch);
    plan := Plan(s.next, before, stuck, uncleaned);
  }

  lemma PassBegins(cfg: Config, s: State, plan: Plan)
    requires cfg.Valid() && AtRest(s) && plan.pass == s.next && plan.before == Cutoff(cfg, s.now)
    ensures var s1 := Step(cfg, s, BeginPass);
      && s1.rows == s.rows && s1.now == s.now && OnlyPass(s1, plan)
      && plan.pass in s1.passes && s1.passes[plan.pass] == FailingStale(plan.before)
  {
    assert Step(cfg, s, BeginPass).passes == map[s.next := FailingStale(plan.before)];
  }

  lemma PassRunsThrough(cfg: Config, plan: Plan, s1: State) returns (s': State)
    requires cfg.Valid() && Inv(cfg, s1) && OnlyPass(s1, plan)
    requires plan.pass in s1.passes && s1.passes[plan.pass] == FailingStale(plan.before)
    requires var rows := FailedStale(s1.rows, plan.before, s1.now);
      && Selected(rows, StuckIds(rows, plan.before), cfg.batch, plan.stuck)
      && Selected(rows, UncleanedIds(rows, plan.before), cfg.batch, plan.uncleaned)
    ensures Reaches(cfg, plan, s1, s') && AtRest(s')
  {
    ReachesStart(cfg, plan, s1);
    s' := PassSelects(cfg, plan, s1, s1);
    s' := UploadsArePublished(cfg, plan, s1, s', plan.stuck);
    s' := QueueIsDrained(cfg, plan, s1, s');
  }

  /** From every reachable state at rest some pass leads to rest again. */
  lemma PassCanComplete(cfg: Config, s: State) returns (plan: Plan, actions: seq<Action>, s': State)
    requires cfg.Valid() && Inv(cfg, s) && AtRest(s)
    ensures OnePass(cfg, s, plan, actions, s')
  {
    plan := PlanExists(cfg, s);
    PassBegins(cfg, s, plan);
    StepKeepsInv(cfg, s, BeginPass);
    s' := PassRunsThrough(cfg, plan, Step(cfg, s, BeginPass));
    actions :| Proceeds(cfg, Step(cfg, s, BeginPass), plan, actions)
      && s' == Run(cfg, Step(cfg, s, BeginPass), actions);
    assert ([BeginPass] + actions)[1..] == actions;
  }

  lemma EverythingGetsOld(cfg: Config, s: State, s': State)
    requires Inv(cfg, s) && s' == s.(now := s.now + (cfg.stuckAfter + 1))
    ensures AllOld(s'.rows, Cutoff(cfg, s'.now))
  {
    forall id | id in s.rows ensures s.rows[id].updatedAt < s.now + 1 { assert RowOk(cfg, s, id); }
  }

  lemma WaitedState(cfg: Config, s: State) returns (s': State)
    requires cfg.Valid() && Inv(cfg, s) && AtRest(s)
    ensures s' == s.(now := s.now + (cfg.stuckAfter + 1)) && Leads(cfg, s, s') && Inv(cfg, s') && AtRest(s')
  {
    s' := s.(now := s.now + (cfg.stuckAfter + 1));
    Stay(cfg, s);
    TimePasses(cfg, s, s, cfg.stuckAfter + 1);
    var actions :| s' == Run(cfg, s, actions);
    RunKeepsInv(cfg, s, actions);
  }

  lemma LeadsOnward(cfg: Config, a: State, b: State, c: State)
    requires cfg.Valid() && Leads(cfg, a, b) && Leads(cfg, b, c)
    ensures Leads(cfg, a, c)
  {
    var first :| b == Run(cfg, a, first);
    var second :| c == Run(cfg, b, second);
    RunsCompose(cfg, a, first, second);
  }

  lemma PassLeads(cfg: Config, s: State, plan: Plan, actions: seq<Action>, s': State)
    requires cfg.Valid() && OnePass(cfg, s, plan, actions, s')
    ensures Leads(cfg, s, s') && AtRest(s')
  {
  }

  lemma WaitedPass(cfg: Config, s: State, s1: State) returns (s': State)
    requires cfg.Valid() && Inv(cfg, s1) && AtRest(s1) && AllOld(s1.rows, Cutoff(cfg, s1.now))
    requires s1.rows == s.rows && Rank(s.rows) > 0
    ensures Leads(cfg, s1, s') && Inv(cfg, s') && AtRest(s') && Rank(s'.rows) < Rank(s.rows)
  {
    var plan, actions;
    plan, actions, s' := PassCanComplete(cfg, s1);
    PassLowersRank(cfg, s1, plan, actions, s');
    PassLeads(cfg, s1, plan, actions, s');
  }

  /** After a wait, a pass lowers the rank. */
  lemma RankCanFall(cfg: Config, s: State) returns (s': State)
    requires cfg.Valid() && Inv(cfg, s) && AtRest(s) && Rank(s.rows) > 0
    ensures Leads(cfg, s, s') && Inv(cfg, s') && AtRest(s') && Rank(s'.rows) < Rank(s.rows)
  {
    var s1 := WaitedState(cfg, s);
    EverythingGetsOld(cfg, s, s1);
    s' := WaitedPass(cfg, s, s1);
    LeadsOnward(cfg, s, s1, s');
  }

  /** From every state at rest some run, of waiting and passes only, leads to a table with nothing left to do. */
  lemma {:induction false} TableCanComeToRest(cfg: Config, s: State) returns (s': State)
    requires cfg.Valid() && Inv(cfg, s) && AtRest(s)
    ensures Leads(cfg, s, s') && AtRest(s') && NothingLeft(s'.rows)
    decreases Rank(s.rows)
  {
    if Rank(s.rows) == 0 {
      NothingLeftExactly(s.rows);
      Stay(cfg, s);
      s' := s;
    } else {
      var s1 := RankCanFall(cfg, s);
      s' := TableCanComeToRest(cfg, s1);
      LeadsOnward(cfg, s, s1, s');
    }
  }
}
