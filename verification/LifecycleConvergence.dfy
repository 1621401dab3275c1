/**
 * Passes of the reconciler bring the table to rest. From a system at rest, one pass without faults
 * runs side by side with deliveries without faults, in any interleaving, until nothing is under way.
 */
module LifecycleConvergence {
  import opened Domain
  import opened Repository
  import opened Queries
  import opened Reconciler
  import opened Lifecycle
  import opened LifecycleInvariant
  import opened LifecycleEffects
  import opened LifecycleSteps
  import opened LifecycleTheorems
  import opened LifecycleLocality

  /** No activity is under way, and no message is left but dead ones. */
  predicate AtRest(s: State) {
    && s.uploads == map[] && s.deletes == map[] && s.attempts == map[] && s.passes == map[]
    && forall c :: c in s.copies ==> s.copies[c].place.DeadQueue?
  }

  /** A pass: its identifier, its cutoff, and the rows its two queries return. */
  datatype Plan = Plan(pass: nat, before: nat, stuck: seq<Id>, uncleaned: seq<Id>)

  /** No requests and no faults; the queries of the pass return what they select. */
  ghost predicate Allowed(cfg: Config, s: State, plan: Plan, a: Action) {
    match a
    case Tick => true
    case Deliver(_) => true
    case AttemptStep(_, o, _) => o == Ok
    case PassStep(p, o, picked) =>
      && o == Ok && p == plan.pass
      && (p in s.passes && s.passes[p].SelectingStuck? ==>
            picked == plan.stuck && Selected(s.rows, StuckIds(s.rows, plan.before), cfg.batch, picked))
      && (p in s.passes && s.passes[p].Republishing? && s.passes[p].rest == [] ==>
            picked == plan.uncleaned && Selected(s.rows, UncleanedIds(s.rows, plan.before), cfg.batch, picked))
    case _ => false
  }

  ghost predicate Proceeds(cfg: Config, s: State, plan: Plan, actions: seq<Action>)
    requires cfg.Valid()
    decreases |actions|
  {
    actions == [] || (Allowed(cfg, s, plan, actions[0]) && Proceeds(cfg, Step(cfg, s, actions[0]), plan, actions[1..]))
  }

  /** A whole pass, from rest to rest. */
  ghost predicate OnePass(cfg: Config, s: State, plan: Plan, actions: seq<Action>, s': State)
    requires cfg.Valid()
  {
    && AtRest(s) && plan.pass == s.next && plan.before == Cutoff(cfg, s.now)
    && Proceeds(cfg, Step(cfg, s, BeginPass), plan, actions)
    && s' == Run(cfg, s, [BeginPass] + actions) && AtRest(s')
  }

  // What a step does to the tasks

  /** Tasks only become fewer, and only for the avatars named. */
  predicate TasksStep(a: Tasks, b: Tasks, processed: set<Id>, cleaned: set<Id>) {
    && b.unfinished == a.unfinished && b.dirty <= a.dirty
    && b.unprocessed <= a.unprocessed && a.unprocessed - b.unprocessed <= processed
    && b.stuck <= a.stuck && a.stuck - b.stuck <= processed
    && b.uncleaned <= a.uncleaned && a.uncleaned - b.uncleaned <= cleaned
  }

  /** Progress on the processing of a live uploaded row. */
  predicate WorkedOn(r: Row, r': Row, now: nat) {
    && r.Live() && r.upload == Uploaded && r'.upload == Uploaded && r'.Live()
    && r'.filesRemovedAt == r.filesRemovedAt && r'.updatedAt == now
    && (r'.processing == Pending ==> r.processing == Pending)
  }

  lemma WorkIsTasksStep(rows: Rows, id: Id, r': Row, before: nat, now: nat)
    requires id in rows && WorkedOn(rows[id], r', now) && before <= now
    ensures TasksStep(TasksOf(rows, before), TasksOf(rows[id := r'], before), {id}, {})
  {
  }

  lemma MarkIsTasksStep(rows: Rows, id: Id, before: nat, now: nat)
    requires id in rows && rows[id].Closed()
    ensures TasksStep(TasksOf(rows, before), TasksOf(rows[id := MarkFilesRemoved(rows[id], now)], before), {}, {id})
  {
  }

  lemma IdleIsTasksStep(rows: Rows, before: nat, processed: set<Id>, cleaned: set<Id>)
    ensures TasksStep(TasksOf(rows, before), TasksOf(rows, before), processed, cleaned)
  {
  }

  lemma UploadedTurnWrites(cfg: Config, s: State, a: Attempt, o: Outcome, gone: set<Key>)
    requires a.event.UploadEvent? && IsUploaded(s, a.event.id)
    ensures match UploadedTurn(cfg, s, a, o, gone).effect
      case WriteRow(id, r) => id == a.event.id && WorkedOn(s.rows[id], r, s.now)
      case InsertRow(_, _, _) => false
      case FailStale(_) => false
      case _ => true
  {
  }

  lemma OtherTurnWrites(cfg: Config, s: State, t: nat, o: Outcome, gone: set<Key>)
    requires cfg.Valid() && t in s.attempts && (Settling(s.attempts[t].pc) || s.attempts[t].event.DeleteEvent?)
    ensures var a := s.attempts[t];
      match AttemptTurn(cfg, s, t, o, gone).effect
      case WriteRow(id, r) => a.event.DeleteEvent? && id == a.event.id && id in s.rows
        && r == MarkFilesRemoved(s.rows[id], s.now)
      case InsertRow(_, _, _) => false
      case FailStale(_) => false
      case _ => true
  {
  }

  /** The avatars an attempt may take off the lists of rows to process, and to clean. */
  function Processes(e: Event): set<Id> { if e.UploadEvent? then {e.id} else {} }

  function Cleans(e: Event): set<Id> { if e.DeleteEvent? then {e.id} else {} }

  lemma AttemptIsTasksStep(cfg: Config, s: State, t: nat, o: Outcome, gone: set<Key>, before: nat)
    requires cfg.Valid() && Inv(cfg, s) && t in s.attempts && before <= s.now
    ensures var e := s.attempts[t].event;
      TasksStep(TasksOf(s.rows, before), TasksOf(RowsAfter(s, AttemptTurn(cfg, s, t, o, gone).effect), before),
        Processes(e), Cleans(e))
  {
    var a, effect := s.attempts[t], AttemptTurn(cfg, s, t, o, gone).effect;
    AttemptKnows(cfg, s, t);
    if Settling(a.pc) || a.event.DeleteEvent? { OtherTurnWrites(cfg, s, t, o, gone); }
    else { UploadedTurnWrites(cfg, s, a, o, gone); }
    if effect.WriteRow? {
      if a.event.DeleteEvent? { MarkIsTasksStep(s.rows, effect.id, before, s.now); }
      else { WorkIsTasksStep(s.rows, effect.id, effect.row, before, s.now); }
    } else {
      IdleIsTasksStep(s.rows, before, Processes(a.event), Cleans(a.event));
    }
  }

  // Messages: what is in the broker was published by this pass, and nothing fails.

  predicate Faultless(pc: AttemptPc) {
    match pc
    case Failing(e) => e == NonRetryable
    case CheckingFailed(e) => e == NonRetryable
    case Returned(r) => r != Retryable
    case AckingForwarded => false
    case Rejecting => false
    case _ => true
  }

  /** The messages of earlier times are the dead ones. */
  predicate OnlyNew(known: map<nat, Event>, s: State) {
    && s.uploads == map[] && s.deletes == map[]
    && (forall m :: m in known ==> m in s.sent)
    && (forall c :: c in s.copies ==> (s.copies[c].place.DeadQueue? <==> s.copies[c].mid in known))
    && (forall t :: t in s.attempts ==> s.attempts[t].mid !in known && Faultless(s.attempts[t].pc))
  }

  lemma FaultlessTurn(cfg: Config, s: State, t: nat, gone: set<Key>)
    requires cfg.Valid() && t in s.attempts && Faultless(s.attempts[t].pc)
    ensures var turn := AttemptTurn(cfg, s, t, Ok, gone);
      && (turn.next.Some? ==> Faultless(turn.next.value))
      && !turn.effect.SendEvent? && !turn.effect.ForwardCopy? && !turn.effect.RejectCopy?
  {
  }

  lemma AttemptLeavesOnlyNew(cfg: Config, s: State, t: nat, gone: set<Key>, known: map<nat, Event>)
    requires cfg.Valid() && OnlyNew(known, s) && t in s.attempts
    ensures var s' := StepAttempt(cfg, s, t, Ok, gone); OnlyNew(known, s') && s'.sent == s.sent && s'.passes == s.passes
  {
    FaultlessTurn(cfg, s, t, gone);
  }

  lemma PassLeavesOnlyNew(cfg: Config, s: State, p: nat, o: Outcome, picked: seq<Id>, known: map<nat, Event>)
    requires OnlyNew(known, s) && p in s.passes && s.next !in known
    ensures OnlyNew(known, StepPass(cfg, s, p, o, picked))
  {
  }

  lemma OccurrenceLeavesOnlyNew(cfg: Config, s: State, a: Action, known: map<nat, Event>)
    requires OnlyNew(known, s) && (a.Tick? || a.Deliver? || a.BeginPass?)
    ensures OnlyNew(known, Occur(cfg, s, a))
  {
  }

  // What has been asked for since

  function UploadsAsked(known: map<nat, Event>, sent: map<nat, Event>): set<Id> {
    set m | m in sent && m !in known && sent[m].UploadEvent? :: sent[m].id
  }

  function CleanupsAsked(known: map<nat, Event>, sent: map<nat, Event>): set<Id> {
    set m | m in sent && m !in known && sent[m].DeleteEvent? :: sent[m].id
  }

  lemma AskedGrows(known: map<nat, Event>, sent: map<nat, Event>, m: nat, e: Event)
    requires m !in sent && m !in known
    ensures UploadsAsked(known, sent[m := e]) == UploadsAsked(known, sent) + Processes(e)
    ensures CleanupsAsked(known, sent[m := e]) == CleanupsAsked(known, sent) + Cleans(e)
  {
    var sent' := sent[m := e];
    forall id ensures id in UploadsAsked(known, sent') <==> id in UploadsAsked(known, sent) + Processes(e) {
      if id in UploadsAsked(known, sent) {
        var n :| n in sent && n !in known && sent[n].UploadEvent? && sent[n].id == id;
        assert sent'[n] == sent[n];
      }
      if id in Processes(e) { assert sent'[m] == e; }
    }
    forall id ensures id in CleanupsAsked(known, sent') <==> id in CleanupsAsked(known, sent) + Cleans(e) {
      if id in CleanupsAsked(known, sent) {
        var n :| n in sent && n !in known && sent[n].DeleteEvent? && sent[n].id == id;
        assert sent'[n] == sent[n];
      }
      if id in Cleans(e) { assert sent'[m] == e; }
    }
  }

  /** An attempt under way works on something that has been asked for. */
  lemma AttemptWasAsked(cfg: Config, s: State, t: nat, known: map<nat, Event>)
    requires Inv(cfg, s) && t in s.attempts && OnlyNew(known, s)
    ensures Processes(s.attempts[t].event) <= UploadsAsked(known, s.sent)
    ensures Cleans(s.attempts[t].event) <= CleanupsAsked(known, s.sent)
  {
    assert AttemptOk(cfg, s, t);
    var m := s.attempts[t].mid;
    assert m in s.sent && s.sent[m] == s.attempts[t].event && m !in known;
  }

  // The invariant of a pass

  /** Tasks since the start: only those asked for have gone, and stale uploads have become cleanups. */
  predicate TasksMoved(a: Tasks, b: Tasks, stale: set<Id>, processed: set<Id>, cleaned: set<Id>) {
    && b.unfinished == a.unfinished - stale && b.dirty <= a.dirty + stale
    && b.unprocessed <= a.unprocessed && a.unprocessed - b.unprocessed <= processed
    && b.stuck <= a.stuck && a.stuck - b.stuck <= processed
    && b.uncleaned <= a.uncleaned && a.uncleaned - b.uncleaned <= cleaned
  }

  predicate Chosen(batch: nat, due: set<Id>, picked: seq<Id>) {
    NoDuplicates(picked) && ToSet(picked) <= due && |picked| == Min(batch, |due|)
  }

  lemma SelectedIsChosen(rows: Rows, due: set<Id>, batch: nat, picked: seq<Id>)
    requires Selected(rows, due, batch, picked)
    ensures Chosen(batch, due, picked)
  {
  }

  predicate Stale(s: State, plan: Plan) {
    plan.pass in s.passes && s.passes[plan.pass].FailingStale?
  }

  /** Where a pass is, if it is under way, and what it has asked for by then of what was due at its start. */
  predicate Stage(batch: nat, pc: Option<PassPc>, plan: Plan, stuck: set<Id>, uncleaned: set<Id>,
                  asked: set<Id>, cleanups: set<Id>)
  {
    match pc
    case Some(FailingStale(b)) => b == plan.before && asked == {} && cleanups == {}
    case Some(SelectingStuck(b)) => b == plan.before && asked == {} && cleanups == {}
    case Some(Republishing(b, rest)) =>
      b == plan.before && Chosen(batch, stuck, plan.stuck) && asked + ToSet(rest) == ToSet(plan.stuck) && cleanups == {}
    case Some(RepublishingCleanups(rest)) =>
      && Chosen(batch, stuck, plan.stuck) && Chosen(batch, uncleaned, plan.uncleaned)
      && asked == ToSet(plan.stuck) && cleanups + ToSet(rest) == ToSet(plan.uncleaned)
    case None =>
      && Chosen(batch, stuck, plan.stuck) && Chosen(batch, uncleaned, plan.uncleaned)
      && asked == ToSet(plan.stuck) && cleanups == ToSet(plan.uncleaned)
  }

  function PointOf(s: State, plan: Plan): Option<PassPc> {
    if plan.pass in s.passes then Some(s.passes[plan.pass]) else None
  }

  predicate StageOk(cfg: Config, s0: State, s: State, plan: Plan) {
    && s.passes.Keys <= {plan.pass} && (Stale(s, plan) ==> s.rows == s0.rows)
    && Stage(cfg.batch, PointOf(s, plan), plan, StuckIds(s0.rows, plan.before), UncleanedIds(s0.rows, plan.before),
         UploadsAsked(s0.sent, s.sent), CleanupsAsked(s0.sent, s.sent))
  }

  predicate TasksHaveMoved(s0: State, s: State, plan: Plan) {
    TasksMoved(TasksOf(s0.rows, plan.before), TasksOf(s.rows, plan.before),
      if Stale(s, plan) then {} else StaleIds(s0.rows, plan.before),
      UploadsAsked(s0.sent, s.sent), CleanupsAsked(s0.sent, s.sent))
  }

  predicate Progress(cfg: Config, s0: State, s: State, plan: Plan) {
    plan.before <= s.now && OnlyNew(s0.sent, s) && StageOk(cfg, s0, s, plan) && TasksHaveMoved(s0, s, plan)
  }

  lemma PassStarts(cfg: Config, s: State, plan: Plan)
    requires cfg.Valid() && Inv(cfg, s) && AtRest(s) && plan.pass == s.next && plan.before == Cutoff(cfg, s.now)
    ensures Progress(cfg, s, Step(cfg, s, BeginPass), plan)
  {
    forall c | c in s.copies ensures s.copies[c].mid in s.sent { assert CopyOk(s, c); }
    StartsInOrder(cfg, s, plan);
  }

  lemma StartsInOrder(cfg: Config, s: State, plan: Plan)
    requires cfg.Valid() && AtRest(s) && plan.pass == s.next && plan.before == Cutoff(cfg, s.now)
    requires forall c :: c in s.copies ==> s.copies[c].mid in s.sent
    ensures Progress(cfg, s, Occur(cfg, s, BeginPass), plan)
  {
    var s' := Occur(cfg, s, BeginPass);
    assert s'.passes == map[s.next := FailingStale(plan.before)];
    assert UploadsAsked(s.sent, s'.sent) == {} && CleanupsAsked(s.sent, s'.sent) == {};
  }

  lemma WaitingKeepsProgress(cfg: Config, s0: State, s: State, a: Action, plan: Plan)
    requires Progress(cfg, s0, s, plan) && (a.Tick? || a.Deliver?)
    ensures Progress(cfg, s0, Occur(cfg, s, a), plan)
  {
    OccurrenceLeavesOnlyNew(cfg, s, a, s0.sent);
  }

  lemma AttemptKeepsProgress(cfg: Config, s0: State, s: State, t: nat, gone: set<Key>, plan: Plan)
    requires cfg.Valid() && Inv(cfg, s) && Progress(cfg, s0, s, plan) && t in s.attempts
    ensures Progress(cfg, s0, StepAttempt(cfg, s, t, Ok, gone), plan)
  {
    AttemptWasAsked(cfg, s, t, s0.sent);
    AttemptIsTasksStep(cfg, s, t, Ok, gone, plan.before);
    AskedAttemptKeepsProgress(cfg, s0, s, t, gone, plan);
  }

  lemma AskedAttemptKeepsProgress(cfg: Config, s0: State, s: State, t: nat, gone: set<Key>, plan: Plan)
    requires cfg.Valid() && Progress(cfg, s0, s, plan) && t in s.attempts
    requires Processes(s.attempts[t].event) <= UploadsAsked(s0.sent, s.sent)
    requires Cleans(s.attempts[t].event) <= CleanupsAsked(s0.sent, s.sent)
    requires TasksStep(TasksOf(s.rows, plan.before),
               TasksOf(RowsAfter(s, AttemptTurn(cfg, s, t, Ok, gone).effect), plan.before),
               Processes(s.attempts[t].event), Cleans(s.attempts[t].event))
    ensures Progress(cfg, s0, StepAttempt(cfg, s, t, Ok, gone), plan)
  {
    AttemptLeavesOnlyNew(cfg, s, t, gone, s0.sent);
    assert !Stale(s, plan)
      by { assert s.attempts[t].event.id in Processes(s.attempts[t].event) + Cleans(s.attempts[t].event); }
  }

  // The calls of the pass

  lemma PassFailsStale(cfg: Config, s0: State, s: State, picked: seq<Id>, plan: Plan)
    requires Progress(cfg, s0, s, plan) && Stale(s, plan) && s.next !in s.sent
    ensures Progress(cfg, s0, StepPass(cfg, s, plan.pass, Ok, picked), plan)
  {
    PassLeavesOnlyNew(cfg, s, plan.pass, Ok, picked, s0.sent);
    StaleAreFailed(s0.rows, plan.before, s.now);
    assert RowsAfter(s, FailStale(plan.before)) == FailedStale(s.rows, plan.before, s.now);
  }

  /** Nothing has been asked for yet, so nothing has gone from the lists. */
  lemma NothingAskedNothingGone(s0: State, s: State, plan: Plan)
    requires TasksHaveMoved(s0, s, plan)
    ensures UploadsAsked(s0.sent, s.sent) == {} ==> StuckIds(s.rows, plan.before) == StuckIds(s0.rows, plan.before)
    ensures CleanupsAsked(s0.sent, s.sent) == {} ==>
              UncleanedIds(s.rows, plan.before) == UncleanedIds(s0.rows, plan.before)
  {
    var a, b := TasksOf(s0.rows, plan.before), TasksOf(s.rows, plan.before);
    SameSets(a.stuck, b.stuck, UploadsAsked(s0.sent, s.sent));
    SameSets(a.uncleaned, b.uncleaned, CleanupsAsked(s0.sent, s.sent));
  }

  lemma SameSets(a: set<Id>, b: set<Id>, gone: set<Id>)
    requires b <= a && a - b <= gone
    ensures gone == {} ==> a == b
  {
    if gone == {} {
      forall id | id in a ensures id in b {
        assert id !in b ==> id in a - b;
      }
    }
  }

  lemma PassTakesStuck(cfg: Config, s: State, p: nat, before: nat, picked: seq<Id>)
    requires p in s.passes && s.passes[p] == SelectingStuck(before)
    requires Selected(s.rows, StuckIds(s.rows, before), cfg.batch, picked)
    ensures StepPass(cfg, s, p, Ok, picked) == s.(passes := s.passes[p := Republishing(before, picked)])
  {
    assert PicksStuck(cfg, s, before, picked);
  }

  /** Once the stale uploads have been failed, the rest of a pass only asks for more. */
  lemma LaterStageKeepsProgress(cfg: Config, s0: State, s: State, s': State, plan: Plan)
    requires Progress(cfg, s0, s, plan) && !Stale(s, plan) && !Stale(s', plan)
    requires OnlyNew(s0.sent, s') && StageOk(cfg, s0, s', plan) && s'.rows == s.rows && s'.now == s.now
    requires UploadsAsked(s0.sent, s.sent) <= UploadsAsked(s0.sent, s'.sent)
    requires CleanupsAsked(s0.sent, s.sent) <= CleanupsAsked(s0.sent, s'.sent)
    ensures Progress(cfg, s0, s', plan)
  {
  }

  lemma UploadIsAsked(batch: nat, plan: Plan, stuck: set<Id>, uncleaned: set<Id>, asked: set<Id>, rest: seq<Id>)
    requires rest != [] && Stage(batch, Some(Republishing(plan.before, rest)), plan, stuck, uncleaned, asked, {})
    ensures Stage(batch, Some(Republishing(plan.before, rest[1..])), plan, stuck, uncleaned, asked + {rest[0]}, {})
  {
    FirstOf(rest);
    assert asked + {rest[0]} + ToSet(rest[1..]) == asked + ToSet(rest);
  }

  lemma CleanupsAreNext(batch: nat, plan: Plan, stuck: set<Id>, uncleaned: set<Id>, asked: set<Id>)
    requires Stage(batch, Some(Republishing(plan.before, [])), plan, stuck, uncleaned, asked, {})
    requires Chosen(batch, uncleaned, plan.uncleaned)
    ensures Stage(batch, Some(RepublishingCleanups(plan.uncleaned)), plan, stuck, uncleaned, asked, {})
  {
    assert asked + ToSet([]) == asked;
    assert {} + ToSet(plan.uncleaned) == ToSet(plan.uncleaned);
  }

  lemma CleanupIsAsked(batch: nat, plan: Plan, stuck: set<Id>, uncleaned: set<Id>, asked: set<Id>, cleanups: set<Id>,
                       rest: seq<Id>)
    requires rest != [] && Stage(batch, Some(RepublishingCleanups(rest)), plan, stuck, uncleaned, asked, cleanups)
    ensures Stage(batch, Some(RepublishingCleanups(rest[1..])), plan, stuck, uncleaned, asked, cleanups + {rest[0]})
  {
    FirstOf(rest);
    assert cleanups + {rest[0]} + ToSet(rest[1..]) == cleanups + ToSet(rest);
  }

  lemma PassSelectsStuck(cfg: Config, s0: State, s: State, picked: seq<Id>, plan: Plan)
    requires Progress(cfg, s0, s, plan) && s.next !in s.sent && plan.pass in s.passes
    requires s.passes[plan.pass].SelectingStuck?
    requires picked == plan.stuck && Selected(s.rows, StuckIds(s.rows, plan.before), cfg.batch, picked)
    ensures Progress(cfg, s0, StepPass(cfg, s, plan.pass, Ok, picked), plan)
  {
    assert Chosen(cfg.batch, StuckIds(s0.rows, plan.before), picked) by {
      NothingAskedNothingGone(s0, s, plan);
      SelectedIsChosen(s.rows, StuckIds(s.rows, plan.before), cfg.batch, picked);
    }
    PassTakesStuck(cfg, s, plan.pass, plan.before, picked);
    assert {} + ToSet(picked) == ToSet(plan.stuck);
    LaterStageKeepsProgress(cfg, s0, s, StepPass(cfg, s, plan.pass, Ok, picked), plan);
  }

  lemma PassSelectsUncleaned(cfg: Config, s0: State, s: State, picked: seq<Id>, plan: Plan)
    requires Progress(cfg, s0, s, plan) && s.next !in s.sent && plan.pass in s.passes
    requires s.passes[plan.pass].Republishing? && s.passes[plan.pass].rest == []
    requires picked == plan.uncleaned && Selected(s.rows, UncleanedIds(s.rows, plan.before), cfg.batch, picked)
    ensures Progress(cfg, s0, StepPass(cfg, s, plan.pass, Ok, picked), plan)
  {
    assert Chosen(cfg.batch, UncleanedIds(s0.rows, plan.before), picked) by {
      NothingAskedNothingGone(s0, s, plan);
      SelectedIsChosen(s.rows, UncleanedIds(s.rows, plan.before), cfg.batch, picked);
    }
    SelectedIsPicked(cfg, s, plan.before, picked);
    ChosenCleanupsKeepProgress(cfg, s0, s, picked, plan);
  }

  lemma SelectedIsPicked(cfg: Config, s: State, before: nat, picked: seq<Id>)
    requires Selected(s.rows, UncleanedIds(s.rows, before), cfg.batch, picked)
    ensures PicksUncleaned(cfg, s, before, picked)
  {
  }

  lemma PassTakesCleanups(cfg: Config, s: State, p: nat, before: nat, picked: seq<Id>)
    requires p in s.passes && s.passes[p] == Republishing(before, []) && PicksUncleaned(cfg, s, before, picked)
    ensures StepPass(cfg, s, p, Ok, picked) == s.(passes := s.passes[p := RepublishingCleanups(picked)])
  {
  }

  lemma ChosenCleanupsKeepProgress(cfg: Config, s0: State, s: State, picked: seq<Id>, plan: Plan)
    requires Progress(cfg, s0, s, plan) && plan.pass in s.passes && s.passes[plan.pass] == Republishing(plan.before, [])
    requires picked == plan.uncleaned && PicksUncleaned(cfg, s, plan.before, picked)
    requires Chosen(cfg.batch, UncleanedIds(s0.rows, plan.before), picked)
    ensures Progress(cfg, s0, StepPass(cfg, s, plan.pass, Ok, picked), plan)
  {
    PassTakesCleanups(cfg, s, plan.pass, plan.before, picked);
    CleanupsAreNext(cfg.batch, plan, StuckIds(s0.rows, plan.before), UncleanedIds(s0.rows, plan.before),
      UploadsAsked(s0.sent, s.sent));
    LaterStageKeepsProgress(cfg, s0, s, StepPass(cfg, s, plan.pass, Ok, picked), plan);
  }

  lemma PassSends(cfg: Config, s: State, p: nat, picked: seq<Id>, e: Event, next: Option<PassPc>)
    requires p in s.passes && PassTurn(cfg, s, p, Ok, picked) == Turn(SendEvent(e), next) && next.Some?
    ensures var s' := StepPass(cfg, s, p, Ok, picked);
      s'.rows == s.rows && s'.now == s.now && s'.sent == s.sent[s.next := e] && s'.passes == s.passes[p := next.value]
  {
  }

  lemma PassRepublishesUpload(cfg: Config, s0: State, s: State, picked: seq<Id>, plan: Plan)
    requires Progress(cfg, s0, s, plan) && s.next !in s.sent && plan.pass in s.passes
    requires s.passes[plan.pass].Republishing? && s.passes[plan.pass].rest != []
    ensures Progress(cfg, s0, StepPass(cfg, s, plan.pass, Ok, picked), plan)
  {
    var rest := s.passes[plan.pass].rest;
    PassLeavesOnlyNew(cfg, s, plan.pass, Ok, picked, s0.sent);
    AskedGrows(s0.sent, s.sent, s.next, UploadEvent(rest[0]));
    UploadIsAsked(cfg.batch, plan, StuckIds(s0.rows, plan.before), UncleanedIds(s0.rows, plan.before),
      UploadsAsked(s0.sent, s.sent), rest);
    PassSends(cfg, s, plan.pass, picked, UploadEvent(rest[0]), Some(Republishing(plan.before, rest[1..])));
    LaterStageKeepsProgress(cfg, s0, s, StepPass(cfg, s, plan.pass, Ok, picked), plan);
  }

  lemma PassRepublishesCleanup(cfg: Config, s0: State, s: State, picked: seq<Id>, plan: Plan)
    requires Progress(cfg, s0, s, plan) && s.next !in s.sent && plan.pass in s.passes
    requires s.passes[plan.pass].RepublishingCleanups? && s.passes[plan.pass].rest != []
    ensures Progress(cfg, s0, StepPass(cfg, s, plan.pass, Ok, picked), plan)
  {
    var rest := s.passes[plan.pass].rest;
    var e := DeleteEvent(rest[0], StorageKeys(rest[0]));
    PassLeavesOnlyNew(cfg, s, plan.pass, Ok, picked, s0.sent);
    AskedGrows(s0.sent, s.sent, s.next, e);
    CleanupIsAsked(cfg.batch, plan, StuckIds(s0.rows, plan.before), UncleanedIds(s0.rows, plan.before),
      UploadsAsked(s0.sent, s.sent), CleanupsAsked(s0.sent, s.sent), rest);
    PassSends(cfg, s, plan.pass, picked, e, Some(RepublishingCleanups(rest[1..])));
    LaterStageKeepsProgress(cfg, s0, s, StepPass(cfg, s, plan.pass, Ok, picked), plan);
  }

  lemma PassEnds(cfg: Config, s0: State, s: State, picked: seq<Id>, plan: Plan)
    requires Progress(cfg, s0, s, plan) && s.next !in s.sent && plan.pass in s.passes
    requires s.passes[plan.pass] == RepublishingCleanups([])
    ensures Progress(cfg, s0, StepPass(cfg, s, plan.pass, Ok, picked), plan)
  {
    PassLeavesOnlyNew(cfg, s, plan.pass, Ok, picked, s0.sent);
    assert CleanupsAsked(s0.sent, s.sent) + ToSet([]) == CleanupsAsked(s0.sent, s.sent);
  }

  lemma PassKeepsProgress(cfg: Config, s0: State, s: State, picked: seq<Id>, plan: Plan)
    requires Progress(cfg, s0, s, plan) && s.next !in s.sent && plan.pass in s.passes
    requires Allowed(cfg, s, plan, PassStep(plan.pass, Ok, picked))
    ensures Progress(cfg, s0, StepPass(cfg, s, plan.pass, Ok, picked), plan)
  {
    match s.passes[plan.pass] {
      case FailingStale(_) => PassFailsStale(cfg, s0, s, picked, plan);
      case SelectingStuck(_) => PassSelectsStuck(cfg, s0, s, picked, plan);
      case Republishing(_, rest) =>
        if rest == [] { PassSelectsUncleaned(cfg, s0, s, picked, plan); }
        else { PassRepublishesUpload(cfg, s0, s, picked, plan); }
      case RepublishingCleanups(rest) =>
        if rest == [] { PassEnds(cfg, s0, s, picked, plan); } else { PassRepublishesCleanup(cfg, s0, s, picked, plan); }
    }
  }

  lemma IdentifierIsFresh(cfg: Config, s: State)
    requires Inv(cfg, s)
    ensures s.next !in s.sent
  {
    assert s.next in s.sent ==> MessageOk(s, s.next);
  }

  lemma StepKeepsProgress(cfg: Config, s0: State, s: State, a: Action, plan: Plan)
    requires cfg.Valid() && Inv(cfg, s) && Progress(cfg, s0, s, plan) && Allowed(cfg, s, plan, a)
    ensures Progress(cfg, s0, Step(cfg, s, a), plan)
  {
    match a {
      case Tick => WaitingKeepsProgress(cfg, s0, s, a, plan);
      case Deliver(_) => WaitingKeepsProgress(cfg, s0, s, a, plan);
      case AttemptStep(t, _, gone) => if t in s.attempts { AttemptKeepsProgress(cfg, s0, s, t, gone, plan); }
      case PassStep(p, _, picked) =>
        if p in s.passes {
          IdentifierIsFresh(cfg, s);
          PassKeepsProgress(cfg, s0, s, picked, plan);
        }
    }
  }

  lemma {:induction false} RunKeepsProgress(cfg: Config, s0: State, s: State, plan: Plan, actions: seq<Action>)
    requires cfg.Valid() && Inv(cfg, s) && Progress(cfg, s0, s, plan) && Proceeds(cfg, s, plan, actions)
    ensures Inv(cfg, Run(cfg, s, actions)) && Progress(cfg, s0, Run(cfg, s, actions), plan)
    decreases |actions|
  {
    if actions != [] {
      StepKeepsProgress(cfg, s0, s, actions[0], plan);
      StepKeepsInv(cfg, s, actions[0]);
      RunKeepsProgress(cfg, s0, Step(cfg, s, actions[0]), plan, actions[1..]);
    }
  }

  // At rest again

  /** Every message that is not known of old has been settled. */
  lemma NewIsSettled(cfg: Config, s: State, known: map<nat, Event>, m: nat)
    requires Inv(cfg, s) && AtRest(s) && OnlyNew(known, s) && m in s.sent && m !in known
    ensures EventDone(s, s.sent[m])
  {
    assert MessageOk(s, m);
    assert forall c :: c in s.copies ==> s.copies[c].mid != m;
  }

  /** What has been asked for has been done. */
  lemma AskedIsDone(cfg: Config, s: State, known: map<nat, Event>)
    requires Inv(cfg, s) && AtRest(s) && OnlyNew(known, s)
    ensures forall id :: id in UploadsAsked(known, s.sent) ==> id !in Unprocessed(s.rows)
    ensures forall id :: id in CleanupsAsked(known, s.sent) ==> id !in Dirty(s.rows)
  {
    forall id | id in UploadsAsked(known, s.sent) ensures id !in Unprocessed(s.rows) {
      var m :| m in s.sent && m !in known && s.sent[m].UploadEvent? && s.sent[m].id == id;
      assert EventDone(s, s.sent[m]) by { NewIsSettled(cfg, s, known, m); }
    }
    forall id | id in CleanupsAsked(known, s.sent) ensures id !in Dirty(s.rows) {
      var m :| m in s.sent && m !in known && s.sent[m].DeleteEvent? && s.sent[m].id == id;
      assert EventDone(s, s.sent[m]) by { NewIsSettled(cfg, s, known, m); }
    }
  }

  /** A settled upload event finds processing begun, or the row deleted; a settled delete event the mark. */
  predicate EventDone(s: State, e: Event) {
    match e
    case UploadEvent(id) => IsBegun(s, id) || IsFinished(s, id)
    case DeleteEvent(id, _) => IsCleaned(s, id)
  }

  /** The tasks after a pass, in terms of those before it. */
  lemma PassTasks(cfg: Config, s: State, plan: Plan, actions: seq<Action>, s': State)
    requires cfg.Valid() && Inv(cfg, s) && OnePass(cfg, s, plan, actions, s')
    ensures Inv(cfg, s')
    ensures Chosen(cfg.batch, StuckIds(s.rows, plan.before), plan.stuck)
    ensures Chosen(cfg.batch, UncleanedIds(s.rows, plan.before), plan.uncleaned)
    ensures var a, b, stale := TasksOf(s.rows, plan.before), TasksOf(s'.rows, plan.before),
              StaleIds(s.rows, plan.before);
      && b.unfinished == a.unfinished - stale
      && b.unprocessed == a.unprocessed - ToSet(plan.stuck)
      && b.dirty <= (a.dirty + stale) - ToSet(plan.uncleaned)
      && b.stuck == a.stuck - ToSet(plan.stuck)
      && b.uncleaned == a.uncleaned - ToSet(plan.uncleaned)
  {
    var s1 := Step(cfg, s, BeginPass);
    PassStarts(cfg, s, plan);
    StepKeepsInv(cfg, s, BeginPass);
    assert ([BeginPass] + actions)[1..] == actions;
    RunKeepsProgress(cfg, s, s1, plan, actions);
    AskedIsDone(cfg, s', s.sent);
    TasksAtRest(cfg, s, s', plan);
  }

  lemma TasksAtRest(cfg: Config, s: State, s': State, plan: Plan)
    requires Progress(cfg, s, s', plan) && AtRest(s')
    requires forall id :: id in UploadsAsked(s.sent, s'.sent) ==> id !in Unprocessed(s'.rows)
    requires forall id :: id in CleanupsAsked(s.sent, s'.sent) ==> id !in Dirty(s'.rows)
    ensures Chosen(cfg.batch, StuckIds(s.rows, plan.before), plan.stuck)
    ensures Chosen(cfg.batch, UncleanedIds(s.rows, plan.before), plan.uncleaned)
    ensures var a, b, stale := TasksOf(s.rows, plan.before), TasksOf(s'.rows, plan.before),
              StaleIds(s.rows, plan.before);
      && b.unfinished == a.unfinished - stale
      && b.unprocessed == a.unprocessed - ToSet(plan.stuck)
      && b.dirty <= (a.dirty + stale) - ToSet(plan.uncleaned)
      && b.stuck == a.stuck - ToSet(plan.stuck)
      && b.uncleaned == a.uncleaned - ToSet(plan.uncleaned)
  {
    var b := TasksOf(s'.rows, plan.before);
    assert b.stuck <= b.unprocessed && b.uncleaned <= b.dirty;
  }

  /** Each pass takes care of as many of the rows that have waited long enough as its batch allows. */
  lemma PassLowersCounts(cfg: Config, s: State, plan: Plan, actions: seq<Action>, s': State)
    requires cfg.Valid() && Reachable(cfg, s) && OnePass(cfg, s, plan, actions, s')
    ensures var stuck, uncleaned := StuckIds(s.rows, plan.before), UncleanedIds(s.rows, plan.before);
      && StuckIds(s'.rows, plan.before) == stuck - ToSet(plan.stuck)
      && |StuckIds(s'.rows, plan.before)| == |stuck| - Min(cfg.batch, |stuck|)
      && UncleanedIds(s'.rows, plan.before) == uncleaned - ToSet(plan.uncleaned)
      && |UncleanedIds(s'.rows, plan.before)| == |uncleaned| - Min(cfg.batch, |uncleaned|)
  {
    ReachableInv(cfg, s);
    PassTasks(cfg, s, plan, actions, s');
    SizeOf(plan.stuck);
    SizeOf(plan.uncleaned);
    Subtract(StuckIds(s.rows, plan.before), ToSet(plan.stuck));
    Subtract(UncleanedIds(s.rows, plan.before), ToSet(plan.uncleaned));
  }

  /** The rank never grows, and it drops whenever everything left to do has waited long enough. */
  lemma PassLowersRank(cfg: Config, s: State, plan: Plan, actions: seq<Action>, s': State)
    requires cfg.Valid() && Inv(cfg, s) && OnePass(cfg, s, plan, actions, s')
    ensures Inv(cfg, s')
    ensures Rank(s'.rows) <= Rank(s.rows) - |StaleIds(s.rows, plan.before)| - |plan.stuck| - |plan.uncleaned|
    ensures AllOld(s.rows, plan.before) && Rank(s.rows) > 0 ==> Rank(s'.rows) < Rank(s.rows)
  {
    PassTasks(cfg, s, plan, actions, s');
    SizeOf(plan.stuck);
    SizeOf(plan.uncleaned);
    var a := TasksOf(s.rows, plan.before);
    assert a.stuck <= a.unprocessed && a.uncleaned <= a.dirty;
    RankAfter(a, StaleIds(s.rows, plan.before), ToSet(plan.stuck), ToSet(plan.uncleaned),
      TasksOf(s'.rows, plan.before));
    if AllOld(s.rows, plan.before) && Rank(s.rows) > 0 { SomethingIsDue(s.rows, plan.before); }
  }

  // Pass after pass

  datatype Round = Round(plan: Plan, actions: seq<Action>)

  /** The states between the rounds, each of which comes late enough to see everything that is left. */
  ghost predicate Rounds(cfg: Config, states: seq<State>, rounds: seq<Round>)
    requires cfg.Valid()
  {
    && |states| == |rounds| + 1
    && forall i :: 0 <= i < |rounds| ==> RoundOk(cfg, states[i], rounds[i], states[i + 1])
  }

  ghost predicate RoundOk(cfg: Config, s: State, r: Round, s': State)
    requires cfg.Valid()
  {
    OnePass(cfg, s, r.plan, r.actions, s') && AllOld(s.rows, r.plan.before)
  }

  lemma RoundLowersRank(cfg: Config, s: State, r: Round, s': State)
    requires cfg.Valid() && Inv(cfg, s) && RoundOk(cfg, s, r, s')
    ensures Inv(cfg, s') && Rank(s'.rows) <= if Rank(s.rows) == 0 then 0 else Rank(s.rows) - 1
  {
    PassLowersRank(cfg, s, r.plan, r.actions, s');
  }

  function RankAt(states: seq<State>, n: nat): nat
    requires n < |states|
  {
    Rank(states[n].rows)
  }

  lemma {:induction false} RoundsKeepInv(cfg: Config, states: seq<State>, rounds: seq<Round>, n: nat)
    requires cfg.Valid() && Rounds(cfg, states, rounds) && Inv(cfg, states[0]) && n <= |rounds|
    ensures Inv(cfg, states[n])
  {
    if n > 0 {
      RoundsKeepInv(cfg, states, rounds, n - 1);
      RoundLowersRank(cfg, states[n - 1], rounds[n - 1], states[n]);
    }
  }

  lemma {:induction false} RankFalls(states: seq<State>, n: nat)
    requires n < |states|
    requires forall i :: 0 <= i < n ==>
               RankAt(states, i + 1) <= if RankAt(states, i) == 0 then 0 else RankAt(states, i) - 1
    ensures RankAt(states, n) <= if n < RankAt(states, 0) then RankAt(states, 0) - n else 0
  {
    if n > 0 { RankFalls(states, n - 1); }
  }

  /**
   * Convergence: as many rounds as the rank, each late enough to see what is left, and there is no
   * upload under way, no upload left unprocessed and no file left to be removed.
   */
  lemma PassesConverge(cfg: Config, states: seq<State>, rounds: seq<Round>)
    requires cfg.Valid() && Rounds(cfg, states, rounds) && Reachable(cfg, states[0])
    ensures Rank(states[|rounds|].rows) <=
      if |rounds| < Rank(states[0].rows) then Rank(states[0].rows) - |rounds| else 0
    ensures |rounds| >= Rank(states[0].rows) ==> NothingLeft(states[|rounds|].rows)
  {
    NothingLeftExactly(states[|rounds|].rows);
    ReachableInv(cfg, states[0]);
    forall i | 0 <= i < |rounds|
      ensures RankAt(states, i + 1) <= if RankAt(states, i) == 0 then 0 else RankAt(states, i) - 1 {
      RoundsKeepInv(cfg, states, rounds, i);
      RoundLowersRank(cfg, states[i], rounds[i], states[i + 1]);
    }
    RankFalls(states, |rounds|);
  }
}
