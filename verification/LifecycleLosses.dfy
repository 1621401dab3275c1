/** Work that is lost: exactly when it happens, that it does happen, and that nothing repairs it. */
module LifecycleLosses {
  import opened Domain
  import opened Repository
  import opened Lifecycle
  import opened LifecycleInvariant
  import opened LifecycleEffects
  import opened LifecycleSteps
  import opened LifecycleTheorems
  import opened LifecycleLocality
  import opened LifecycleLadder
  import Retry

  /** A live row with work left on it. */
  predicate WorkLeft(s: State, id: Id) {
    id in s.rows && !s.rows[id].Finished()
  }

  /** The attempt is about to record a failure that no repetition can repair. */
  predicate GivingUp(s: State, t: nat) {
    t in s.attempts && s.attempts[t].event.UploadEvent? && s.attempts[t].pc == Failing(NonRetryable)
  }

  /**
   * Exactly when an avatar is given up with its work unfinished: the attempt is the last, and the
   * write of the failed status fails without effect. The exception is recorded in that case only.
   */
  lemma GivesUpExactly(cfg: Config, s: State, t: nat, o: Outcome, gone: set<Key>)
    requires cfg.Valid() && GivingUp(s, t) && WorkLeft(s, s.attempts[t].event.id)
    ensures var s', id := Step(cfg, s, AttemptStep(t, o, gone)), s.attempts[t].event.id;
      && t in s'.attempts
      && (s'.attempts[t].pc == Returned(NonRetryable) && WorkLeft(s', id) <==> s.attempts[t].final && o == Fail)
      && (s.attempts[t].final && o == Fail <==>
           s'.dropped == s.dropped + {id} && EffectOf(cfg, s, AttemptStep(t, o, gone)).NoteDropped?)
  {
  }

  /** The step by which an avatar is given up. */
  predicate GivesUp(s: State, a: Action, id: Id) {
    && a.AttemptStep? && a.outcome == Fail && GivingUp(s, a.act)
    && s.attempts[a.act].final && s.attempts[a.act].event.id == id && WorkLeft(s, id)
  }

  lemma RequestsNeverDrop(cfg: Config, s: State, a: Action)
    requires cfg.Valid() && !a.AttemptStep?
    ensures !EffectOf(cfg, s, a).NoteDropped?
  {
  }

  lemma AttemptsDropExactly(cfg: Config, s: State, t: nat, o: Outcome, gone: set<Key>, id: Id)
    requires cfg.Valid() && t in s.attempts
    ensures AttemptTurn(cfg, s, t, o, gone).effect == NoteDropped(id) <==> GivesUp(s, AttemptStep(t, o, gone), id)
  {
  }

  /** Over every step, the recorded exceptions grow by exactly the avatars that are given up. */
  lemma DroppedExactly(cfg: Config, s: State, a: Action, id: Id)
    requires cfg.Valid()
    ensures id in Step(cfg, s, a).dropped <==> id in s.dropped || GivesUp(s, a, id)
  {
    StepShowsEffect(cfg, s, a);
    if a.AttemptStep? && a.act in s.attempts { AttemptsDropExactly(cfg, s, a.act, a.outcome, a.gone, id); }
    if !a.AttemptStep? { RequestsNeverDrop(cfg, s, a); }
  }

  // That it happens: a run from the empty system

  function UploadedRow(user: string, now: nat): Row {
    Insert(user, now).(upload := Uploaded)
  }

  /** One avatar has been uploaded, and the event that asks for its thumbnails waits in the queue. */
  function Announcing(now: nat, id: Id, user: string, bytes: Bytes): State {
    Initial(now).(
      rows := map[id := UploadedRow(user, now)],
      objects := map[Original(id) := bytes],
      copies := map[0 := Copy(0, UploadEvent(id), 0, 0, MainQueue, Tally(0, 0, 0))],
      next := 1,
      born := map[id := bytes],
      sent := map[0 := UploadEvent(id)])
  }

  lemma UploadCall(cfg: Config, s: State, id: Id, effect: Effect, next: Option<UploadPc>)
    requires cfg.Valid() && id in s.uploads && UploadTurn(s, id, Ok) == Turn(effect, next)
    ensures Step(cfg, s, UploadStep(id, Ok)) ==
      Affect(s, effect).(uploads := if next.Some? then s.uploads[id := next.value] else s.uploads - {id})
  {
  }

  lemma UploadStores(cfg: Config, now: nat, id: Id, user: string, bytes: Bytes) returns (s: State)
    requires cfg.Valid() && WellFormed(id)
    ensures Leads(cfg, Initial(now), s)
    ensures s == Initial(now).(
      rows := map[id := Insert(user, now)], objects := map[Original(id) := bytes], born := map[id := bytes],
      uploads := map[id := MarkingUploaded])
  {
    var s0 := Initial(now);
    Stay(cfg, s0);
    ThenStep(cfg, s0, s0, BeginUpload(id, user, bytes));
    s := Step(cfg, s0, BeginUpload(id, user, bytes));
    assert s == s0.(uploads := map[id := Creating(user, bytes)]);
    ThenStep(cfg, s0, s, UploadStep(id, Ok));
    UploadCall(cfg, s, id, InsertRow(id, Insert(user, now), bytes), Some(PuttingOriginal(bytes)));
    s := Step(cfg, s, UploadStep(id, Ok));
    assert s == s0.(rows := map[id := Insert(user, now)], born := map[id := bytes],
      uploads := map[id := PuttingOriginal(bytes)]);
    ThenStep(cfg, s0, s, UploadStep(id, Ok));
    UploadCall(cfg, s, id, StoreObject(Original(id), bytes), Some(MarkingUploaded));
    s := Step(cfg, s, UploadStep(id, Ok));
    assert s.uploads == map[id := MarkingUploaded];
    assert s.objects == map[Original(id) := bytes];
  }

  lemma UploadAnnounces(cfg: Config, now: nat, id: Id, user: string, bytes: Bytes) returns (s: State)
    requires cfg.Valid() && WellFormed(id)
    ensures Leads(cfg, Initial(now), s) && s == Announcing(now, id, user, bytes)
  {
    var s0 := Initial(now);
    s := UploadStores(cfg, now, id, user, bytes);
    ThenStep(cfg, s0, s, UploadStep(id, Ok));
    UploadCall(cfg, s, id, WriteRow(id, UploadedRow(user, now)), Some(PublishingUpload));
    s := Step(cfg, s, UploadStep(id, Ok));
    assert s.rows == map[id := UploadedRow(user, now)] && s.uploads == map[id := PublishingUpload];
    ThenStep(cfg, s0, s, UploadStep(id, Ok));
    UploadCall(cfg, s, id, SendEvent(UploadEvent(id)), None);
    s := Step(cfg, s, UploadStep(id, Ok));
    assert s.uploads == map[];
    assert s.copies == map[0 := Copy(0, UploadEvent(id), 0, 0, MainQueue, Tally(0, 0, 0))];
    assert s.sent == map[0 := UploadEvent(id)];
  }

  /** For every number there is a run that handles one copy so often, without a requeue or a forwarding. */
  lemma HandlingsAreUnbounded(cfg: Config, now: nat, id: Id, user: string, bytes: Bytes, n: nat) returns (s: State)
    requires cfg.Valid() && WellFormed(id)
    ensures Leads(cfg, Initial(now), s) && 0 in s.copies && s.copies[0].tally == Tally(n, n, 0)
    ensures s.copies[0].attempts == 0
  {
    s := UploadAnnounces(cfg, now, id, user, bytes);
    s := RejectionsAreUnbounded(cfg, Initial(now), s, 0, n);
  }

  lemma AttemptCall(cfg: Config, s: State, t: nat, o: Outcome, effect: Effect, next: AttemptPc)
    requires cfg.Valid() && t in s.attempts && AttemptTurn(cfg, s, t, o, {}) == Turn(effect, Some(next))
    ensures Step(cfg, s, AttemptStep(t, o, {})) ==
      Affect(s, effect).(attempts := s.attempts[t := s.attempts[t].(pc := next)])
  {
  }

  /** A last delivery of the upload event of an avatar that is live, not finished and beyond rendering. */
  predicate LastChance(cfg: Config, s: State, t: nat, id: Id) {
    && t in s.attempts && s.attempts[t].event == UploadEvent(id) && s.attempts[t].final && s.attempts[t].pc == Getting
    && WorkLeft(s, id)
    && Original(id) in s.objects && Rendered(cfg, s.objects[Original(id)]).None?
  }

  function Begun(r: Row, now: nat): Row {
    r.(processing := Processing, updatedAt := now)
  }

  lemma LastChanceBegins(cfg: Config, from: State, s: State, t: nat, id: Id) returns (s': State)
    requires cfg.Valid() && Leads(cfg, from, s) && LastChance(cfg, s, t, id)
    ensures Leads(cfg, from, s')
    ensures s' == s.(rows := s.rows[id := Begun(s.rows[id], s.now)],
              attempts := s.attempts[t := s.attempts[t].(pc := Rendering)])
  {
    ThenStep(cfg, from, s, AttemptStep(t, Ok, {}));
    AttemptCall(cfg, s, t, Ok, Nothing, Starting);
    s' := Step(cfg, s, AttemptStep(t, Ok, {}));
    ThenStep(cfg, from, s', AttemptStep(t, Ok, {}));
    AttemptCall(cfg, s', t, Ok, WriteRow(id, Begun(s.rows[id], s.now)), Rendering);
    s' := Step(cfg, s', AttemptStep(t, Ok, {}));
  }

  lemma BeyondRendering(cfg: Config, from: State, s: State, t: nat, id: Id) returns (s': State)
    requires cfg.Valid() && Leads(cfg, from, s) && t in s.attempts
    requires s.attempts[t].event == UploadEvent(id) && s.attempts[t].pc == Rendering
    requires Original(id) in s.objects && Rendered(cfg, s.objects[Original(id)]).None?
    ensures Leads(cfg, from, s') && s' == s.(attempts := s.attempts[t := s.attempts[t].(pc := Failing(NonRetryable))])
  {
    ThenStep(cfg, from, s, AttemptStep(t, Ok, {}));
    AttemptCall(cfg, s, t, Ok, Nothing, Failing(NonRetryable));
    s' := Step(cfg, s, AttemptStep(t, Ok, {}));
  }

  lemma BeyondRecording(cfg: Config, from: State, s: State, t: nat, id: Id) returns (s': State)
    requires cfg.Valid() && Leads(cfg, from, s) && t in s.attempts
    requires s.attempts[t].event == UploadEvent(id) && s.attempts[t].final && s.attempts[t].pc == Failing(NonRetryable)
    requires WorkLeft(s, id)
    ensures Leads(cfg, from, s')
    ensures s' == s.(dropped := s.dropped + {id},
              attempts := s.attempts[t := s.attempts[t].(pc := Returned(NonRetryable))])
  {
    ThenStep(cfg, from, s, AttemptStep(t, Fail, {}));
    AttemptCall(cfg, s, t, Fail, NoteDropped(id), Returned(NonRetryable));
    s' := Step(cfg, s, AttemptStep(t, Fail, {}));
  }

  /** The original cannot be rendered, and neither can that be recorded. */
  lemma LastChanceIsGivenUp(cfg: Config, from: State, s: State, t: nat, id: Id) returns (s': State)
    requires cfg.Valid() && Leads(cfg, from, s) && t in s.attempts
    requires s.attempts[t].event == UploadEvent(id) && s.attempts[t].final && s.attempts[t].pc == Rendering
    requires WorkLeft(s, id) && Original(id) in s.objects && Rendered(cfg, s.objects[Original(id)]).None?
    ensures Leads(cfg, from, s')
    ensures s' == s.(dropped := s.dropped + {id},
              attempts := s.attempts[t := s.attempts[t].(pc := Returned(NonRetryable))])
  {
    s' := BeyondRendering(cfg, from, s, t, id);
    s' := BeyondRecording(cfg, from, s', t, id);
  }

  lemma LastChanceIsLost(cfg: Config, from: State, s: State, t: nat, id: Id) returns (s': State)
    requires cfg.Valid() && Leads(cfg, from, s) && LastChance(cfg, s, t, id)
    ensures Leads(cfg, from, s')
    ensures s' == s.(rows := s.rows[id := Begun(s.rows[id], s.now)], dropped := s.dropped + {id},
                     attempts := s.attempts[t := s.attempts[t].(pc := Returned(NonRetryable))])
  {
    s' := LastChanceBegins(cfg, from, s, t, id);
    s' := LastChanceIsGivenUp(cfg, from, s', t, id);
  }

  lemma AcknowledgedStep(cfg: Config, s: State, t: nat)
    requires cfg.Valid() && t in s.attempts && s.attempts[t].pc == Returned(NonRetryable)
    requires Holds(s, t, s.attempts[t].copy)
    ensures var c := s.attempts[t].copy;
      Step(cfg, s, AttemptStep(t, Ok, {})) ==
        s.(copies := s.copies - {c}, attempts := s.attempts - {t}, settled := s.settled + {s.attempts[t].mid})
  {
  }

  lemma GivenUpIsAcknowledged(cfg: Config, from: State, s: State, t: nat) returns (s': State)
    requires cfg.Valid() && Leads(cfg, from, s)
    requires t in s.attempts && s.attempts[t].pc == Returned(NonRetryable) && Holds(s, t, s.attempts[t].copy)
    ensures Leads(cfg, from, s')
    ensures s' == s.(copies := s.copies - {s.attempts[t].copy}, attempts := s.attempts - {t},
              settled := s.settled + {s.attempts[t].mid})
  {
    ThenStep(cfg, from, s, AttemptStep(t, Ok, {}));
    AcknowledgedStep(cfg, s, t);
    s' := Step(cfg, s, AttemptStep(t, Ok, {}));
  }

  /** The whole last delivery: it is acknowledged, and the row is left in processing. */
  lemma LastDeliveryLosesWork(cfg: Config, from: State, s: State, c: nat, id: Id) returns (s': State)
    requires cfg.Valid() && Leads(cfg, from, s) && s.next !in s.attempts
    requires c in s.copies && s.copies[c].place == MainQueue && s.copies[c].event == UploadEvent(id)
    requires Retry.IsFinal(AttemptOf(s.copies[c]))
    requires WorkLeft(s, id) && Original(id) in s.objects && Rendered(cfg, s.objects[Original(id)]).None?
    ensures Leads(cfg, from, s')
    ensures s' == s.(rows := s.rows[id := Begun(s.rows[id], s.now)], copies := s.copies - {c}, next := s.next + 1,
                     settled := s.settled + {s.copies[c].mid}, dropped := s.dropped + {id})
  {
    var t := s.next;
    s' := CopyIsDelivered(cfg, from, s, c);
    s' := LastChanceIsLost(cfg, from, s', t, id);
    s' := GivenUpIsAcknowledged(cfg, from, s', t);
    assert s'.attempts == s.attempts;
    assert s'.copies == s.copies - {c};
  }

  /** The system at rest, with a live uploaded avatar in processing and nothing in the broker. */
  predicate LostAtRest(s: State, id: Id) {
    && id in s.rows && s.rows[id].Live() && s.rows[id].upload == Uploaded && s.rows[id].processing == Processing
    && s.copies == map[] && s.uploads == map[] && s.deletes == map[] && s.attempts == map[] && s.passes == map[]
  }

  /**
   * Work is lost: for every configuration and every upload that cannot be rendered, some run from
   * the empty system ends at rest with the live avatar in processing and no message about it.
   */
  lemma WorkCanBeLost(cfg: Config, now: nat, id: Id, user: string, bytes: Bytes) returns (s: State)
    requires cfg.Valid() && WellFormed(id) && Rendered(cfg, bytes).None?
    ensures Leads(cfg, Initial(now), s) && LostAtRest(s, id) && s.dropped == {id}
  {
    var s0 := Initial(now);
    s := UploadAnnounces(cfg, now, id, user, bytes);
    s := RejectionGoesRound(cfg, s0, s, 0);
    s := RejectionGoesRound(cfg, s0, s, 0);
    assert s.copies[0].deaths == 4;
    s := LastDeliveryLosesWork(cfg, s0, s, 0, id);
  }

  // That nothing repairs it

  /** Whatever could still ask for the avatar's thumbnails is gone. */
  predicate Abandoned(s: State, id: Id) {
    && id in s.rows && s.rows[id].upload == Uploaded && s.rows[id].processing == Processing
    && (forall c :: c in s.copies ==> s.copies[c].event != UploadEvent(id))
    && (forall t :: t in s.attempts ==> s.attempts[t].event != UploadEvent(id))
    && (id in s.uploads ==> s.uploads[id].Creating?)
    && (forall p :: p in s.passes && s.passes[p].Republishing? ==> id !in s.passes[p].rest)
  }

  /** The effect neither asks for the avatar's thumbnails nor changes its status. */
  predicate Ignores(s: State, e: Effect, id: Id) {
    && e != SendEvent(UploadEvent(id)) && (e.ForwardCopy? ==> e.copy.event != UploadEvent(id))
    && id in RowsAfter(s, e) && RowsAfter(s, e)[id].upload == Uploaded && RowsAfter(s, e)[id].processing == Processing
  }

  lemma UploadIgnoresAbandoned(s: State, u: Id, o: Outcome, id: Id)
    requires u in s.uploads && Abandoned(s, id)
    ensures Ignores(s, UploadTurn(s, u, o).effect, id)
    ensures u == id ==> UploadTurn(s, u, o).next.None?
  {
  }

  lemma DeleteIgnoresAbandoned(s: State, d: nat, o: Outcome, gone: set<Key>, id: Id)
    requires d in s.deletes && Abandoned(s, id)
    ensures Ignores(s, DeleteTurn(s, d, o, gone).effect, id)
  {
  }

  lemma PassIgnoresAbandoned(cfg: Config, s: State, p: nat, o: Outcome, picked: seq<Id>, id: Id)
    requires p in s.passes && Abandoned(s, id)
    ensures var turn := PassTurn(cfg, s, p, o, picked);
      && Ignores(s, turn.effect, id)
      && (turn.next.Some? && turn.next.value.Republishing? ==> id !in turn.next.value.rest)
  {
    var pc := s.passes[p];
    assert pc.Republishing? && pc.rest != [] ==> forall i :: i in pc.rest[1..] ==> i in pc.rest;
  }

  lemma UploadedIgnoresAbandoned(cfg: Config, s: State, a: Attempt, o: Outcome, gone: set<Key>, id: Id)
    requires a.event.UploadEvent? && a.event.id != id && Abandoned(s, id)
    ensures Ignores(s, UploadedTurn(cfg, s, a, o, gone).effect, id)
  {
  }

  lemma OtherAttemptIgnoresAbandoned(cfg: Config, s: State, t: nat, o: Outcome, gone: set<Key>, id: Id)
    requires cfg.Valid() && t in s.attempts && (Settling(s.attempts[t].pc) || s.attempts[t].event.DeleteEvent?)
    requires Abandoned(s, id)
    ensures Ignores(s, AttemptTurn(cfg, s, t, o, gone).effect, id)
  {
  }

  lemma CopiesIgnore(s: State, e: Effect, id: Id)
    requires Abandoned(s, id) && Ignores(s, e, id)
    ensures forall c :: c in CopiesAfter(s, e) ==> CopiesAfter(s, e)[c].event != UploadEvent(id)
  {
  }

  lemma RequestsIgnoreAbandoned(cfg: Config, s: State, a: Action, id: Id)
    requires cfg.Valid() && Abandoned(s, id) && Enabled(s, a) && (a.UploadStep? || a.DeleteStep?)
    ensures Abandoned(Step(cfg, s, a), id)
  {
    if a.UploadStep? { UploadIgnoresAbandoned(s, a.id, a.outcome, id); }
    else { DeleteIgnoresAbandoned(s, a.act, a.outcome, a.gone, id); }
    CopiesIgnore(s, EffectOf(cfg, s, a), id);
  }

  lemma PassesIgnoreAbandoned(cfg: Config, s: State, p: nat, o: Outcome, picked: seq<Id>, id: Id)
    requires Abandoned(s, id) && p in s.passes
    ensures Abandoned(StepPass(cfg, s, p, o, picked), id)
  {
    PassIgnoresAbandoned(cfg, s, p, o, picked, id);
    CopiesIgnore(s, PassTurn(cfg, s, p, o, picked).effect, id);
  }

  lemma AttemptTurnIgnoresAbandoned(cfg: Config, s: State, t: nat, o: Outcome, gone: set<Key>, id: Id)
    requires cfg.Valid() && Abandoned(s, id) && t in s.attempts
    ensures Ignores(s, AttemptTurn(cfg, s, t, o, gone).effect, id)
  {
    if Settling(s.attempts[t].pc) || s.attempts[t].event.DeleteEvent? {
      OtherAttemptIgnoresAbandoned(cfg, s, t, o, gone, id);
    } else {
      UploadedIgnoresAbandoned(cfg, s, s.attempts[t], o, gone, id);
    }
  }

  lemma TurnLeavesAbandoned(s: State, t: nat, turn: Turn<AttemptPc>, id: Id)
    requires Abandoned(s, id) && t in s.attempts && Ignores(s, turn.effect, id)
    ensures Abandoned(TakeTurn(s, t, turn), id)
  {
    CopiesIgnore(s, turn.effect, id);
  }

  lemma AttemptsIgnoreAbandoned(cfg: Config, s: State, t: nat, o: Outcome, gone: set<Key>, id: Id)
    requires cfg.Valid() && Abandoned(s, id) && t in s.attempts
    ensures Abandoned(StepAttempt(cfg, s, t, o, gone), id)
  {
    AttemptTurnIgnoresAbandoned(cfg, s, t, o, gone, id);
    TurnLeavesAbandoned(s, t, AttemptTurn(cfg, s, t, o, gone), id);
  }

  lemma OccurrencesIgnoreAbandoned(cfg: Config, s: State, a: Action, id: Id)
    requires Abandoned(s, id)
    ensures Abandoned(Occur(cfg, s, a), id)
  {
  }

  lemma {:induction false} AbandonedForGood(cfg: Config, s: State, actions: seq<Action>, id: Id)
    requires cfg.Valid() && Abandoned(s, id)
    ensures Abandoned(Run(cfg, s, actions), id)
    decreases |actions|
  {
    if actions != [] {
      var a := actions[0];
      match a {
        case UploadStep(_, _) => if Enabled(s, a) { RequestsIgnoreAbandoned(cfg, s, a, id); }
        case DeleteStep(_, _, _) => if Enabled(s, a) { RequestsIgnoreAbandoned(cfg, s, a, id); }
        case PassStep(p, o, picked) => if p in s.passes { PassesIgnoreAbandoned(cfg, s, p, o, picked, id); }
        case AttemptStep(t, o, gone) => if t in s.attempts { AttemptsIgnoreAbandoned(cfg, s, t, o, gone, id); }
        case _ => OccurrencesIgnoreAbandoned(cfg, s, a, id);
      }
      AbandonedForGood(cfg, Step(cfg, s, a), actions[1..], id);
    }
  }

  /** Lost work stays lost: whatever happens later, the avatar is in processing until somebody deletes it. */
  lemma LostWorkIsNeverRepaired(cfg: Config, s: State, id: Id, later: seq<Action>)
    requires cfg.Valid() && LostAtRest(s, id)
    ensures var s' := Run(cfg, s, later);
      && id in s'.rows && s'.rows[id].processing == Processing
      && (forall before :: !Stuck(s'.rows[id], before))
      && (forall c :: c in s'.copies ==> s'.copies[c].event != UploadEvent(id))
  {
    AbandonedForGood(cfg, s, later, id);
  }
}
