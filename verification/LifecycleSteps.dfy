/** Every step of the lifecycle evolves the state and leaves what it has changed in order. */
module LifecycleSteps {
  import opened Domain
  import opened Repository
  import opened Lifecycle
  import opened LifecycleInvariant
  import opened LifecycleEffects

  // Server: upload

  lemma UploadTurnIsOk(cfg: Config, s: State, id: Id, o: Outcome)
    requires id in s.uploads && UploadOk(s, id) && Fresh(s)
    requires id in s.rows ==> RowOk(cfg, s, id)
    requires id in s.born ==> id in s.rows
    ensures EffectOk(cfg, s, UploadTurn(s, id, o).effect)
  {
  }

  lemma UploadNextIsOk(cfg: Config, s: State, id: Id, o: Outcome)
    requires id in s.uploads && UploadOk(s, id)
    ensures var s' := StepUpload(s, id, o); id in s'.uploads ==> UploadOk(s', id)
  {
  }

  lemma UploadStepIsGood(cfg: Config, s: State, id: Id, o: Outcome)
    requires id in s.uploads && UploadOk(s, id) && Fresh(s)
    requires id in s.rows ==> RowOk(cfg, s, id)
    requires id in s.born ==> id in s.rows
    ensures Good(cfg, s, StepUpload(s, id, o))
  {
    var s' := StepUpload(s, id, o);
    UploadTurnIsOk(cfg, s, id, o);
    UploadNextIsOk(cfg, s, id, o);
    OnlyUploadChanges(cfg, s, s', id);
    EffectIsGood(cfg, s, s', UploadTurn(s, id, o).effect);
  }

  // Server: delete

  lemma DeleteTurnIsOk(cfg: Config, s: State, d: nat, o: Outcome, gone: set<Key>)
    requires d in s.deletes && DeleteOk(s, d) && Fresh(s)
    requires s.deletes[d].id in s.rows ==> RowOk(cfg, s, s.deletes[d].id)
    ensures EffectOk(cfg, s, DeleteTurn(s, d, o, gone).effect)
  {
    StorageKeysAreAllKeysOfTheId(s.deletes[d].id);
  }

  lemma DeleteNextIsOk(cfg: Config, s: State, d: nat, o: Outcome, gone: set<Key>)
    requires d in s.deletes && DeleteOk(s, d)
    ensures var s' := StepDelete(s, d, o, gone); d in s'.deletes ==> DeleteOk(s', d)
  {
  }

  lemma DeleteStepIsGood(cfg: Config, s: State, d: nat, o: Outcome, gone: set<Key>)
    requires d in s.deletes && DeleteOk(s, d) && Fresh(s)
    requires s.deletes[d].id in s.rows ==> RowOk(cfg, s, s.deletes[d].id)
    ensures Good(cfg, s, StepDelete(s, d, o, gone))
  {
    var s' := StepDelete(s, d, o, gone);
    DeleteTurnIsOk(cfg, s, d, o, gone);
    DeleteNextIsOk(cfg, s, d, o, gone);
    OnlyDeleteChanges(cfg, s, s', d);
    EffectIsGood(cfg, s, s', DeleteTurn(s, d, o, gone).effect);
  }

  // Worker: reconciler pass

  lemma PassTurnIsOk(cfg: Config, s: State, p: nat, o: Outcome, picked: seq<Id>)
    requires p in s.passes && PassOk(s, p) && Fresh(s) && RowsOk(cfg, s)
    ensures EffectOk(cfg, s, PassTurn(cfg, s, p, o, picked).effect)
  {
  }

  lemma SelectionIsOk(cfg: Config, s: State, p: nat, o: Outcome, picked: seq<Id>)
    requires p in s.passes && PassOk(s, p) && !s.passes[p].FailingStale?
    requires s.passes[p].SelectingStuck? || s.passes[p].rest == []
    ensures var s' := StepPass(cfg, s, p, o, picked); p in s'.passes ==> PassOk(s', p)
  {
  }

  lemma RepublicationIsOk(cfg: Config, s: State, p: nat, o: Outcome, picked: seq<Id>)
    requires p in s.passes && PassOk(s, p) && !s.passes[p].FailingStale? && !s.passes[p].SelectingStuck?
    requires s.passes[p].rest != []
    ensures var s' := StepPass(cfg, s, p, o, picked); p in s'.passes ==> PassOk(s', p)
  {
    var rest := s.passes[p].rest;
    assert forall id :: id in rest[1..] ==> id in rest;
  }

  lemma PassNextIsOk(cfg: Config, s: State, p: nat, o: Outcome, picked: seq<Id>)
    requires p in s.passes && PassOk(s, p)
    ensures var s' := StepPass(cfg, s, p, o, picked); p in s'.passes ==> PassOk(s', p)
  {
    var pc := s.passes[p];
    if !pc.FailingStale? {
      if pc.SelectingStuck? || pc.rest == [] { SelectionIsOk(cfg, s, p, o, picked); }
      else { RepublicationIsOk(cfg, s, p, o, picked); }
    }
  }

  lemma PassStepIsGood(cfg: Config, s: State, p: nat, o: Outcome, picked: seq<Id>)
    requires p in s.passes && PassOk(s, p) && Fresh(s) && RowsOk(cfg, s)
    ensures Good(cfg, s, StepPass(cfg, s, p, o, picked))
  {
    var s' := StepPass(cfg, s, p, o, picked);
    PassTurnIsOk(cfg, s, p, o, picked);
    PassNextIsOk(cfg, s, p, o, picked);
    OnlyPassChanges(cfg, s, s', p);
    EffectIsGood(cfg, s, s', PassTurn(cfg, s, p, o, picked).effect);
  }

  // Worker: one delivery

  /** A turn is in order when its effect is, and the next point's condition holds after it. */
  lemma TurnIsGood(cfg: Config, s: State, t: nat, turn: Turn<AttemptPc>)
    requires t in s.attempts && AttemptOk(cfg, s, t) && EffectOk(cfg, s, turn.effect)
    requires turn.next.Some? ==> PcOk(cfg, Affect(s, turn.effect), s.attempts[t].(pc := turn.next.value))
    ensures Good(cfg, s, TakeTurn(s, t, turn))
  {
    var s' := TakeTurn(s, t, turn);
    if turn.next.Some? { TurnLeavesAttemptOk(cfg, s, t, turn); }
    OnlyAttemptChanges(cfg, s, s', t);
    EffectIsGood(cfg, s, s', turn.effect);
  }

  lemma TurnLeavesAttemptOk(cfg: Config, s: State, t: nat, turn: Turn<AttemptPc>)
    requires t in s.attempts && AttemptOk(cfg, s, t) && EffectOk(cfg, s, turn.effect)
    requires turn.next.Some? && PcOk(cfg, Affect(s, turn.effect), s.attempts[t].(pc := turn.next.value))
    ensures AttemptOk(cfg, TakeTurn(s, t, turn), t)
  {
  }

  /** An attempt on an upload event, with what its message and its row guarantee. */
  ghost predicate UploadAttempt(cfg: Config, s: State, a: Attempt) {
    && a.event.UploadEvent? && PcOk(cfg, s, a) && Announced(s.sent, a.mid, a.event)
    && IsUploaded(s, a.event.id) && RowOk(cfg, s, a.event.id)
    && (Original(a.event.id) in s.objects ==> ObjectOk(cfg, s, Original(a.event.id)))
  }

  ghost predicate TurnOk(cfg: Config, s: State, a: Attempt, turn: Turn<AttemptPc>) {
    && EffectOk(cfg, s, turn.effect)
    && (turn.next.Some? ==> PcOk(cfg, Affect(s, turn.effect), a.(pc := turn.next.value)))
  }

  lemma GettingTurnIsOk(cfg: Config, s: State, a: Attempt, o: Outcome, gone: set<Key>)
    requires UploadAttempt(cfg, s, a) && (a.pc.Getting? || a.pc.CheckingStart? || a.pc.Rendering?)
    ensures TurnOk(cfg, s, a, UploadedTurn(cfg, s, a, o, gone))
  {
  }

  lemma StartingTurnIsOk(cfg: Config, s: State, a: Attempt, o: Outcome, gone: set<Key>)
    requires UploadAttempt(cfg, s, a) && a.pc.Starting?
    ensures TurnOk(cfg, s, a, UploadedTurn(cfg, s, a, o, gone))
  {
  }

  lemma KeysUpToNext(id: Id, thumbs: map<ThumbnailSize, Bytes>, n: nat)
    requires n < |ThumbnailSizes()|
    ensures var z := ThumbnailSizes()[n];
      KeysUpTo(id, thumbs, n + 1) ==
        if z in thumbs then KeysUpTo(id, thumbs, n)[z := Thumb(id, z)] else KeysUpTo(id, thumbs, n)
  {
    assert ThumbnailSizes()[..n + 1] == ThumbnailSizes()[..n] + [ThumbnailSizes()[n]];
  }

  lemma StoringTurnIsOk(cfg: Config, s: State, a: Attempt, o: Outcome, gone: set<Key>)
    requires UploadAttempt(cfg, s, a) && a.pc.Storing? && a.pc.next < |ThumbnailSizes()|
    ensures TurnOk(cfg, s, a, UploadedTurn(cfg, s, a, o, gone))
  {
    KeysUpToNext(a.event.id, a.pc.thumbs, a.pc.next);
  }

  /** The keys of all thumbnails name stored objects, so the completed row fits. */
  lemma CompletedRowFits(cfg: Config, s: State, a: Attempt)
    requires UploadAttempt(cfg, s, a) && a.pc.Storing? && a.pc.next >= |ThumbnailSizes()|
    ensures var r := CompleteProcessing(s.rows[a.event.id], a.pc.keys, s.now);
      r.Some? ==> RowFits(cfg, s, a.event.id, r.value)
  {
  }

  lemma CompletingTurnIsOk(cfg: Config, s: State, a: Attempt, o: Outcome, gone: set<Key>)
    requires UploadAttempt(cfg, s, a) && a.pc.Storing? && a.pc.next >= |ThumbnailSizes()|
    ensures TurnOk(cfg, s, a, UploadedTurn(cfg, s, a, o, gone))
  {
    CompletedRowFits(cfg, s, a);
  }

  lemma RefusedTurnIsOk(cfg: Config, s: State, a: Attempt, o: Outcome, gone: set<Key>)
    requires UploadAttempt(cfg, s, a) && (a.pc.CheckingComplete? || a.pc.RemovingThumbs?)
    ensures TurnOk(cfg, s, a, UploadedTurn(cfg, s, a, o, gone))
  {
  }

  lemma CountingTurnIsOk(cfg: Config, s: State, a: Attempt, o: Outcome)
    requires UploadAttempt(cfg, s, a) && a.pc == Failing(Retryable) && !a.final
    ensures TurnOk(cfg, s, a, FailingTurn(s, a, o, Retryable))
  {
  }

  lemma FailedRowFits(cfg: Config, s: State, id: Id, m: nat)
    requires IsUploaded(s, id) && RowOk(cfg, s, id) && Announced(s.sent, m, UploadEvent(id))
    ensures var r := SetProcessingStatus(s.rows[id], ProcessingFailed, s.now); r.Some? ==> RowFits(cfg, s, id, r.value)
  {
  }

  lemma FailureIsSettled(s: State, a: Attempt, o: Outcome, error: Result)
    requires a.event.UploadEvent? && a.event.id in s.rows && (a.final || error == NonRetryable)
    ensures var turn, id := FailingTurn(s, a, o, error), a.event.id;
      var r := Affect(s, turn.effect).rows[id];
      && turn.next.Some?
      && match turn.next.value
         case Returned(result) => result == error && error == NonRetryable ==>
           r.Finished() || id in Affect(s, turn.effect).dropped
         case CheckingFailed(e) => e == error && r.Finished()
         case _ => false
  {
  }

  lemma FailingTurnIsOk(cfg: Config, s: State, a: Attempt, o: Outcome)
    requires UploadAttempt(cfg, s, a) && a.pc.Failing? && (a.final || a.pc.error == NonRetryable)
    ensures TurnOk(cfg, s, a, FailingTurn(s, a, o, a.pc.error))
  {
    FailedRowFits(cfg, s, a.event.id, a.mid);
    FailureIsSettled(s, a, o, a.pc.error);
  }

  lemma FailureTurnIsOk(cfg: Config, s: State, a: Attempt, o: Outcome, gone: set<Key>)
    requires UploadAttempt(cfg, s, a) && (a.pc.Failing? || a.pc.CheckingFailed?)
    ensures TurnOk(cfg, s, a, UploadedTurn(cfg, s, a, o, gone))
  {
    if a.pc.Failing? {
      if a.pc.error == Retryable && !a.final { CountingTurnIsOk(cfg, s, a, o); } else { FailingTurnIsOk(cfg, s, a, o); }
    }
  }

  lemma DeletedTurnIsOk(cfg: Config, s: State, a: Attempt, o: Outcome, gone: set<Key>)
    requires a.event.DeleteEvent? && PcOk(cfg, s, a) && EventOk(s, a.event) && RowOk(cfg, s, a.event.id)
    requires a.pc.Cleaning? || a.pc.MarkingCleaned?
    ensures TurnOk(cfg, s, a, DeletedTurn(s, a, o, gone))
  {
    StorageKeysAreAllKeysOfTheId(a.event.id);
  }

  /** A forwarded message is carried by a copy younger than the one that was delivered. */
  lemma ForwardingTurnIsOk(cfg: Config, s: State, t: nat, o: Outcome)
    requires cfg.Valid() && t in s.attempts && AttemptOk(cfg, s, t) && s.attempts[t].pc == Returned(Retryable)
    requires Fresh(s) && s.attempts[t].mid < s.next
    ensures TurnOk(cfg, s, s.attempts[t], SettlingTurn(cfg, s, t, s.attempts[t], o))
  {
    var a, turn := s.attempts[t], SettlingTurn(cfg, s, t, s.attempts[t], o);
    var s' := Affect(s, turn.effect);
    if o != Fail {
      assert s'.copies[s.next].mid == a.mid && a.copy + 1 <= s.next;
      assert Carried(s', a.mid, a.copy + 1);
    }
  }

  lemma SettlingTurnIsOk(cfg: Config, s: State, t: nat, o: Outcome)
    requires cfg.Valid() && t in s.attempts && AttemptOk(cfg, s, t)
    requires Settling(s.attempts[t].pc) && s.attempts[t].pc != Returned(Retryable)
    requires MessageOk(s, s.attempts[t].mid)
    ensures TurnOk(cfg, s, s.attempts[t], SettlingTurn(cfg, s, t, s.attempts[t], o))
  {
  }

  lemma UploadedTurnIsOk(cfg: Config, s: State, a: Attempt, o: Outcome, gone: set<Key>)
    requires UploadAttempt(cfg, s, a) && !Settling(a.pc)
    ensures TurnOk(cfg, s, a, UploadedTurn(cfg, s, a, o, gone))
  {
    match a.pc {
      case Storing(n, _, _) =>
        if n < |ThumbnailSizes()| { StoringTurnIsOk(cfg, s, a, o, gone); }
        else { CompletingTurnIsOk(cfg, s, a, o, gone); }
      case CheckingComplete(_) => RefusedTurnIsOk(cfg, s, a, o, gone);
      case RemovingThumbs(_) => RefusedTurnIsOk(cfg, s, a, o, gone);
      case Failing(_) => FailureTurnIsOk(cfg, s, a, o, gone);
      case CheckingFailed(_) => FailureTurnIsOk(cfg, s, a, o, gone);
      case Starting => StartingTurnIsOk(cfg, s, a, o, gone);
      case _ => GettingTurnIsOk(cfg, s, a, o, gone);
    }
  }

  /** What an attempt may take for granted about its message, its row and its original. */
  lemma AttemptKnows(cfg: Config, s: State, t: nat)
    requires Inv(cfg, s) && t in s.attempts
    ensures var a := s.attempts[t];
      && AttemptOk(cfg, s, t) && MessageOk(s, a.mid) && Fresh(s) && a.mid < s.next
      && EventOk(s, a.event) && RowOk(cfg, s, a.event.id)
      && (a.event.UploadEvent? ==> UploadAttempt(cfg, s, a))
  {
    assert MessageOk(s, s.attempts[t].mid);
  }

  lemma AttemptTurnIsOk(cfg: Config, s: State, t: nat, o: Outcome, gone: set<Key>)
    requires cfg.Valid() && t in s.attempts && AttemptOk(cfg, s, t) && Fresh(s)
    requires s.attempts[t].mid < s.next && MessageOk(s, s.attempts[t].mid)
    requires EventOk(s, s.attempts[t].event) && RowOk(cfg, s, s.attempts[t].event.id)
    requires s.attempts[t].event.UploadEvent? ==> UploadAttempt(cfg, s, s.attempts[t])
    ensures TurnOk(cfg, s, s.attempts[t], AttemptTurn(cfg, s, t, o, gone))
  {
    var a := s.attempts[t];
    if a.pc == Returned(Retryable) {
      ForwardingTurnIsOk(cfg, s, t, o);
    } else if Settling(a.pc) {
      SettlingTurnIsOk(cfg, s, t, o);
    } else if a.event.DeleteEvent? {
      DeletedTurnIsOk(cfg, s, a, o, gone);
    } else {
      UploadedTurnIsOk(cfg, s, a, o, gone);
    }
  }

  // Everything else

  lemma DeliveryBeginsInOrder(cfg: Config, s: State, a: Action)
    requires CopiesOk(s) && Delivers(s, a)
    ensures AttemptOk(cfg, Occur(cfg, s, a), s.next)
  {
    assert CopyOk(s, a.copy);
  }

  lemma PanicIsInOrder(cfg: Config, s: State, a: Action)
    requires a.Panic? && a.act in s.attempts && AttemptOk(cfg, s, a.act)
    ensures AttemptOk(cfg, Occur(cfg, s, a), a.act)
  {
  }

  lemma AttemptsStayOk(cfg: Config, s: State, a: Action, t: nat)
    requires CopiesOk(s) && AttemptsOk(cfg, s) && t in AttemptsThen(s, a)
    ensures AttemptOk(cfg, Occur(cfg, s, a), t) || (t in s.attempts && AttemptsThen(s, a)[t] == s.attempts[t])
  {
    if Delivers(s, a) && t == s.next { DeliveryBeginsInOrder(cfg, s, a); }
    else if a.Panic? && a.act == t { PanicIsInOrder(cfg, s, a); }
  }

  /** No activity is disturbed, and whatever begins begins in order. */
  lemma ActivitiesStayOk(cfg: Config, s: State, a: Action)
    requires CopiesOk(s) && AttemptsOk(cfg, s)
    ensures ActivitiesOk(cfg, s, Occur(cfg, s, a))
  {
    var s' := Occur(cfg, s, a);
    forall t | t in s'.attempts ensures AttemptOk(cfg, s', t) || (t in s.attempts && s'.attempts[t] == s.attempts[t]) {
      AttemptsStayOk(cfg, s, a, t);
    }
  }

  lemma OccurrenceIsGood(cfg: Config, s: State, a: Action)
    requires CopiesOk(s) && AttemptsOk(cfg, s)
    ensures Good(cfg, s, Occur(cfg, s, a))
  {
    ActivitiesStayOk(cfg, s, a);
    IdleStepIsGood(cfg, s, Occur(cfg, s, a));
  }

  lemma AttemptStepIsGood(cfg: Config, s: State, t: nat, o: Outcome, gone: set<Key>)
    requires cfg.Valid() && Inv(cfg, s) && t in s.attempts
    ensures Good(cfg, s, StepAttempt(cfg, s, t, o, gone))
  {
    AttemptKnows(cfg, s, t);
    AttemptTurnIsOk(cfg, s, t, o, gone);
    TurnIsGood(cfg, s, t, AttemptTurn(cfg, s, t, o, gone));
  }

  /** A step of an activity that is not there changes nothing. */
  predicate Enabled(s: State, a: Action) {
    match a
    case UploadStep(id, _) => id in s.uploads
    case DeleteStep(d, _, _) => d in s.deletes
    case AttemptStep(t, _, _) => t in s.attempts
    case PassStep(p, _, _) => p in s.passes
    case _ => true
  }

  lemma RequestStepIsGood(cfg: Config, s: State, a: Action)
    requires cfg.Valid() && Inv(cfg, s) && Enabled(s, a) && (a.UploadStep? || a.DeleteStep?)
    ensures Good(cfg, s, Step(cfg, s, a))
  {
    if a.UploadStep? { UploadStepIsGood(cfg, s, a.id, a.outcome); }
    else { DeleteStepIsGood(cfg, s, a.act, a.outcome, a.gone); }
  }

  lemma WorkerStepIsGood(cfg: Config, s: State, a: Action)
    requires cfg.Valid() && Inv(cfg, s) && Enabled(s, a) && (a.PassStep? || a.AttemptStep?)
    ensures Good(cfg, s, Step(cfg, s, a))
  {
    if a.PassStep? { PassStepIsGood(cfg, s, a.act, a.outcome, a.picked); }
    else { AttemptStepIsGood(cfg, s, a.act, a.outcome, a.gone); }
  }

  lemma StepIsGood(cfg: Config, s: State, a: Action)
    requires cfg.Valid() && Inv(cfg, s)
    ensures Good(cfg, s, Step(cfg, s, a))
  {
    if !Enabled(s, a) { IdleStepIsGood(cfg, s, s); }
    else if a.UploadStep? || a.DeleteStep? { RequestStepIsGood(cfg, s, a); }
    else if a.PassStep? || a.AttemptStep? { WorkerStepIsGood(cfg, s, a); }
    else { OccurrenceIsGood(cfg, s, a); }
  }

  /** Under every interleaving and every failure, each step evolves the state and keeps the invariant. */
  lemma StepKeepsInv(cfg: Config, s: State, a: Action)
    requires cfg.Valid() && Inv(cfg, s)
    ensures Evolves(s, Step(cfg, s, a)) && Inv(cfg, Step(cfg, s, a))
  {
    StepIsGood(cfg, s, a);
    GoodStepsKeepInv(cfg, s, Step(cfg, s, a));
  }
}
