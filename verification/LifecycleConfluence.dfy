/**
 * Duplicate deliveries. As long as the calls of the deliveries themselves succeed, the outcome of
 * processing is a function of the uploaded bytes, however many deliveries of an upload event run,
 * crash, come back or overlap.
 */
module LifecycleConfluence {
  import opened Domain
  import opened Repository
  import opened Lifecycle
  import opened LifecycleInvariant
  import opened LifecycleEffects
  import opened LifecycleSteps
  import opened LifecycleTheorems
  import opened LifecycleLocality

  /** Calls of deliveries succeed; everything else may fail, and workers may still be killed. */
  predicate FaultFree(a: Action) {
    (a.AttemptStep? ==> a.outcome == Ok) && !a.Panic?
  }

  predicate AllFaultFree(actions: seq<Action>) {
    forall i :: 0 <= i < |actions| ==> FaultFree(actions[i])
  }

  predicate Unrenderable(cfg: Config, s: State, id: Id) {
    id in s.born && Rendered(cfg, s.born[id]).None?
  }

  /** There is a reason for failing that no repetition could remove. */
  predicate PcJustified(cfg: Config, s: State, id: Id, pc: AttemptPc) {
    match pc
    case Failing(e) => e == NonRetryable && (IsDeleted(s, id) || Unrenderable(cfg, s, id))
    case CheckingFailed(e) => e == NonRetryable
    case Returned(r) => r != Retryable
    case AckingForwarded => false
    case Rejecting => false
    case _ => true
  }

  predicate RowJustified(cfg: Config, s: State, id: Id, r: Row) {
    r.processing == ProcessingFailed ==> Unrenderable(cfg, s, id)
  }

  predicate Justified(cfg: Config, s: State) {
    && s.dropped == {}
    && (forall id :: id in s.rows ==> RowJustified(cfg, s, id, s.rows[id]))
    && (forall t :: t in s.attempts ==> PcJustified(cfg, s, s.attempts[t].event.id, s.attempts[t].pc))
  }

  predicate EffectJustified(cfg: Config, s: State, e: Effect) {
    && !e.NoteDropped?
    && (e.WriteRow? ==> RowJustified(cfg, s, e.id, e.row))
  }

  lemma UploadedTurnIsJustified(cfg: Config, s: State, a: Attempt, gone: set<Key>)
    requires UploadAttempt(cfg, s, a) && !Settling(a.pc) && PcJustified(cfg, s, a.event.id, a.pc)
    requires RowJustified(cfg, s, a.event.id, s.rows[a.event.id])
    ensures var turn := UploadedTurn(cfg, s, a, Ok, gone);
      && EffectJustified(cfg, s, turn.effect)
      && (turn.next.Some? ==> PcJustified(cfg, s, a.event.id, turn.next.value))
  {
  }

  lemma OtherTurnIsJustified(cfg: Config, s: State, t: nat, gone: set<Key>)
    requires cfg.Valid() && t in s.attempts && PcJustified(cfg, s, s.attempts[t].event.id, s.attempts[t].pc)
    requires s.attempts[t].event.id in s.rows ==>
               RowJustified(cfg, s, s.attempts[t].event.id, s.rows[s.attempts[t].event.id])
    requires Settling(s.attempts[t].pc) || (s.attempts[t].event.DeleteEvent? && PcOk(cfg, s, s.attempts[t]))
    ensures var turn := AttemptTurn(cfg, s, t, Ok, gone);
      && EffectJustified(cfg, s, turn.effect)
      && (turn.next.Some? ==> PcJustified(cfg, s, s.attempts[t].event.id, turn.next.value))
  {
  }

  lemma AttemptTurnIsJustified(cfg: Config, s: State, t: nat, gone: set<Key>)
    requires cfg.Valid() && Inv(cfg, s) && Justified(cfg, s) && t in s.attempts
    ensures var turn := AttemptTurn(cfg, s, t, Ok, gone);
      && EffectJustified(cfg, s, turn.effect)
      && (turn.next.Some? ==> PcJustified(cfg, s, s.attempts[t].event.id, turn.next.value))
  {
    AttemptKnows(cfg, s, t);
    if Settling(s.attempts[t].pc) || s.attempts[t].event.DeleteEvent? { OtherTurnIsJustified(cfg, s, t, gone); }
    else { UploadedTurnIsJustified(cfg, s, s.attempts[t], gone); }
  }

  lemma RequestEffectIsJustified(cfg: Config, s: State, a: Action)
    requires cfg.Valid() && !a.AttemptStep?
    requires forall id :: id in s.rows ==> RowJustified(cfg, s, id, s.rows[id])
    ensures EffectJustified(cfg, s, EffectOf(cfg, s, a))
  {
  }

  lemma PcStaysJustified(cfg: Config, s: State, s': State, id: Id, pc: AttemptPc)
    requires Evolves(s, s') && PcJustified(cfg, s, id, pc)
    ensures PcJustified(cfg, s', id, pc)
  {
  }

  lemma RowsStayJustified(cfg: Config, s: State, s': State, e: Effect)
    requires Evolves(s, s') && s'.rows == RowsAfter(s, e) && EffectJustified(cfg, s, e)
    requires forall id :: id in s.rows ==> RowJustified(cfg, s, id, s.rows[id])
    requires e.InsertRow? ==> e.row.processing == Pending
    ensures forall id :: id in s'.rows ==> RowJustified(cfg, s', id, s'.rows[id])
  {
  }

  /** Attempts of the second state are new, or continue old ones at a justified point. */
  predicate AttemptsContinue(cfg: Config, s: State, s': State) {
    forall t :: t in s'.attempts ==>
      PcJustified(cfg, s, s'.attempts[t].event.id, s'.attempts[t].pc)
  }

  lemma OtherAttemptsContinue(cfg: Config, s: State, a: Action)
    requires cfg.Valid() && !a.AttemptStep? && !a.Panic? && Justified(cfg, s)
    ensures AttemptsContinue(cfg, s, Step(cfg, s, a))
  {
    if !a.UploadStep? && !a.DeleteStep? && !a.PassStep? { OccurringAttemptsContinue(cfg, s, a); }
  }

  lemma OccurringAttemptsContinue(cfg: Config, s: State, a: Action)
    requires !a.Panic? && Justified(cfg, s)
    ensures AttemptsContinue(cfg, s, Occur(cfg, s, a))
  {
  }

  lemma InsertsArePending(cfg: Config, s: State, a: Action)
    requires cfg.Valid()
    ensures EffectOf(cfg, s, a).InsertRow? ==> EffectOf(cfg, s, a).row.processing == Pending
  {
  }

  lemma AttemptStepContinues(cfg: Config, s: State, t: nat, turn: Turn<AttemptPc>)
    requires t in s.attempts && Justified(cfg, s)
    requires turn.next.Some? ==> PcJustified(cfg, s, s.attempts[t].event.id, turn.next.value)
    ensures AttemptsContinue(cfg, s, TakeTurn(s, t, turn))
  {
  }

  lemma AttemptEffectIsJustified(cfg: Config, s: State, t: nat, gone: set<Key>)
    requires cfg.Valid() && Inv(cfg, s) && Justified(cfg, s) && t in s.attempts
    ensures EffectJustified(cfg, s, AttemptTurn(cfg, s, t, Ok, gone).effect)
    ensures AttemptsContinue(cfg, s, StepAttempt(cfg, s, t, Ok, gone))
  {
    AttemptTurnIsJustified(cfg, s, t, gone);
    AttemptStepContinues(cfg, s, t, AttemptTurn(cfg, s, t, Ok, gone));
  }

  lemma EffectIsJustified(cfg: Config, s: State, a: Action)
    requires cfg.Valid() && Inv(cfg, s) && Justified(cfg, s) && FaultFree(a)
    ensures EffectJustified(cfg, s, EffectOf(cfg, s, a))
  {
    if !a.AttemptStep? { RequestEffectIsJustified(cfg, s, a); }
    else if a.act in s.attempts { AttemptEffectIsJustified(cfg, s, a.act, a.gone); }
  }

  lemma IdleAttemptsContinue(cfg: Config, s: State)
    requires Justified(cfg, s)
    ensures AttemptsContinue(cfg, s, s)
  {
  }

  lemma AllAttemptsContinue(cfg: Config, s: State, a: Action)
    requires cfg.Valid() && Inv(cfg, s) && Justified(cfg, s) && FaultFree(a)
    ensures AttemptsContinue(cfg, s, Step(cfg, s, a))
  {
    if !Enabled(s, a) { IdleAttemptsContinue(cfg, s); }
    else if !a.AttemptStep? { OtherAttemptsContinue(cfg, s, a); }
    else { AttemptEffectIsJustified(cfg, s, a.act, a.gone); }
  }

  lemma JustificationLasts(cfg: Config, s: State, s': State, e: Effect)
    requires Evolves(s, s') && Justified(cfg, s) && Shows(s, s', e)
    requires EffectJustified(cfg, s, e) && AttemptsContinue(cfg, s, s')
    requires e.InsertRow? ==> e.row.processing == Pending
    ensures Justified(cfg, s')
  {
    RowsStayJustified(cfg, s, s', e);
    forall t | t in s'.attempts ensures PcJustified(cfg, s', s'.attempts[t].event.id, s'.attempts[t].pc) {
      PcStaysJustified(cfg, s, s', s'.attempts[t].event.id, s'.attempts[t].pc);
    }
  }

  lemma StepStaysJustified(cfg: Config, s: State, a: Action)
    requires cfg.Valid() && Inv(cfg, s) && Justified(cfg, s) && FaultFree(a)
    ensures Justified(cfg, Step(cfg, s, a))
  {
    EffectIsJustified(cfg, s, a);
    AllAttemptsContinue(cfg, s, a);
    StepKeepsInv(cfg, s, a);
    StepShowsEffect(cfg, s, a);
    InsertsArePending(cfg, s, a);
    JustificationLasts(cfg, s, Step(cfg, s, a), EffectOf(cfg, s, a));
  }

  lemma {:induction false} RunStaysJustified(cfg: Config, s: State, actions: seq<Action>)
    requires cfg.Valid() && Inv(cfg, s) && Justified(cfg, s) && AllFaultFree(actions)
    ensures Justified(cfg, Run(cfg, s, actions))
    decreases |actions|
  {
    if actions != [] {
      StepStaysJustified(cfg, s, actions[0]);
      StepKeepsInv(cfg, s, actions[0]);
      RunStaysJustified(cfg, Step(cfg, s, actions[0]), actions[1..]);
    }
  }

  /** The system after a run in which the deliveries' own calls succeed. */
  ghost predicate FaultFreeReachable(cfg: Config, s: State)
    requires cfg.Valid()
  {
    exists now, actions :: s == Run(cfg, Initial(now), actions) && AllFaultFree(actions)
  }

  /** Some delivery of the avatar's upload event has been acknowledged. */
  ghost predicate Handled(s: State, id: Id) {
    exists m :: m in s.settled && Announced(s.sent, m, UploadEvent(id))
  }

  lemma HandledIsFinished(cfg: Config, s: State, id: Id)
    requires MessagesOk(s) && Handled(s, id) && s.dropped == {}
    ensures IsFinished(s, id)
  {
    var m :| m in s.settled && Announced(s.sent, m, UploadEvent(id));
    assert MessageOk(s, m);
  }

  lemma FaultFreeIsJustified(cfg: Config, s: State, id: Id)
    requires cfg.Valid() && FaultFreeReachable(cfg, s) && id in s.rows
    ensures MessagesOk(s) && ObjectsOk(cfg, s) && RowOk(cfg, s, id) && RowJustified(cfg, s, id, s.rows[id])
    ensures s.dropped == {}
  {
    var now, actions :| s == Run(cfg, Initial(now), actions) && AllFaultFree(actions);
    RunKeepsInv(cfg, Initial(now), actions);
    RunStaysJustified(cfg, Initial(now), actions);
  }

  /**
   * Confluence: once any delivery of a live avatar's upload event has been acknowledged, status,
   * recorded keys and stored objects are a function of the uploaded bytes alone.
   */
  lemma DeliveriesConverge(cfg: Config, s: State, id: Id)
    requires cfg.Valid() && FaultFreeReachable(cfg, s)
    requires id in s.rows && s.rows[id].Live() && Handled(s, id)
    ensures id in s.born
    ensures match if |s.born[id]| <= cfg.maxOriginalBytes then cfg.render(s.born[id]) else None
            case Some(thumbs) => s.rows[id].processing == Completed
              && s.rows[id].thumbs == (map z | z in thumbs :: Thumb(id, z))
            case None => s.rows[id].processing == ProcessingFailed && s.rows[id].thumbs == map[]
    ensures forall k: Key :: k.id == id ==>
              (if k in s.objects then Some(s.objects[k]) else None) == BytesOf(cfg, k, s.born[id])
  {
    FaultFreeIsJustified(cfg, s, id);
    HandledIsFinished(cfg, s, id);
    FinishedRowIsDetermined(cfg, s, id);
    forall k: Key | k.id == id
      ensures (if k in s.objects then Some(s.objects[k]) else None) == BytesOf(cfg, k, s.born[id]) {
      assert k in s.objects ==> ObjectOk(cfg, s, k);
    }
  }

  lemma FinishedRowIsDetermined(cfg: Config, s: State, id: Id)
    requires id in s.rows && s.rows[id].Live() && IsFinished(s, id)
    requires RowOk(cfg, s, id) && RowJustified(cfg, s, id, s.rows[id])
    ensures Original(id) in s.objects
    ensures match Rendered(cfg, s.born[id])
            case Some(thumbs) =>
              && s.rows[id].processing == Completed && s.rows[id].thumbs == (map z | z in thumbs :: Thumb(id, z))
              && forall z :: z in thumbs ==> Thumb(id, z) in s.objects
            case None => s.rows[id].processing == ProcessingFailed && s.rows[id].thumbs == map[]
  {
    AllSizes();
    if s.rows[id].processing == Completed {
      var thumbs := Rendered(cfg, s.born[id]).value;
      assert KeysUpTo(id, thumbs, |ThumbnailSizes()|) == map z | z in thumbs :: Thumb(id, z);
    }
  }

  /** Two runs that processed the same upload, with any numbers of deliveries, agree on its outcome. */
  lemma DuplicatesMakeNoDifference(cfg: Config, s: State, s': State, id: Id)
    requires cfg.Valid() && FaultFreeReachable(cfg, s) && FaultFreeReachable(cfg, s')
    requires id in s.rows && s.rows[id].Live() && Handled(s, id)
    requires id in s'.rows && s'.rows[id].Live() && Handled(s', id)
    requires id in s.born && id in s'.born && s.born[id] == s'.born[id]
    ensures s.rows[id].processing == s'.rows[id].processing && s.rows[id].thumbs == s'.rows[id].thumbs
    ensures forall k: Key :: k.id == id ==>
              (k in s.objects <==> k in s'.objects) && (k in s.objects ==> s.objects[k] == s'.objects[k])
  {
    DeliveriesConverge(cfg, s, id);
    DeliveriesConverge(cfg, s', id);
    forall k: Key | k.id == id
      ensures (k in s.objects <==> k in s'.objects) && (k in s.objects ==> s.objects[k] == s'.objects[k])
    {
      assert (if k in s.objects then Some(s.objects[k]) else None) ==
        (if k in s'.objects then Some(s'.objects[k]) else None);
    }
  }
}
