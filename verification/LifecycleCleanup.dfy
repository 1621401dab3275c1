/**
 * Removal of files. An avatar's files stay removed once they are marked as removed, unless a
 * writer was under way when the avatar was closed.
 */
module LifecycleCleanup {
  import opened Domain
  import opened Repository
  import opened Lifecycle
  import opened LifecycleInvariant
  import opened LifecycleEffects
  import opened LifecycleSteps
  import opened LifecycleTheorems

  /** The attempt can go on to store a thumbnail, if nobody removes the original before it reads it. */
  predicate MayStore(cfg: Config, s: State, a: Attempt) {
    a.event.UploadEvent? &&
    match a.pc
    case Rendering => var next := AfterReading(cfg, s, a.event.id); next.Storing? && next.thumbs != map[]
    case Storing(n, thumbs, _) => exists m :: n <= m < |ThumbnailSizes()| && ThumbnailSizes()[m] in thumbs
    case _ => false
  }

  predicate PuttingFor(s: State, id: Id) {
    id in s.uploads && s.uploads[id].PuttingOriginal?
  }

  predicate NoWriters(cfg: Config, s: State, id: Id) {
    !PuttingFor(s, id) && forall t :: t in s.attempts && s.attempts[t].event.id == id ==>
      !MayStore(cfg, s, s.attempts[t])
  }

  predicate NoObjects(s: State, id: Id) {
    forall k :: k in s.objects ==> k.id != id
  }

  /** Nobody is left who could store a file of the closed avatar. */
  predicate Quiet(cfg: Config, s: State, id: Id) {
    IsClosed(s, id) && NoWriters(cfg, s, id)
  }

  predicate MarkingDelete(pc: DeletePc, id: Id) {
    pc == MarkingRemoved(id)
  }

  predicate MarkingAttempt(a: Attempt, id: Id) {
    a.event.id == id && a.pc.MarkingCleaned?
  }

  /** An activity has removed the files and is about to record it. */
  predicate Marking(s: State, id: Id) {
    || (exists d :: d in s.deletes && MarkingDelete(s.deletes[d], id))
    || (exists t :: t in s.attempts && MarkingAttempt(s.attempts[t], id))
  }

  /** The mark tells the truth, and so does whoever is about to set it. */
  predicate Tidy(cfg: Config, s: State, id: Id) {
    Quiet(cfg, s, id) && (Marking(s, id) || IsCleaned(s, id) ==> NoObjects(s, id))
  }

  predicate Stores(e: Effect, id: Id) {
    e.StoreObject? && e.key.id == id
  }

  lemma AttemptOnClosedIsFinished(cfg: Config, s: State, t: nat)
    requires Inv(cfg, s) && t in s.attempts && s.attempts[t].event.UploadEvent? && IsClosed(s, s.attempts[t].event.id)
    ensures IsFinished(s, s.attempts[t].event.id)
  {
    assert AttemptOk(cfg, s, t);
    assert MessageOk(s, s.attempts[t].mid);
  }

  // Nobody stores a file of a quiet avatar.

  lemma UploadTurnIsHarmless(cfg: Config, s: State, u: Id, o: Outcome, id: Id)
    requires u in s.uploads && Quiet(cfg, s, id)
    ensures var turn := UploadTurn(s, u, o);
      !Stores(turn.effect, id) && (u == id && turn.next.Some? ==> !turn.next.value.PuttingOriginal?)
  {
  }

  predicate Harmless(cfg: Config, s: State, a: Attempt, turn: Turn<AttemptPc>, id: Id) {
    && !Stores(turn.effect, id)
    && (turn.next.Some? && a.event.id == id ==> !MayStore(cfg, s, a.(pc := turn.next.value)))
  }

  lemma UploadedTurnIsHarmless(cfg: Config, s: State, a: Attempt, o: Outcome, gone: set<Key>, id: Id)
    requires a.event.UploadEvent?
    requires a.event.id == id ==> IsFinished(s, id) && !MayStore(cfg, s, a)
    ensures Harmless(cfg, s, a, UploadedTurn(cfg, s, a, o, gone), id)
  {
  }

  lemma OtherTurnIsHarmless(cfg: Config, s: State, t: nat, o: Outcome, gone: set<Key>, id: Id)
    requires cfg.Valid() && t in s.attempts
    requires Settling(s.attempts[t].pc) || s.attempts[t].event.DeleteEvent?
    ensures Harmless(cfg, s, s.attempts[t], AttemptTurn(cfg, s, t, o, gone), id)
  {
  }

  lemma AttemptTurnIsHarmless(cfg: Config, s: State, t: nat, o: Outcome, gone: set<Key>, id: Id)
    requires cfg.Valid() && Inv(cfg, s) && t in s.attempts && Quiet(cfg, s, id)
    ensures Harmless(cfg, s, s.attempts[t], AttemptTurn(cfg, s, t, o, gone), id)
  {
    var a := s.attempts[t];
    if Settling(a.pc) || a.event.DeleteEvent? {
      OtherTurnIsHarmless(cfg, s, t, o, gone, id);
    } else {
      if a.event.id == id { AttemptOnClosedIsFinished(cfg, s, t); }
      UploadedTurnIsHarmless(cfg, s, a, o, gone, id);
    }
  }

  /** The objects of the avatar only become fewer. */
  predicate FewerObjects(s: State, s': State, id: Id) {
    forall k :: k in s'.objects && k.id == id ==> k in s.objects && s'.objects[k] == s.objects[k]
  }

  lemma FewerObjectsMeanFewerWriters(cfg: Config, s: State, s': State, a: Attempt)
    requires FewerObjects(s, s', a.event.id)
    ensures MayStore(cfg, s', a) ==> MayStore(cfg, s, a)
  {
    assert Original(a.event.id).id == a.event.id;
  }

  predicate StaysQuiet(cfg: Config, s: State, s': State, id: Id) {
    FewerObjects(s, s', id) && NoWriters(cfg, s', id)
  }

  lemma TurnStaysQuiet(cfg: Config, s: State, t: nat, turn: Turn<AttemptPc>, id: Id)
    requires t in s.attempts && Quiet(cfg, s, id) && Harmless(cfg, s, s.attempts[t], turn, id)
    ensures StaysQuiet(cfg, s, TakeTurn(s, t, turn), id)
  {
  }

  lemma NobodyElseStores(cfg: Config, s: State, s': State, id: Id)
    requires NoWriters(cfg, s, id) && FewerObjects(s, s', id) && !PuttingFor(s', id)
    requires forall t :: t in s'.attempts ==>
               (t in s.attempts && s'.attempts[t] == s.attempts[t])
                 || !(s'.attempts[t].pc.Rendering? || s'.attempts[t].pc.Storing?)
    ensures StaysQuiet(cfg, s, s', id)
  {
    forall t | t in s'.attempts && s'.attempts[t].event.id == id ensures !MayStore(cfg, s', s'.attempts[t]) {
      FewerObjectsMeanFewerWriters(cfg, s, s', s'.attempts[t]);
    }
  }

  lemma UploadStaysQuiet(cfg: Config, s: State, u: Id, o: Outcome, id: Id)
    requires u in s.uploads && Quiet(cfg, s, id)
    ensures StaysQuiet(cfg, s, StepUpload(s, u, o), id)
  {
    UploadTurnIsHarmless(cfg, s, u, o, id);
    NobodyElseStores(cfg, s, StepUpload(s, u, o), id);
  }

  lemma DeleteStaysQuiet(cfg: Config, s: State, d: nat, o: Outcome, gone: set<Key>, id: Id)
    requires d in s.deletes && Quiet(cfg, s, id)
    ensures StaysQuiet(cfg, s, StepDelete(s, d, o, gone), id)
  {
    NobodyElseStores(cfg, s, StepDelete(s, d, o, gone), id);
  }

  lemma PassStaysQuiet(cfg: Config, s: State, p: nat, o: Outcome, picked: seq<Id>, id: Id)
    requires p in s.passes && Quiet(cfg, s, id)
    ensures StaysQuiet(cfg, s, StepPass(cfg, s, p, o, picked), id)
  {
    NobodyElseStores(cfg, s, StepPass(cfg, s, p, o, picked), id);
  }

  lemma OccurrenceStaysQuiet(cfg: Config, s: State, a: Action, id: Id)
    requires Quiet(cfg, s, id)
    ensures StaysQuiet(cfg, s, Occur(cfg, s, a), id)
  {
    NobodyElseStores(cfg, s, Occur(cfg, s, a), id);
  }

  lemma AttemptStaysQuiet(cfg: Config, s: State, t: nat, o: Outcome, gone: set<Key>, id: Id)
    requires cfg.Valid() && Inv(cfg, s) && Quiet(cfg, s, id) && t in s.attempts
    ensures StaysQuiet(cfg, s, StepAttempt(cfg, s, t, o, gone), id)
  {
    AttemptTurnIsHarmless(cfg, s, t, o, gone, id);
    TurnStaysQuiet(cfg, s, t, AttemptTurn(cfg, s, t, o, gone), id);
  }

  lemma RequestStaysQuiet(cfg: Config, s: State, a: Action, id: Id)
    requires cfg.Valid() && Quiet(cfg, s, id) && (a.UploadStep? || a.DeleteStep?) && Enabled(s, a)
    ensures StaysQuiet(cfg, s, Step(cfg, s, a), id)
  {
    if a.UploadStep? { UploadStaysQuiet(cfg, s, a.id, a.outcome, id); }
    else { DeleteStaysQuiet(cfg, s, a.act, a.outcome, a.gone, id); }
  }

  lemma OtherStepStaysQuiet(cfg: Config, s: State, a: Action, id: Id)
    requires cfg.Valid() && Quiet(cfg, s, id) && Enabled(s, a) && !a.AttemptStep?
    ensures StaysQuiet(cfg, s, Step(cfg, s, a), id)
  {
    if a.UploadStep? || a.DeleteStep? { RequestStaysQuiet(cfg, s, a, id); }
    else if a.PassStep? { PassStaysQuiet(cfg, s, a.act, a.outcome, a.picked, id); }
    else { OccurrenceStaysQuiet(cfg, s, a, id); }
  }

  lemma StepStaysQuiet(cfg: Config, s: State, a: Action, id: Id)
    requires cfg.Valid() && Inv(cfg, s) && Quiet(cfg, s, id)
    ensures StaysQuiet(cfg, s, Step(cfg, s, a), id)
  {
    if !Enabled(s, a) { assert Step(cfg, s, a) == s; }
    else if a.AttemptStep? { AttemptStaysQuiet(cfg, s, a.act, a.outcome, a.gone, id); }
    else { OtherStepStaysQuiet(cfg, s, a, id); }
  }

  // Only an activity that has removed every file sets the mark.

  /** The effect sets the mark of the avatar. */
  predicate Marks(s: State, e: Effect, id: Id) {
    !IsCleaned(s, id) && id in RowsAfter(s, e) && RowsAfter(s, e)[id].filesRemovedAt.Some?
  }

  ghost predicate Clears(e: Effect, id: Id) {
    e.RemoveObjects? && forall k: Key :: k.id == id ==> k in e.keys
  }

  lemma UploadTurnNeverMarks(s: State, u: Id, o: Outcome, id: Id)
    requires u in s.uploads
    ensures !Marks(s, UploadTurn(s, u, o).effect, id)
  {
  }

  lemma PassTurnNeverMarks(cfg: Config, s: State, p: nat, o: Outcome, picked: seq<Id>, id: Id)
    requires p in s.passes
    ensures !Marks(s, PassTurn(cfg, s, p, o, picked).effect, id)
  {
  }

  lemma DeleteTurnEarnsMark(s: State, d: nat, o: Outcome, gone: set<Key>, id: Id)
    requires d in s.deletes
    ensures var turn := DeleteTurn(s, d, o, gone);
      && (Marks(s, turn.effect, id) ==> MarkingDelete(s.deletes[d], id))
      && (turn.next.Some? && MarkingDelete(turn.next.value, id) ==>
           s.deletes[d] == DeletingFiles(id) && Clears(turn.effect, id))
  {
    StorageKeysAreAllKeysOfTheId(id);
  }

  ghost predicate Earns(s: State, a: Attempt, turn: Turn<AttemptPc>, id: Id) {
    && (Marks(s, turn.effect, id) ==> MarkingAttempt(a, id))
    && (turn.next.Some? && MarkingAttempt(a.(pc := turn.next.value), id) ==>
          MarkingAttempt(a, id) || (a.event.DeleteEvent? && Clears(turn.effect, id)))
  }

  lemma UploadedTurnEarnsMark(cfg: Config, s: State, a: Attempt, o: Outcome, gone: set<Key>, id: Id)
    requires a.event.UploadEvent?
    ensures Earns(s, a, UploadedTurn(cfg, s, a, o, gone), id)
  {
  }

  lemma DeletedTurnEarnsMark(s: State, a: Attempt, o: Outcome, gone: set<Key>, id: Id)
    requires a.event.DeleteEvent? && a.event.keys == StorageKeys(a.event.id)
    ensures Earns(s, a, DeletedTurn(s, a, o, gone), id)
  {
    StorageKeysAreAllKeysOfTheId(id);
  }

  lemma AttemptCarriesAllKeys(cfg: Config, s: State, t: nat)
    requires Inv(cfg, s) && t in s.attempts && s.attempts[t].event.DeleteEvent?
    ensures s.attempts[t].event.keys == StorageKeys(s.attempts[t].event.id) && IsClosed(s, s.attempts[t].event.id)
  {
    assert AttemptOk(cfg, s, t);
    assert MessageOk(s, s.attempts[t].mid);
  }

  lemma SettlingTurnEarnsMark(cfg: Config, s: State, t: nat, a: Attempt, o: Outcome, id: Id)
    requires cfg.Valid() && Settling(a.pc)
    ensures Earns(s, a, SettlingTurn(cfg, s, t, a, o), id)
  {
  }

  lemma AttemptTurnEarnsMark(cfg: Config, s: State, t: nat, o: Outcome, gone: set<Key>, id: Id)
    requires cfg.Valid() && Inv(cfg, s) && t in s.attempts
    ensures Earns(s, s.attempts[t], AttemptTurn(cfg, s, t, o, gone), id)
  {
    var a := s.attempts[t];
    if Settling(a.pc) {
      SettlingTurnEarnsMark(cfg, s, t, a, o, id);
    } else if a.event.UploadEvent? {
      UploadedTurnEarnsMark(cfg, s, a, o, gone, id);
    } else {
      AttemptCarriesAllKeys(cfg, s, t);
      DeletedTurnEarnsMark(s, a, o, gone, id);
    }
  }

  /** Where a mark, or an activity about to set it, comes from. */
  ghost predicate Earned(s: State, s': State, id: Id) {
    && (IsCleaned(s', id) ==> IsCleaned(s, id) || Marking(s, id))
    && (Marking(s', id) ==> Marking(s, id) || (IsClosed(s, id) && NoObjects(s', id)))
  }

  lemma DeleteStepEarnsMark(s: State, d: nat, o: Outcome, gone: set<Key>, id: Id)
    requires d in s.deletes && DeleteOk(s, d)
    ensures Earned(s, StepDelete(s, d, o, gone), id)
  {
    DeleteTurnEarnsMark(s, d, o, gone, id);
  }

  lemma TurnEarnsMark(s: State, t: nat, turn: Turn<AttemptPc>, id: Id)
    requires t in s.attempts && Earns(s, s.attempts[t], turn, id)
    requires s.attempts[t].event.DeleteEvent? ==> IsClosed(s, s.attempts[t].event.id)
    ensures Earned(s, TakeTurn(s, t, turn), id)
  {
  }

  lemma RequestEarnsMark(cfg: Config, s: State, a: Action, id: Id)
    requires cfg.Valid() && (a.UploadStep? || a.PassStep?)
    ensures Earned(s, Step(cfg, s, a), id)
  {
    if a.UploadStep? && a.id in s.uploads { UploadTurnNeverMarks(s, a.id, a.outcome, id); }
    if a.PassStep? && a.act in s.passes { PassTurnNeverMarks(cfg, s, a.act, a.outcome, a.picked, id); }
  }

  lemma OccurrenceEarnsMark(cfg: Config, s: State, a: Action, id: Id)
    ensures Earned(s, Occur(cfg, s, a), id)
  {
    var s' := Occur(cfg, s, a);
    assert forall t :: t in s'.attempts && MarkingAttempt(s'.attempts[t], id) ==>
      t in s.attempts && MarkingAttempt(s.attempts[t], id);
  }

  lemma StepEarnsMark(cfg: Config, s: State, a: Action, id: Id)
    requires cfg.Valid() && Inv(cfg, s)
    ensures Earned(s, Step(cfg, s, a), id)
  {
    if a.AttemptStep? {
      if a.act in s.attempts {
        AttemptTurnEarnsMark(cfg, s, a.act, a.outcome, a.gone, id);
        if s.attempts[a.act].event.DeleteEvent? { AttemptCarriesAllKeys(cfg, s, a.act); }
        TurnEarnsMark(s, a.act, AttemptTurn(cfg, s, a.act, a.outcome, a.gone), id);
      }
    } else if a.DeleteStep? {
      if a.act in s.deletes { DeleteStepEarnsMark(s, a.act, a.outcome, a.gone, id); }
    } else if a.UploadStep? || a.PassStep? {
      RequestEarnsMark(cfg, s, a, id);
    } else {
      OccurrenceEarnsMark(cfg, s, a, id);
    }
  }

  lemma {:induction false} RunStaysTidy(cfg: Config, s: State, actions: seq<Action>, id: Id)
    requires cfg.Valid() && Inv(cfg, s) && Tidy(cfg, s, id)
    ensures Tidy(cfg, Run(cfg, s, actions), id) && FewerObjects(s, Run(cfg, s, actions), id)
    decreases |actions|
  {
    if actions != [] {
      StepIsTidy(cfg, s, actions[0], id);
      StepKeepsInv(cfg, s, actions[0]);
      RunStaysTidy(cfg, Step(cfg, s, actions[0]), actions[1..], id);
    }
  }

  lemma StepIsTidy(cfg: Config, s: State, a: Action, id: Id)
    requires cfg.Valid() && Inv(cfg, s) && Tidy(cfg, s, id)
    ensures Tidy(cfg, Step(cfg, s, a), id) && FewerObjects(s, Step(cfg, s, a), id)
  {
    StepStaysQuiet(cfg, s, a, id);
    StepEarnsMark(cfg, s, a, id);
    StepStaysClosed(cfg, s, a, id);
  }

  lemma StepStaysClosed(cfg: Config, s: State, a: Action, id: Id)
    requires cfg.Valid() && Inv(cfg, s) && IsClosed(s, id)
    ensures IsClosed(Step(cfg, s, a), id)
  {
    StepKeepsInv(cfg, s, a);
  }

  /** Nobody marks the files of an avatar that is not closed. */
  lemma MarkingDeleteIsOnClosed(s: State, d: nat, id: Id)
    requires DeletesOk(s) && d in s.deletes && MarkingDelete(s.deletes[d], id)
    ensures IsClosed(s, id)
  {
    assert DeleteOk(s, d);
  }

  lemma MarkingAttemptIsOnClosed(cfg: Config, s: State, t: nat, id: Id)
    requires Inv(cfg, s) && t in s.attempts && MarkingAttempt(s.attempts[t], id)
    ensures IsClosed(s, id)
  {
    assert AttemptOk(cfg, s, t);
    AttemptCarriesAllKeys(cfg, s, t);
  }

  lemma CleanedIsClosed(cfg: Config, s: State, id: Id)
    requires RowsOk(cfg, s) && IsCleaned(s, id)
    ensures IsClosed(s, id)
  {
    assert RowOk(cfg, s, id);
  }

  lemma OpenAvatarIsUnmarked(cfg: Config, s: State, id: Id)
    requires Inv(cfg, s) && !IsClosed(s, id)
    ensures !Marking(s, id) && !IsCleaned(s, id)
  {
    if d :| d in s.deletes && MarkingDelete(s.deletes[d], id) { MarkingDeleteIsOnClosed(s, d, id); }
    if t :| t in s.attempts && MarkingAttempt(s.attempts[t], id) { MarkingAttemptIsOnClosed(cfg, s, t, id); }
    if IsCleaned(s, id) { CleanedIsClosed(cfg, s, id); }
  }

  /**
   * Cleanup is final: if no upload and no processing attempt of the avatar was under way when it
   * was closed, then whenever its files are marked as removed none exists, and none ever will;
   * until then files may only disappear.
   */
  lemma CleanupIsFinal(cfg: Config, s: State, closing: Action, later: seq<Action>, id: Id)
    requires cfg.Valid() && Reachable(cfg, s) && !IsClosed(s, id)
    requires IsClosed(Step(cfg, s, closing), id) && NoWriters(cfg, Step(cfg, s, closing), id)
    ensures var s' := Run(cfg, Step(cfg, s, closing), later);
      && FewerObjects(Step(cfg, s, closing), s', id)
      && (IsCleaned(s', id) ==> NoObjects(s', id))
  {
    ReachableInv(cfg, s);
    OpenAvatarIsUnmarked(cfg, s, id);
    StepEarnsMark(cfg, s, closing, id);
    StepKeepsInv(cfg, s, closing);
    RunStaysTidy(cfg, Step(cfg, s, closing), later, id);
  }
}
