/** Rows with files to remove do not move out of the reach of the query that finds them. */
module LifecycleWaiting {
  import opened Domain
  import opened Repository
  import opened Lifecycle
  import opened LifecycleInvariant
  import opened LifecycleEffects
  import opened LifecycleSteps
  import opened LifecycleTheorems
  import opened LifecycleLocality
  import opened LifecycleCleanup

  /** A closed row is touched again only by its own deletion. */
  predicate StandsStill(r: Row, r': Row) {
    && r'.Closed()
    && (r'.updatedAt == r.updatedAt || (r.Live() && r'.deletedAt == Some(r'.updatedAt)))
    && (r.deletedAt.Some? ==> r'.deletedAt == r.deletedAt)
  }

  predicate RowStandsStill(s: State, e: Effect, id: Id) {
    id in s.rows && id in RowsAfter(s, e) && StandsStill(s.rows[id], RowsAfter(s, e)[id])
  }

  lemma UploadLeavesClosed(s: State, u: Id, o: Outcome, id: Id)
    requires u in s.uploads && IsClosed(s, id)
    ensures RowStandsStill(s, UploadTurn(s, u, o).effect, id)
  {
  }

  lemma DeleteLeavesClosed(s: State, d: nat, o: Outcome, gone: set<Key>, id: Id)
    requires d in s.deletes && IsClosed(s, id)
    ensures RowStandsStill(s, DeleteTurn(s, d, o, gone).effect, id)
  {
  }

  lemma PassLeavesClosed(cfg: Config, s: State, p: nat, o: Outcome, picked: seq<Id>, id: Id)
    requires p in s.passes && IsClosed(s, id)
    ensures RowStandsStill(s, PassTurn(cfg, s, p, o, picked).effect, id)
  {
  }

  lemma UploadedLeavesClosed(cfg: Config, s: State, a: Attempt, o: Outcome, gone: set<Key>, id: Id)
    requires a.event.UploadEvent? && IsClosed(s, id) && (a.event.id == id ==> IsDeleted(s, id))
    ensures RowStandsStill(s, UploadedTurn(cfg, s, a, o, gone).effect, id)
  {
  }

  lemma OtherAttemptLeavesClosed(cfg: Config, s: State, t: nat, o: Outcome, gone: set<Key>, id: Id)
    requires cfg.Valid() && t in s.attempts && (Settling(s.attempts[t].pc) || s.attempts[t].event.DeleteEvent?)
    requires IsClosed(s, id)
    ensures RowStandsStill(s, AttemptTurn(cfg, s, t, o, gone).effect, id)
  {
  }

  lemma AttemptLeavesClosed(cfg: Config, s: State, t: nat, o: Outcome, gone: set<Key>, id: Id)
    requires cfg.Valid() && Inv(cfg, s) && t in s.attempts && IsClosed(s, id)
    ensures RowStandsStill(s, AttemptTurn(cfg, s, t, o, gone).effect, id)
  {
    if Settling(s.attempts[t].pc) || s.attempts[t].event.DeleteEvent? {
      OtherAttemptLeavesClosed(cfg, s, t, o, gone, id);
    } else {
      AttemptKnows(cfg, s, t);
      UploadedLeavesClosed(cfg, s, s.attempts[t], o, gone, id);
    }
  }

  lemma RequestLeavesClosed(cfg: Config, s: State, a: Action, id: Id)
    requires cfg.Valid() && IsClosed(s, id) && (a.UploadStep? || a.DeleteStep?)
    ensures RowStandsStill(s, EffectOf(cfg, s, a), id)
  {
    if a.UploadStep? { if a.id in s.uploads { UploadLeavesClosed(s, a.id, a.outcome, id); } }
    else { if a.act in s.deletes { DeleteLeavesClosed(s, a.act, a.outcome, a.gone, id); } }
  }

  lemma OtherStepLeavesClosed(cfg: Config, s: State, a: Action, id: Id)
    requires cfg.Valid() && IsClosed(s, id) && !a.AttemptStep?
    ensures RowStandsStill(s, EffectOf(cfg, s, a), id)
  {
    if a.UploadStep? || a.DeleteStep? { RequestLeavesClosed(cfg, s, a, id); }
    if a.PassStep? && a.act in s.passes { PassLeavesClosed(cfg, s, a.act, a.outcome, a.picked, id); }
  }

  lemma StepLeavesClosed(cfg: Config, s: State, a: Action, id: Id)
    requires cfg.Valid() && Inv(cfg, s) && IsClosed(s, id)
    ensures RowStandsStill(s, EffectOf(cfg, s, a), id)
  {
    if !a.AttemptStep? { OtherStepLeavesClosed(cfg, s, a, id); }
    else if a.act in s.attempts { AttemptLeavesClosed(cfg, s, a.act, a.outcome, a.gone, id); }
    else { assert EffectOf(cfg, s, a) == Nothing; }
  }

  lemma StandingStillIsTransitive(a: Row, b: Row, c: Row)
    requires StandsStill(a, b) && StandsStill(b, c)
    requires b.deletedAt.Some? ==> b.updatedAt == b.deletedAt.value
    ensures StandsStill(a, c)
  {
  }

  lemma {:induction false} ClosedRowsStandStill(cfg: Config, s: State, later: seq<Action>, id: Id)
    requires cfg.Valid() && Inv(cfg, s) && IsClosed(s, id)
    ensures id in Run(cfg, s, later).rows && StandsStill(s.rows[id], Run(cfg, s, later).rows[id])
    decreases |later|
  {
    if later != [] {
      var s1 := Step(cfg, s, later[0]);
      StepLeavesClosed(cfg, s, later[0], id);
      StepShowsEffect(cfg, s, later[0]);
      StepKeepsInv(cfg, s, later[0]);
      assert RowOk(cfg, s1, id);
      ClosedRowsStandStill(cfg, s1, later[1..], id);
      StandingStillIsTransitive(s.rows[id], s1.rows[id], Run(cfg, s1, later[1..]).rows[id]);
    }
  }

  /** From when on a closed row has been waiting: its deletion, or else the failure of its upload. */
  function WaitingSince(r: Row): nat {
    match r.deletedAt
    case Some(at) => at
    case None => r.updatedAt
  }

  /**
   * No cleanup is lost. From a closed row on, in every continuation: its files are marked as
   * removed, or every pass with a cutoff after the row was closed finds it. Nothing moves that
   * moment, except that an upload that failed may be deleted once.
   */
  lemma ClosedRowsAreFound(cfg: Config, s: State, later: seq<Action>, id: Id)
    requires cfg.Valid() && Reachable(cfg, s) && IsClosed(s, id)
    ensures var r, s' := s.rows[id], Run(cfg, s, later);
      && id in s'.rows
      && (s'.rows[id].filesRemovedAt.Some? ||
          forall before :: before > WaitingSince(s'.rows[id]) ==> Uncleaned(s'.rows[id], before))
      && (WaitingSince(s'.rows[id]) == WaitingSince(r) || (r.Live() && s'.rows[id].deletedAt.Some?))
  {
    ReachableInv(cfg, s);
    ClosedRowsStandStill(cfg, s, later, id);
    DeletionDatesRow(cfg, s, later, id);
  }

  lemma DeletionDatesRow(cfg: Config, s: State, later: seq<Action>, id: Id)
    requires cfg.Valid() && Inv(cfg, s) && id in s.rows && id in Run(cfg, s, later).rows
    ensures var r := s.rows[id]; r.deletedAt.Some? ==> r.updatedAt == r.deletedAt.value
    ensures var r := Run(cfg, s, later).rows[id]; r.deletedAt.Some? ==> r.updatedAt == r.deletedAt.value
  {
    assert RowOk(cfg, s, id);
    assert RowOk(cfg, Run(cfg, s, later), id) by { RunKeepsInv(cfg, s, later); }
  }

  /**
   * What a pass may touch at a moment: exactly the rows that have stood still for longer than the
   * configured time. A younger upload is neither failed nor published anew, and its files stay.
   */
  lemma YoungRowsAreLeftAlone(cfg: Config, r: Row, now: nat)
    ensures var before := Cutoff(cfg, now);
      && (Stuck(r, before) <==>
            r.Live() && r.upload == Uploaded && r.processing == Pending && r.updatedAt + cfg.stuckAfter < now)
      && (Uncleaned(r, before) <==> r.Closed() && r.filesRemovedAt.None? && r.updatedAt + cfg.stuckAfter < now)
      && (FailStaleUpload(r, before, now) != r <==>
            r.Live() && r.upload == Uploading && r.updatedAt + cfg.stuckAfter < now)
  {
  }
}
