/** The exact condition under which the files of a closed avatar stay removed. */
module LifecycleOrphans {
  import opened Domain
  import opened Repository
  import opened Lifecycle
  import opened LifecycleInvariant
  import opened LifecycleEffects
  import opened LifecycleSteps
  import opened LifecycleTheorems
  import opened LifecycleCleanup

  datatype Writer = ByUpload | ByAttempt(t: nat)

  /** The next successful call of this writer stores a file of the avatar. */
  predicate Poised(s: State, id: Id, w: Writer) {
    match w
    case ByUpload => PuttingFor(s, id)
    case ByAttempt(t) =>
      && t in s.attempts && s.attempts[t].event == UploadEvent(id)
      && s.attempts[t].pc.Storing? && s.attempts[t].pc.next < |ThumbnailSizes()|
      && ThumbnailSizes()[s.attempts[t].pc.next] in s.attempts[t].pc.thumbs
  }

  /** A writer that may store gets ready to do so, whatever else is going on. */
  lemma {:induction false} WriterGetsPoised(cfg: Config, from: State, s: State, id: Id, t: nat) returns (s': State)
    requires cfg.Valid() && Inv(cfg, s) && Leads(cfg, from, s) && IsClosed(s, id)
    requires t in s.attempts && s.attempts[t].event == UploadEvent(id) && s.attempts[t].pc.Storing?
    requires MayStore(cfg, s, s.attempts[t])
    ensures Inv(cfg, s') && Leads(cfg, from, s') && IsClosed(s', id) && Poised(s', id, ByAttempt(t))
    decreases |ThumbnailSizes()| - s.attempts[t].pc.next
  {
    var pc := s.attempts[t].pc;
    if ThumbnailSizes()[pc.next] in pc.thumbs {
      s' := s;
    } else {
      var step := AttemptStep(t, Ok, {});
      ThenStep(cfg, from, s, step);
      StepKeepsInv(cfg, s, step);
      SkipsSize(cfg, s, t);
      s' := WriterGetsPoised(cfg, from, Step(cfg, s, step), id, t);
    }
  }

  lemma SkipsSize(cfg: Config, s: State, t: nat)
    requires cfg.Valid() && t in s.attempts && s.attempts[t].pc.Storing? && MayStore(cfg, s, s.attempts[t])
    requires ThumbnailSizes()[s.attempts[t].pc.next] !in s.attempts[t].pc.thumbs
    ensures var s' := Step(cfg, s, AttemptStep(t, Ok, {}));
      && s'.rows == s.rows && t in s'.attempts && s'.attempts[t].event == s.attempts[t].event
      && s'.attempts[t].pc.Storing? && s'.attempts[t].pc.next == s.attempts[t].pc.next + 1
      && MayStore(cfg, s', s'.attempts[t])
  {
  }

  lemma ReadsOriginal(cfg: Config, s: State, t: nat)
    requires cfg.Valid() && t in s.attempts && s.attempts[t].pc.Rendering? && MayStore(cfg, s, s.attempts[t])
    ensures var s' := Step(cfg, s, AttemptStep(t, Ok, {}));
      && s'.rows == s.rows && t in s'.attempts && s'.attempts[t].event == s.attempts[t].event
      && s'.attempts[t].pc.Storing? && MayStore(cfg, s', s'.attempts[t])
  {
    AllSizes();
    var thumbs := AfterReading(cfg, s, s.attempts[t].event.id).thumbs;
    var z :| z in thumbs;
    assert z == ThumbnailSizes()[if z == Small then 0 else 1];
  }

  /** Nothing the writer depends on has changed. */
  predicate Undisturbed(s: State, s': State) {
    && s'.uploads == s.uploads
    && s.next <= s'.next
    && (forall t :: t in s.attempts ==> t in s'.attempts && s'.attempts[t] == s.attempts[t])
    && (forall t :: t in s'.attempts && t !in s.attempts ==> t < s'.next)
  }

  lemma PassStepAt(cfg: Config, from: State, s: State, p: nat, o: Outcome, picked: seq<Id>, next: PassPc)
    returns (s': State)
    requires cfg.Valid() && Leads(cfg, from, s) && p in s.passes
    requires PassTurn(cfg, s, p, o, picked) == Turn(Nothing, Some(next))
    ensures Leads(cfg, from, s') && s' == s.(passes := s.passes[p := next])
  {
    ThenStep(cfg, from, s, PassStep(p, o, picked));
    s' := StepPass(cfg, s, p, o, picked);
  }

  /** A pass that finds the closed avatar publishes the removal of its files. */
  lemma PassFinds(cfg: Config, from: State, s: State, id: Id) returns (s': State, p: nat)
    requires cfg.Valid() && Leads(cfg, from, s) && id in s.rows && Uncleaned(s.rows[id], Cutoff(cfg, s.now))
    ensures Leads(cfg, from, s') && Undisturbed(s, s') && s'.rows == s.rows
    ensures p in s'.passes && s'.passes[p] == RepublishingCleanups([id])
  {
    p := s.next;
    var before := Cutoff(cfg, s.now);
    ThenStep(cfg, from, s, BeginPass);
    s' := Occur(cfg, s, BeginPass);
    s' := PassStepAt(cfg, from, s', p, Fail, [], SelectingStuck(before));
    s' := PassStepAt(cfg, from, s', p, Fail, [], Republishing(before, []));
    s' := PassStepAt(cfg, from, s', p, Ok, [id], RepublishingCleanups([id]));
  }

  /** A copy of the event that asks for the removal of the avatar's files waits in the queue. */
  predicate Queued(s: State, c: nat, id: Id) {
    c in s.copies && s.copies[c].event == DeleteEvent(id, StorageKeys(id)) && s.copies[c].place == MainQueue
  }

  lemma CleanupIsPublished(cfg: Config, from: State, s: State, p: nat, id: Id) returns (s': State, c: nat)
    requires cfg.Valid() && Leads(cfg, from, s) && p in s.passes && s.passes[p] == RepublishingCleanups([id])
    ensures Leads(cfg, from, s') && Undisturbed(s, s') && s'.rows == s.rows && s'.next == s.next + 1
    ensures Queued(s', c, id)
  {
    c := s.next;
    ThenStep(cfg, from, s, PassStep(p, Ok, []));
    s' := StepPass(cfg, s, p, Ok, []);
  }

  lemma CleanupIsDelivered(cfg: Config, from: State, s: State, c: nat, id: Id) returns (s': State, t: nat)
    requires cfg.Valid() && Leads(cfg, from, s) && Queued(s, c, id) && s.next !in s.attempts
    ensures Leads(cfg, from, s') && Undisturbed(s, s') && s'.rows == s.rows
    ensures t == s.next && t in s'.attempts && s'.attempts[t].event == DeleteEvent(id, StorageKeys(id))
    ensures s'.attempts[t].pc.Cleaning?
  {
    t := s.next;
    ThenStep(cfg, from, s, Deliver(c));
    s' := Occur(cfg, s, Deliver(c));
  }

  /** The other attempts are where they were. */
  predicate OthersStay(s: State, s': State, t: nat) {
    s'.uploads == s.uploads && forall u :: u in s.attempts && u != t ==>
      u in s'.attempts && s'.attempts[u] == s.attempts[u]
  }

  lemma KeysAreDeleted(cfg: Config, s: State, t: nat, id: Id)
    requires cfg.Valid() && id in s.rows
    requires t in s.attempts && s.attempts[t].event == DeleteEvent(id, StorageKeys(id)) && s.attempts[t].pc.Cleaning?
    ensures var s' := Step(cfg, s, AttemptStep(t, Ok, {}));
      && OthersStay(s, s', t) && s'.rows == s.rows
      && t in s'.attempts && s'.attempts[t].event == s.attempts[t].event && s'.attempts[t].pc.MarkingCleaned?
  {
  }

  lemma MarkIsSet(cfg: Config, s: State, t: nat, id: Id)
    requires cfg.Valid() && id in s.rows
    requires t in s.attempts && s.attempts[t].event == DeleteEvent(id, StorageKeys(id))
    requires s.attempts[t].pc.MarkingCleaned?
    ensures var s' := Step(cfg, s, AttemptStep(t, Ok, {})); OthersStay(s, s', t) && IsCleaned(s', id)
  {
  }

  lemma CleanupSucceeds(cfg: Config, from: State, s: State, t: nat, id: Id) returns (s': State)
    requires cfg.Valid() && Leads(cfg, from, s) && id in s.rows
    requires t in s.attempts && s.attempts[t].event == DeleteEvent(id, StorageKeys(id)) && s.attempts[t].pc.Cleaning?
    ensures Leads(cfg, from, s') && IsCleaned(s', id) && OthersStay(s, s', t)
  {
    var step := AttemptStep(t, Ok, {});
    ThenStep(cfg, from, s, step);
    KeysAreDeleted(cfg, s, t, id);
    var s1 := Step(cfg, s, step);
    ThenStep(cfg, from, s1, step);
    MarkIsSet(cfg, s1, t, id);
    s' := Step(cfg, s1, step);
  }

  /** Every closed avatar can be marked as cleaned while its writers look the other way. */
  lemma CanBeCleaned(cfg: Config, from: State, s: State, id: Id, w: Writer) returns (s': State)
    requires cfg.Valid() && Inv(cfg, s) && Leads(cfg, from, s) && IsClosed(s, id) && Poised(s, id, w)
    ensures Leads(cfg, from, s') && IsCleaned(s', id) && Poised(s', id, w)
  {
    if IsCleaned(s, id) {
      s' := s;
    } else {
      assert forall t :: t in s.attempts ==> t < s.next by {
        forall t | t in s.attempts ensures t < s.next { assert AttemptOk(cfg, s, t); }
      }
      s' := CanBeMarked(cfg, from, s, id, w);
    }
  }

  lemma CanBeMarked(cfg: Config, from: State, s: State, id: Id, w: Writer) returns (s': State)
    requires cfg.Valid() && Leads(cfg, from, s) && IsClosed(s, id) && !IsCleaned(s, id) && Poised(s, id, w)
    requires forall t :: t in s.attempts ==> t < s.next
    ensures Leads(cfg, from, s') && IsCleaned(s', id) && Poised(s', id, w)
  {
    var wait := s.rows[id].updatedAt + 1 + cfg.stuckAfter;
    TimePasses(cfg, from, s, wait);
    var s1 := s.(now := s.now + wait);
    assert IsCleaned(s1, id) == IsCleaned(s, id);
    var s2, p := PassFinds(cfg, from, s1, id);
    var s3, c := CleanupIsPublished(cfg, from, s2, p, id);
    var s4, t := CleanupIsDelivered(cfg, from, s3, c, id);
    s' := CleanupSucceeds(cfg, from, s4, t, id);
  }

  lemma UploadStoresOriginal(cfg: Config, s: State, id: Id)
    requires cfg.Valid() && PuttingFor(s, id)
    ensures var s' := Step(cfg, s, UploadStep(id, Ok)); Original(id) in s'.objects && s'.rows == s.rows
  {
  }

  lemma AttemptStoresThumb(cfg: Config, s: State, id: Id, t: nat)
    requires cfg.Valid() && Poised(s, id, ByAttempt(t))
    ensures var s' := Step(cfg, s, AttemptStep(t, Ok, {}));
      Thumb(id, ThumbnailSizes()[s.attempts[t].pc.next]) in s'.objects && s'.rows == s.rows
  {
  }

  lemma PoisedWriterStores(cfg: Config, from: State, s: State, id: Id, w: Writer) returns (s': State)
    requires cfg.Valid() && Leads(cfg, from, s) && IsCleaned(s, id) && Poised(s, id, w)
    ensures Leads(cfg, from, s') && IsCleaned(s', id) && !NoObjects(s', id)
  {
    var a := if w.ByUpload? then UploadStep(id, Ok) else AttemptStep(w.t, Ok, {});
    ThenStep(cfg, from, s, a);
    s' := Step(cfg, s, a);
    match w {
      case ByUpload => UploadStoresOriginal(cfg, s, id);
      case ByAttempt(t) => AttemptStoresThumb(cfg, s, id, t);
    }
  }

  /** A writer under way when the avatar is closed can outlive the cleanup and leave an orphan. */
  lemma WriterCanLeaveOrphan(cfg: Config, s: State, id: Id) returns (s': State)
    requires cfg.Valid() && Inv(cfg, s) && IsClosed(s, id) && !NoWriters(cfg, s, id)
    ensures Leads(cfg, s, s') && IsCleaned(s', id) && !NoObjects(s', id)
  {
    Stay(cfg, s);
    var w, s1 := ByUpload, s;
    if !PuttingFor(s, id) {
      var t :| t in s.attempts && s.attempts[t].event.id == id && MayStore(cfg, s, s.attempts[t]);
      w := ByAttempt(t);
      if s.attempts[t].pc.Rendering? {
        ThenStep(cfg, s, s, AttemptStep(t, Ok, {}));
        StepKeepsInv(cfg, s, AttemptStep(t, Ok, {}));
        ReadsOriginal(cfg, s, t);
        s1 := Step(cfg, s, AttemptStep(t, Ok, {}));
      }
      s1 := WriterGetsPoised(cfg, s, s1, id, t);
    }
    s' := CanBeCleaned(cfg, s, s1, id, w);
    s' := PoisedWriterStores(cfg, s, s', id, w);
  }

  /**
   * The exact condition. From a state in which the avatar is closed and nobody has marked its
   * files yet, the mark tells the truth in every run if and only if no writer is under way.
   */
  lemma CleanupHoldsExactlyWithoutWriters(cfg: Config, s: State, id: Id)
    requires cfg.Valid() && Reachable(cfg, s) && IsClosed(s, id) && !IsCleaned(s, id) && !Marking(s, id)
    ensures NoWriters(cfg, s, id) <==> forall s' :: Leads(cfg, s, s') && IsCleaned(s', id) ==> NoObjects(s', id)
  {
    ReachableInv(cfg, s);
    if NoWriters(cfg, s, id) {
      forall s' | Leads(cfg, s, s') && IsCleaned(s', id) ensures NoObjects(s', id) {
        var later :| s' == Run(cfg, s, later);
        RunStaysTidy(cfg, s, later, id);
      }
    } else {
      var s' := WriterCanLeaveOrphan(cfg, s, id);
    }
  }
}
