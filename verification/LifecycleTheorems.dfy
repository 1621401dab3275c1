/** What holds in every reachable state and over every run of the lifecycle. */
module LifecycleTheorems {
  import opened Domain
  import opened Repository
  import opened Lifecycle
  import opened LifecycleInvariant
  import opened LifecycleEffects
  import opened LifecycleSteps
  import Content
  import Queries
  import Retry

  /** The state after a run from the empty system. */
  ghost predicate Reachable(cfg: Config, s: State)
    requires cfg.Valid()
  {
    exists now, actions :: s == Run(cfg, Initial(now), actions)
  }

  lemma {:induction false} RunKeepsInv(cfg: Config, s: State, actions: seq<Action>)
    requires cfg.Valid() && Inv(cfg, s)
    ensures Evolves(s, Run(cfg, s, actions)) && Inv(cfg, Run(cfg, s, actions))
    decreases |actions|
  {
    if actions == [] {
      IdleStepIsGood(cfg, s, s);
    } else {
      var s1 := Step(cfg, s, actions[0]);
      StepKeepsInv(cfg, s, actions[0]);
      RunKeepsInv(cfg, s1, actions[1..]);
      EvolvesIsTransitive(s, s1, Run(cfg, s1, actions[1..]));
    }
  }

  lemma ReachableInv(cfg: Config, s: State)
    requires cfg.Valid() && Reachable(cfg, s)
    ensures Inv(cfg, s)
  {
    var now, actions :| s == Run(cfg, Initial(now), actions);
    RunKeepsInv(cfg, Initial(now), actions);
  }

  /** Some run leads from one state to the other. */
  ghost predicate Leads(cfg: Config, s: State, s': State)
    requires cfg.Valid()
  {
    exists actions :: s' == Run(cfg, s, actions)
  }

  lemma ThenStep(cfg: Config, s: State, s1: State, a: Action)
    requires cfg.Valid() && Leads(cfg, s, s1)
    ensures Leads(cfg, s, Step(cfg, s1, a))
  {
    var actions :| s1 == Run(cfg, s, actions);
    RunsCompose(cfg, s, actions, [a]);
    RunOfOne(cfg, s1, a);
    assert Step(cfg, s1, a) == Run(cfg, s, actions + [a]);
  }

  lemma Stay(cfg: Config, s: State)
    requires cfg.Valid()
    ensures Leads(cfg, s, s)
  {
    assert s == Run(cfg, s, []);
  }

  lemma {:induction false} TimePasses(cfg: Config, from: State, s: State, n: nat)
    requires cfg.Valid() && Leads(cfg, from, s)
    ensures Leads(cfg, from, s.(now := s.now + n))
    decreases n
  {
    if n > 0 {
      ThenStep(cfg, from, s, Tick);
      var s1 := Step(cfg, s, Tick);
      assert s1 == s.(now := s.now + 1);
      TimePasses(cfg, from, s1, n - 1);
      assert s1.(now := s1.now + (n - 1)) == s.(now := s.now + n);
    } else {
      assert s == s.(now := s.now + 0);
    }
  }

  /**
   * Every live uploaded avatar has its original, byte for byte as uploaded. Once it is completed,
   * its row names the rendered thumbnails and no others, and each of them is stored.
   */
  lemma LiveFilesExist(cfg: Config, s: State, id: Id)
    requires cfg.Valid() && Reachable(cfg, s)
    requires id in s.rows && s.rows[id].Live() && s.rows[id].upload == Uploaded
    ensures id in s.born && Original(id) in s.objects && s.objects[Original(id)] == s.born[id]
    ensures s.rows[id].processing == Completed ==>
              && |s.born[id]| <= cfg.maxOriginalBytes
              && cfg.render(s.born[id]) == Rendered(cfg, s.objects[Original(id)])
              && Rendered(cfg, s.objects[Original(id)]).Some?
              && var thumbs := Rendered(cfg, s.objects[Original(id)]).value;
                 && s.rows[id].thumbs.Keys == thumbs.Keys
                 && forall z :: z in thumbs ==>
                      && s.rows[id].thumbs[z] == Thumb(id, z)
                      && Thumb(id, z) in s.objects && s.objects[Thumb(id, z)] == thumbs[z]
  {
    ReachableInv(cfg, s);
    assert RowOk(cfg, s, id);
    assert ObjectOk(cfg, s, Original(id));
    if s.rows[id].processing == Completed {
      var thumbs := Rendered(cfg, s.born[id]).value;
      AllSizes();
      assert s.rows[id].thumbs.Keys == thumbs.Keys;
      forall z | z in thumbs ensures s.objects[Thumb(id, z)] == thumbs[z] {
        assert ObjectOk(cfg, s, Thumb(id, z));
      }
    }
  }

  lemma AllSizes()
    ensures forall z :: z in ThumbnailSizes()[..|ThumbnailSizes()|]
  {
    assert ThumbnailSizes()[..2] == ThumbnailSizes();
    assert ThumbnailSizes()[0] == Small && ThumbnailSizes()[1] == Medium;
    forall z ensures z in ThumbnailSizes() {
      match z { case Small => case Medium => }
    }
  }

  /**
   * No live uploaded avatar is forgotten: its processing has finished, or it has not begun and the
   * reconciler's query finds it, or a copy of its message still exists. The one exception is an
   * avatar whose last attempt failed for good without being able to write so.
   */
  lemma NoLostWork(cfg: Config, s: State, id: Id)
    requires cfg.Valid() && Reachable(cfg, s)
    requires id in s.rows && s.rows[id].Live() && s.rows[id].upload == Uploaded
    ensures
      || Done(s.rows[id].processing)
      || (s.rows[id].processing == Pending &&
          forall before :: Stuck(s.rows[id], before) <==> s.rows[id].updatedAt < before)
      || (s.rows[id].processing == Processing && exists c :: c in s.copies && s.copies[c].event == UploadEvent(id))
      || (s.rows[id].processing == Processing && id in s.dropped)
  {
    ReachableInv(cfg, s);
    assert RowOk(cfg, s, id);
    if s.rows[id].processing == Processing && id !in s.dropped {
      var m :| Announced(s.sent, m, UploadEvent(id));
      assert MessageOk(s, m);
      var c :| c in s.copies && s.copies[c].mid == m && 0 <= c;
      assert CopyOk(s, c);
    }
  }

  /** An acknowledged delete event has had its files removed, and marked as such. */
  lemma NoLostCleanup(cfg: Config, s: State, m: nat)
    requires cfg.Valid() && Reachable(cfg, s) && m in s.settled && m in s.sent && s.sent[m].DeleteEvent?
    ensures IsCleaned(s, s.sent[m].id)
  {
    ReachableInv(cfg, s);
    assert MessageOk(s, m);
  }

  /**
   * Message conservation: an event that has reached the broker stays there as some copy until it
   * is settled, and a settled upload event leaves its row finished, up to the recorded exception.
   */
  lemma MessagesAreConserved(cfg: Config, s: State, later: seq<Action>, m: nat)
    requires cfg.Valid() && Reachable(cfg, s) && m in s.sent
    ensures var s' := Run(cfg, s, later);
      && m in s'.sent && s'.sent[m] == s.sent[m]
      && (m in s'.settled || exists c :: c in s'.copies && s'.copies[c].mid == m && s'.copies[c].event == s.sent[m])
      && (m in s'.settled && s.sent[m].UploadEvent? ==> IsFinished(s', s.sent[m].id) || s.sent[m].id in s'.dropped)
  {
    ReachableInv(cfg, s);
    RunKeepsInv(cfg, s, later);
    var s' := Run(cfg, s, later);
    assert MessageOk(s', m);
    if m !in s'.settled {
      var c :| c in s'.copies && s'.copies[c].mid == m && 0 <= c;
      assert CopyOk(s', c);
    }
  }

  /**
   * A handler that returns nil has seen to its avatar: it is finished, or its files are marked as
   * removed. One that gives up for good has done so too, up to the recorded exception.
   */
  lemma ReturnIsTruthful(cfg: Config, s: State, later: seq<Action>, t: nat, result: Result)
    requires cfg.Valid() && Inv(cfg, s) && result != Retryable
    requires var s' := Run(cfg, s, later); t in s'.attempts && s'.attempts[t].pc == Returned(result)
    ensures var s' := Run(cfg, s, later);
      && EventSettled(s', s'.attempts[t].event)
      && (result == Nil && s'.attempts[t].event.UploadEvent? ==> IsFinished(s', s'.attempts[t].event.id))
  {
    var s' := Run(cfg, s, later);
    assert AttemptOk(cfg, s', t) by { RunKeepsInv(cfg, s, later); }
  }

  lemma DeletionIsForever(cfg: Config, s: State, later: seq<Action>, id: Id)
    requires cfg.Valid() && Inv(cfg, s) && IsDeleted(s, id)
    ensures IsDeleted(Run(cfg, s, later), id)
  {
    RunKeepsInv(cfg, s, later);
  }

  /**
   * Two-step classification. After an UPDATE that matched nothing, the second read finds a live
   * row only if its processing has finished, and finds none only if the row is deleted for good;
   * thumbnails are removed for no other row.
   */
  lemma ClassificationIsSound(cfg: Config, s: State, t: nat, later: seq<Action>)
    requires cfg.Valid() && Reachable(cfg, s) && t in s.attempts
    requires var pc := s.attempts[t].pc;
      pc.CheckingStart? || pc.CheckingComplete? || pc.CheckingFailed? || pc.RemovingThumbs?
    ensures var id := s.attempts[t].event.id;
      && id in s.rows
      && (s.rows[id].Live() ==> Done(s.rows[id].processing) && !s.attempts[t].pc.RemovingThumbs?)
      && (!s.rows[id].Live() ==> IsDeleted(Run(cfg, s, later), id))
  {
    ReachableInv(cfg, s);
    AttemptSeesRow(cfg, s, t);
    if !s.rows[s.attempts[t].event.id].Live() {
      DeletionIsForever(cfg, s, later, s.attempts[t].event.id);
    }
  }

  /**
   * The same for the upload: after its transition was refused, the second read finds a live row only
   * if its upload status is final already, and finds none only if the row is deleted for good.
   */
  lemma UploadClassificationIsSound(cfg: Config, s: State, id: Id, later: seq<Action>)
    requires cfg.Valid() && Reachable(cfg, s) && id in s.uploads && s.uploads[id].CheckingUploaded?
    ensures id in s.rows
    ensures var s' := Run(cfg, s, later);
      if s.rows[id].Live() then s.rows[id].upload != Uploading && id in s'.rows
        && s'.rows[id].upload == s.rows[id].upload
      else IsDeleted(s', id)
  {
    ReachableInv(cfg, s);
    assert UploadOk(s, id);
    RunKeepsInv(cfg, s, later);
  }

  lemma AttemptSeesRow(cfg: Config, s: State, t: nat)
    requires t in s.attempts && PcOk(cfg, s, s.attempts[t])
    requires var pc := s.attempts[t].pc;
      pc.CheckingStart? || pc.CheckingComplete? || pc.CheckingFailed? || pc.RemovingThumbs?
    ensures IsFinished(s, s.attempts[t].event.id)
    ensures s.attempts[t].pc.RemovingThumbs? ==> IsDeleted(s, s.attempts[t].event.id)
  {
  }

  /** Whatever a step deletes from the store belongs to a deleted avatar or a failed upload. */
  lemma OnlyClosedAvatarsLoseFiles(cfg: Config, s: State, later: seq<Action>, k: Key)
    requires cfg.Valid() && Reachable(cfg, s)
    requires k in s.objects && k !in Run(cfg, s, later).objects
    ensures IsClosed(Run(cfg, s, later), k.id)
  {
    ReachableInv(cfg, s);
    RunKeepsInv(cfg, s, later);
  }

  /**
   * Every stored object belongs to exactly one row, also by its printed name: an object of another
   * key never shares that name.
   */
  lemma StoredNamesAreIsolated(cfg: Config, s: State, j: Key, k: Key)
    requires cfg.Valid() && Reachable(cfg, s) && j in s.objects && k in s.objects
    ensures j.id in s.rows && k.id in s.rows
    ensures KeyName(j) == KeyName(k) ==> j == k
  {
    ReachableInv(cfg, s);
    assert ObjectOk(cfg, s, j) && ObjectOk(cfg, s, k);
    assert RowOk(cfg, s, j.id) && RowOk(cfg, s, k.id);
    KeyNamesAreDistinct(j, k);
  }

  /** The bytes of a key are settled when the avatar is created; they may vanish, not change. */
  lemma StoredBytesNeverChange(cfg: Config, s: State, later: seq<Action>, k: Key)
    requires cfg.Valid() && Reachable(cfg, s)
    requires k in s.objects && k in Run(cfg, s, later).objects
    ensures Run(cfg, s, later).objects[k] == s.objects[k]
  {
    ReachableInv(cfg, s);
    RunKeepsInv(cfg, s, later);
    assert ObjectOk(cfg, s, k) && ObjectOk(cfg, Run(cfg, s, later), k);
  }

  /** What a request for an image answers: the row is read in one state, the object in another. */
  predicate Answers(s: State, id: Id, size: Option<ThumbnailSize>, t: State, c: Content.Choice, bytes: Bytes) {
    && id in s.rows && s.rows[id].Live() && c == Content.Choose(id, s.rows[id], size)
    && c.key in t.objects && bytes == t.objects[c.key]
  }

  /** The size is one of those rendered from what was uploaded, and the row has been completed. */
  predicate HasThumbnail(cfg: Config, s: State, id: Id, z: ThumbnailSize)
    requires id in s.rows && id in s.born
  {
    s.rows[id].processing == Completed && Rendered(cfg, s.born[id]).Some? && z in Rendered(cfg, s.born[id]).value
  }

  /**
   * Which object answers a request for an image of a live avatar, with which bytes and for how long.
   * The original answers for a day where no size is asked for. A thumbnail of a completed avatar
   * answers for a day, with what was rendered. The original stands in for any other size, for a day
   * exactly if processing has failed for good, and else for a minute.
   */
  lemma AnswersAreAsAsked(cfg: Config, s: State, id: Id, size: Option<ThumbnailSize>, later: seq<Action>,
                          c: Content.Choice, bytes: Bytes)
    requires cfg.Valid() && Reachable(cfg, s) && Answers(s, id, size, Run(cfg, s, later), c, bytes)
    ensures id in s.born
    ensures if size.Some? && HasThumbnail(cfg, s, id, size.value) then
              c.key == Thumb(id, size.value) && bytes == Rendered(cfg, s.born[id]).value[size.value]
            else
              c.key == Original(id) && bytes == s.born[id]
    ensures c.maxAge ==
              if size.None? || HasThumbnail(cfg, s, id, size.value) || s.rows[id].processing == ProcessingFailed
              then 24 * 60 * 60 else 60
  {
    ReachableInv(cfg, s);
    ChoiceFollowsRow(cfg, s, id, size);
    BytesFollowBirth(cfg, s, later, c.key);
  }

  /** What the choice means for a row that is in order. */
  lemma ChoiceFollowsRow(cfg: Config, s: State, id: Id, size: Option<ThumbnailSize>)
    requires RowsOk(cfg, s) && id in s.rows
    ensures id in s.born
    ensures var c := Content.Choose(id, s.rows[id], size);
      && c.key == (if size.Some? && HasThumbnail(cfg, s, id, size.value) then Thumb(id, size.value) else Original(id))
      && c.maxAge ==
           if size.None? || HasThumbnail(cfg, s, id, size.value) || s.rows[id].processing == ProcessingFailed
           then 24 * 60 * 60 else 60
  {
    assert RowOk(cfg, s, id);
    AllSizes();
  }

  /** The current avatar of a user with its row, as the query for it finds them. */
  function WithRow(s: State, found: Option<Id>): Option<(Id, Row)>
    requires found.Some? ==> found.value in s.rows
  {
    if found.Some? then Some((found.value, s.rows[found.value])) else None
  }

  /** The user's, not deleted, and its original reported as stored. */
  predicate Offers(r: Row, user: string) { r.user == user && r.deletedAt.None? && r.upload == Uploaded }

  /**
   * The same for the image of a user: what answers for the current avatar answers for the user too,
   * for five minutes at most. As long as the user has any uploaded avatar that is not deleted, it is
   * never the placeholder; without one it always is.
   */
  lemma UserAnswersAreAsAsked(cfg: Config, s: State, user: string, found: Option<Id>, size: Option<ThumbnailSize>)
    requires cfg.Valid() && Reachable(cfg, s) && Queries.Current(s.rows, user, found)
    ensures found.Some? ==> found.value in s.rows && found.value in s.born && s.rows[found.value].user == user
    ensures found.Some? <==> exists id :: id in s.rows && Offers(s.rows[id], user)
    ensures Content.UserImage(WithRow(s, found), size, s.objects.Keys) ==
              if found.None? then Content.Placeholder(5 * 60)
              else
                var rendered := size.Some? && HasThumbnail(cfg, s, found.value, size.value);
                var failed := s.rows[found.value].processing == ProcessingFailed;
                Content.Stored(if rendered then Thumb(found.value, size.value) else Original(found.value),
                  if size.None? || rendered || failed then 5 * 60 else 60)
  {
    ReachableInv(cfg, s);
    assert forall id :: Queries.Shown(s.rows, user, id) <==> id in s.rows && Offers(s.rows[id], user);
    if found.Some? {
      ChoiceFollowsRow(cfg, s, found.value, size);
      LiveFilesExist(cfg, s, found.value);
    }
  }

  lemma ChoiceIsOwn(cfg: Config, s: State, id: Id, size: Option<ThumbnailSize>)
    requires RowsOk(cfg, s) && id in s.rows && s.rows[id].Live()
    ensures id in s.born && Content.Choose(id, s.rows[id], size).key.id == id
  {
    assert RowOk(cfg, s, id);
  }

  /**
   * Day-long answers never go stale: every later successful answer to the same request has the
   * same key and the same bytes, however the two reads of either answer interleave with the rest.
   */
  lemma DayLongAnswersStayTrue(cfg: Config, s: State, id: Id, size: Option<ThumbnailSize>,
                               untilFirst: seq<Action>, first: Content.Choice, firstBytes: Bytes,
                               between: seq<Action>, untilSecond: seq<Action>,
                               second: Content.Choice, secondBytes: Bytes)
    requires cfg.Valid() && Reachable(cfg, s)
    requires Answers(s, id, size, Run(cfg, s, untilFirst), first, firstBytes) && first.maxAge == Content.CACHE_READY
    requires var s' := Run(cfg, s, between); Answers(s', id, size, Run(cfg, s', untilSecond), second, secondBytes)
    ensures second == first && secondBytes == firstBytes
  {
    var s' := Run(cfg, s, between);
    ReachableInv(cfg, s);
    RunKeepsInv(cfg, s, between);
    Content.DayLongChoiceIsStable(id, s.rows[id], s'.rows[id], size);
    ChoiceIsOwn(cfg, s, id, size);
    BytesFollowBirth(cfg, s, untilFirst, first.key);
    BytesFollowBirth(cfg, s', untilSecond, first.key);
  }

  /** The bytes of a stored object as a function of the bytes the avatar was created with. */
  function BytesOf(cfg: Config, k: Key, original: Bytes): Option<Bytes> {
    match k
    case Original(_) => Some(original)
    case Thumb(_, z) =>
      match Rendered(cfg, original)
      case Some(thumbs) => if z in thumbs then Some(thumbs[z]) else None
      case None => None
  }

  lemma BytesFollowBirth(cfg: Config, s: State, later: seq<Action>, k: Key)
    requires cfg.Valid() && Inv(cfg, s) && k.id in s.born
    requires k in Run(cfg, s, later).objects
    ensures BytesOf(cfg, k, s.born[k.id]) == Some(Run(cfg, s, later).objects[k])
  {
    RunKeepsInv(cfg, s, later);
    assert ObjectOk(cfg, Run(cfg, s, later), k);
  }
}
