/**
 * What every step of the lifecycle keeps.
 *
 * The invariant is local: each row, object, message, copy and activity carries its own condition,
 * stated only in facts that no step of anyone else can undo. `Evolves` collects those facts, so a
 * step has to answer for the entities it touches and for nothing else.
 */
module LifecycleInvariant {
  import opened Domain
  import opened Repository
  import opened Lifecycle
  import Retry

  // Facts about a row that hold for good once they hold

  predicate IsClosed(s: State, id: Id) { id in s.rows && s.rows[id].Closed() }

  predicate IsFinished(s: State, id: Id) { id in s.rows && s.rows[id].Finished() }

  predicate IsDeleted(s: State, id: Id) { id in s.rows && s.rows[id].deletedAt.Some? }

  predicate IsUploaded(s: State, id: Id) { id in s.rows && s.rows[id].upload == Uploaded }

  predicate IsBegun(s: State, id: Id) { id in s.rows && s.rows[id].processing != Pending }

  predicate IsCleaned(s: State, id: Id) { id in s.rows && s.rows[id].filesRemovedAt.Some? }

  /** The message has been settled, or a copy of it not older than `from` is still somewhere. */
  ghost predicate Carried(s: State, mid: nat, from: nat) {
    mid in s.settled || exists c :: c in s.copies && s.copies[c].mid == mid && from <= c
  }

  /** The guarantee of every step, and what every other activity may rely on. */
  ghost predicate Evolves(s: State, s': State) {
    && s.now <= s'.now
    && s.next <= s'.next
    && (forall id :: id in s.rows ==> id in s'.rows && Evolved(s.rows[id], s'.rows[id]))
    && (forall id :: id in s.born ==> id in s'.born && s'.born[id] == s.born[id])
    && (forall k :: k in s.objects ==> k in s'.objects || IsClosed(s', k.id))
    && (forall m :: m in s.sent ==> m in s'.sent && s'.sent[m] == s.sent[m])
    && s.settled <= s'.settled
    && s.dropped <= s'.dropped
    && (forall m, from :: Carried(s, m, from) ==> Carried(s', m, from))
    && (forall c :: c in s'.copies && c < s.next ==> c in s.copies && s'.copies[c].mid == s.copies[c].mid)
  }

  // Local conditions

  predicate Announced(sent: map<nat, Event>, mid: nat, e: Event) {
    mid in sent && sent[mid] == e
  }

  /** An upload event follows its uploaded row, a delete event its closed row. */
  predicate EventOk(s: State, e: Event) {
    match e
    case UploadEvent(id) => IsUploaded(s, id)
    case DeleteEvent(id, keys) => IsClosed(s, id) && keys == StorageKeys(id)
  }

  /** What the acknowledgement of a message promises about its row. */
  predicate EventSettled(s: State, e: Event) {
    match e
    case UploadEvent(id) => IsFinished(s, id) || id in s.dropped
    case DeleteEvent(id, _) => IsCleaned(s, id)
  }

  /** What the rest of the system guarantees about a row with these values. */
  ghost predicate RowFits(cfg: Config, s: State, id: Id, r: Row) {
    && WellFormed(id)
    && id in s.born
    && r.createdAt <= r.updatedAt <= s.now
    && (r.upload == Uploaded && r.Live() ==> Original(id) in s.objects)
    && (r.processing != Completed ==> r.thumbs == map[])
    && (r.processing == Completed ==>
          && Rendered(cfg, s.born[id]).Some?
          && r.thumbs == KeysUpTo(id, Rendered(cfg, s.born[id]).value, |ThumbnailSizes()|)
          && (r.Live() ==> forall z :: z in r.thumbs ==> Thumb(id, z) in s.objects))
    && (r.processing != Pending ==> r.upload == Uploaded && exists m :: Announced(s.sent, m, UploadEvent(id)))
    && (r.filesRemovedAt.Some? ==> r.Closed())
    && (r.deletedAt.Some? ==> r.updatedAt == r.deletedAt.value)
  }

  ghost predicate RowOk(cfg: Config, s: State, id: Id)
    requires id in s.rows
  {
    RowFits(cfg, s, id, s.rows[id])
  }

  /** Each object holds the uploaded bytes of its avatar or a rendering of them. */
  predicate ObjectFits(cfg: Config, s: State, k: Key, bytes: Bytes) {
    && k.id in s.rows
    && k.id in s.born
    && match k
       case Original(id) => bytes == s.born[id]
       case Thumb(id, z) =>
         && Rendered(cfg, s.born[id]).Some?
         && z in Rendered(cfg, s.born[id]).value
         && bytes == Rendered(cfg, s.born[id]).value[z]
  }

  predicate ObjectOk(cfg: Config, s: State, k: Key)
    requires k in s.objects
  {
    ObjectFits(cfg, s, k, s.objects[k])
  }

  predicate UploadOk(s: State, id: Id)
    requires id in s.uploads
  {
    WellFormed(id) &&
    match s.uploads[id]
    case Creating(_, _) => true
    case PuttingOriginal(bytes) => id in s.rows && id in s.born && s.born[id] == bytes
    case MarkingUploaded => id in s.rows && (Original(id) in s.objects || IsClosed(s, id))
    case CheckingUploaded => id in s.rows && (s.rows[id].upload != Uploading || IsDeleted(s, id))
    case PublishingUpload => IsUploaded(s, id)
    case _ => true
  }

  predicate DeleteOk(s: State, d: nat)
    requires d in s.deletes
  {
    d < s.next &&
    match s.deletes[d]
    case PublishingDelete(id) => IsDeleted(s, id)
    case DeletingFiles(id) => IsDeleted(s, id)
    case MarkingRemoved(id) => IsDeleted(s, id)
    case _ => true
  }

  predicate SameMessage(c: Copy, c': Copy) {
    c'.mid == c.mid && c'.event == c.event
  }

  predicate CopyOk(s: State, c: nat)
    requires c in s.copies
  {
    var copy := s.copies[c];
    c < s.next && copy.mid <= c && Announced(s.sent, copy.mid, copy.event)
  }

  predicate OwnKeys(id: Id, keys: map<ThumbnailSize, Key>) {
    forall z :: z in keys ==> keys[z] == Thumb(id, z)
  }

  ghost predicate AttemptOk(cfg: Config, s: State, t: nat)
    requires t in s.attempts
  {
    var a := s.attempts[t];
    && Announced(s.sent, a.mid, a.event)
    && t < s.next && a.copy < s.next
    && (a.copy in s.copies ==> s.copies[a.copy].mid == a.mid)
    && a.number >= 1
    && PcOk(cfg, s, a)
  }

  ghost predicate PcOk(cfg: Config, s: State, a: Attempt) {
    var id := a.event.id;
    match a.pc
    case Getting => a.event.UploadEvent?
    case Starting => a.event.UploadEvent?
    case CheckingStart => a.event.UploadEvent? && IsFinished(s, id)
    case Rendering => a.event.UploadEvent? && IsBegun(s, id)
    case Storing(n, thumbs, keys) =>
      && a.event.UploadEvent? && IsBegun(s, id) && n <= |ThumbnailSizes()|
      && id in s.born && Rendered(cfg, s.born[id]) == Some(thumbs)
      && keys == KeysUpTo(id, thumbs, n)
      && (forall z :: z in keys ==> Thumb(id, z) in s.objects || IsClosed(s, id))
    case CheckingComplete(keys) => a.event.UploadEvent? && IsBegun(s, id) && IsFinished(s, id) && OwnKeys(id, keys)
    case RemovingThumbs(keys) => a.event.UploadEvent? && IsBegun(s, id) && IsDeleted(s, id) && OwnKeys(id, keys)
    case Failing(error) => a.event.UploadEvent? && error != Nil && (error == NonRetryable ==> IsBegun(s, id))
    case CheckingFailed(error) => a.event.UploadEvent? && error != Nil && IsFinished(s, id)
    case Cleaning => a.event.DeleteEvent?
    case MarkingCleaned => a.event.DeleteEvent?
    case Returned(r) =>
      && (r != Retryable ==> EventSettled(s, a.event))
      && (r == Nil && a.event.UploadEvent? ==> IsFinished(s, id))
    case AckingForwarded => Carried(s, a.mid, a.copy + 1)
    case Rejecting => true
  }

  predicate PassOk(s: State, p: nat)
    requires p in s.passes
  {
    p < s.next &&
    match s.passes[p]
    case Republishing(_, rest) => forall id :: id in rest ==> IsUploaded(s, id)
    case RepublishingCleanups(rest) => forall id :: id in rest ==> IsClosed(s, id)
    case _ => true
  }

  ghost predicate MessageOk(s: State, m: nat)
    requires m in s.sent
  {
    && m < s.next
    && EventOk(s, s.sent[m])
    && Carried(s, m, 0)
    && (m in s.settled ==> EventSettled(s, s.sent[m]))
  }

  ghost predicate RowsOk(cfg: Config, s: State) {
    && (forall id :: id in s.rows ==> RowOk(cfg, s, id))
    && (forall id :: id in s.born ==> id in s.rows)
  }

  predicate ObjectsOk(cfg: Config, s: State) { forall k :: k in s.objects ==> ObjectOk(cfg, s, k) }

  predicate UploadsOk(s: State) { forall id :: id in s.uploads ==> UploadOk(s, id) }

  predicate DeletesOk(s: State) { forall d :: d in s.deletes ==> DeleteOk(s, d) }

  predicate CopiesOk(s: State) { forall c :: c in s.copies ==> CopyOk(s, c) }

  ghost predicate AttemptsOk(cfg: Config, s: State) { forall t :: t in s.attempts ==> AttemptOk(cfg, s, t) }

  predicate PassesOk(s: State) { forall p :: p in s.passes ==> PassOk(s, p) }

  ghost predicate MessagesOk(s: State) {
    && (forall m :: m in s.sent ==> MessageOk(s, m))
    && (forall m :: m in s.settled ==> m in s.sent)
    && (forall id :: id in s.dropped ==> IsBegun(s, id))
  }

  ghost predicate Inv(cfg: Config, s: State) {
    && RowsOk(cfg, s) && ObjectsOk(cfg, s)
    && UploadsOk(s) && DeletesOk(s) && AttemptsOk(cfg, s) && PassesOk(s)
    && CopiesOk(s) && MessagesOk(s)
  }

  // What an activity may rely on: its condition survives the steps of all others.

  lemma EvolvesIsTransitive(a: State, b: State, c: State)
    requires Evolves(a, b) && Evolves(b, c)
    ensures Evolves(a, c)
  {
    forall id | id in a.rows ensures id in c.rows && Evolved(a.rows[id], c.rows[id]) {
      EvolvedIsTransitive(a.rows[id], b.rows[id], c.rows[id]);
    }
    forall k | k in a.objects ensures k in c.objects || IsClosed(c, k.id) {
      assert k in b.objects || IsClosed(b, k.id);
    }
  }

  lemma RowsKept(cfg: Config, s: State, s': State)
    requires RowsOk(cfg, s) && Evolves(s, s')
    requires forall id :: id in s'.rows ==> RowOk(cfg, s', id) || (id in s.rows && s'.rows[id] == s.rows[id])
    requires forall id :: id in s'.born ==> id in s.born || id in s'.rows
    ensures RowsOk(cfg, s')
  {
    forall id | id in s'.rows ensures RowOk(cfg, s', id) {
      if !RowOk(cfg, s', id) {
        RowIsStable(cfg, s, s', id);
      }
    }
  }

  lemma RowIsStable(cfg: Config, s: State, s': State, id: Id)
    requires Evolves(s, s')
    requires id in s.rows && id in s'.rows && s'.rows[id] == s.rows[id]
    requires RowOk(cfg, s, id)
    ensures RowOk(cfg, s', id)
  {
    if s.rows[id].processing != Pending {
      var m :| Announced(s.sent, m, UploadEvent(id));
      assert Announced(s'.sent, m, UploadEvent(id));
    }
  }

  lemma AttemptIsStable(cfg: Config, s: State, s': State, t: nat)
    requires Evolves(s, s')
    requires t in s.attempts && t in s'.attempts && s'.attempts[t] == s.attempts[t]
    requires AttemptOk(cfg, s, t)
    ensures AttemptOk(cfg, s', t)
  {
  }

  lemma AttemptsKept(cfg: Config, s: State, s': State)
    requires AttemptsOk(cfg, s) && Evolves(s, s')
    requires forall t :: t in s'.attempts ==>
               AttemptOk(cfg, s', t) || (t in s.attempts && s'.attempts[t] == s.attempts[t])
    ensures AttemptsOk(cfg, s')
  {
    forall t | t in s'.attempts ensures AttemptOk(cfg, s', t) {
      if !AttemptOk(cfg, s', t) {
        AttemptIsStable(cfg, s, s', t);
      }
    }
  }

  lemma ObjectsKept(cfg: Config, s: State, s': State)
    requires ObjectsOk(cfg, s) && Evolves(s, s')
    requires forall k :: k in s'.objects ==>
               ObjectOk(cfg, s', k) || (k in s.objects && s'.objects[k] == s.objects[k])
    ensures ObjectsOk(cfg, s')
  {
  }

  lemma RequestsKept(s: State, s': State)
    requires UploadsOk(s) && DeletesOk(s) && PassesOk(s) && Evolves(s, s')
    requires forall id :: id in s'.uploads ==> UploadOk(s', id) || (id in s.uploads && s'.uploads[id] == s.uploads[id])
    requires forall d :: d in s'.deletes ==> DeleteOk(s', d) || (d in s.deletes && s'.deletes[d] == s.deletes[d])
    requires forall p :: p in s'.passes ==> PassOk(s', p) || (p in s.passes && s'.passes[p] == s.passes[p])
    ensures UploadsOk(s') && DeletesOk(s') && PassesOk(s')
  {
  }

  lemma MessageIsStable(s: State, s': State, m: nat)
    requires Evolves(s, s')
    requires m in s.sent && MessageOk(s, m)
    requires m in s'.settled ==> m in s.settled
    ensures MessageOk(s', m)
  {
  }

  lemma BrokerKept(s: State, s': State)
    requires CopiesOk(s) && MessagesOk(s) && Evolves(s, s')
    requires forall c :: c in s'.copies ==> CopyOk(s', c) || (c in s.copies && SameMessage(s.copies[c], s'.copies[c]))
    requires forall m :: m in s'.sent ==> MessageOk(s', m) || (m in s.sent && (m in s'.settled ==> m in s.settled))
    requires forall m :: m in s'.settled ==> m in s'.sent
    requires forall id :: id in s'.dropped ==> IsBegun(s', id) || id in s.dropped
    ensures CopiesOk(s') && MessagesOk(s')
  {
    forall m | m in s'.sent ensures MessageOk(s', m) {
      if !MessageOk(s', m) {
        MessageIsStable(s, s', m);
      }
    }
  }

  /** The activities that differ between the two states meet their conditions in the second. */
  ghost predicate ActivitiesOk(cfg: Config, s: State, s': State) {
    && (forall id :: id in s'.uploads ==> UploadOk(s', id) || (id in s.uploads && s'.uploads[id] == s.uploads[id]))
    && (forall d :: d in s'.deletes ==> DeleteOk(s', d) || (d in s.deletes && s'.deletes[d] == s.deletes[d]))
    && (forall p :: p in s'.passes ==> PassOk(s', p) || (p in s.passes && s'.passes[p] == s.passes[p]))
    && (forall t :: t in s'.attempts ==> AttemptOk(cfg, s', t) || (t in s.attempts && s'.attempts[t] == s.attempts[t]))
  }

  lemma OnlyUploadChanges(cfg: Config, s: State, s': State, id: Id)
    requires s'.deletes == s.deletes && s'.passes == s.passes && s'.attempts == s.attempts
    requires forall i :: i in s'.uploads && i != id ==> i in s.uploads && s'.uploads[i] == s.uploads[i]
    requires id in s'.uploads ==> UploadOk(s', id)
    ensures ActivitiesOk(cfg, s, s')
  {
  }

  lemma OnlyDeleteChanges(cfg: Config, s: State, s': State, d: nat)
    requires s'.uploads == s.uploads && s'.passes == s.passes && s'.attempts == s.attempts
    requires forall i :: i in s'.deletes && i != d ==> i in s.deletes && s'.deletes[i] == s.deletes[i]
    requires d in s'.deletes ==> DeleteOk(s', d)
    ensures ActivitiesOk(cfg, s, s')
  {
  }

  lemma OnlyAttemptChanges(cfg: Config, s: State, s': State, t: nat)
    requires s'.uploads == s.uploads && s'.passes == s.passes && s'.deletes == s.deletes
    requires forall i :: i in s'.attempts && i != t ==> i in s.attempts && s'.attempts[i] == s.attempts[i]
    requires t in s'.attempts ==> AttemptOk(cfg, s', t)
    ensures ActivitiesOk(cfg, s, s')
  {
  }

  lemma OnlyPassChanges(cfg: Config, s: State, s': State, p: nat)
    requires s'.uploads == s.uploads && s'.attempts == s.attempts && s'.deletes == s.deletes
    requires forall i :: i in s'.passes && i != p ==> i in s.passes && s'.passes[i] == s.passes[i]
    requires p in s'.passes ==> PassOk(s', p)
    ensures ActivitiesOk(cfg, s, s')
  {
  }

  /** The same for rows and objects. */
  ghost predicate DataOk(cfg: Config, s: State, s': State) {
    && (forall id :: id in s'.rows ==> RowOk(cfg, s', id) || (id in s.rows && s'.rows[id] == s.rows[id]))
    && (forall id :: id in s'.born ==> id in s.born || id in s'.rows)
    && (forall k :: k in s'.objects ==> ObjectOk(cfg, s', k) || (k in s.objects && s'.objects[k] == s.objects[k]))
  }

  /** The same for copies and messages, and what is recorded of them. */
  ghost predicate BrokerOk(s: State, s': State) {
    && (forall c :: c in s'.copies ==> CopyOk(s', c) || (c in s.copies && SameMessage(s.copies[c], s'.copies[c])))
    && (forall m :: m in s'.sent ==> MessageOk(s', m) || (m in s.sent && (m in s'.settled ==> m in s.settled)))
    && (forall m :: m in s'.settled ==> m in s.settled || m in s'.sent)
    && (forall id :: id in s'.dropped ==> id in s.dropped || IsBegun(s', id))
  }

  /** What a step owes: it evolves the state, and whatever it has changed is in order. */
  ghost predicate Good(cfg: Config, s: State, s': State) {
    Evolves(s, s') && DataOk(cfg, s, s') && ActivitiesOk(cfg, s, s') && BrokerOk(s, s')
  }

  lemma GoodStepsKeepInv(cfg: Config, s: State, s': State)
    requires Inv(cfg, s) && Good(cfg, s, s')
    ensures Inv(cfg, s')
  {
    RowsKept(cfg, s, s');
    ObjectsKept(cfg, s, s');
    RequestsKept(s, s');
    AttemptsKept(cfg, s, s');
    BrokerKept(s, s');
  }
}
