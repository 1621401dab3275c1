/**
 * The avatar lifecycle: server requests, worker deliveries and reconciler passes that share a
 * table, an object store and a broker but no transaction.
 *
 * Every activity is a program counter, and every call to the table, the store or the broker is one
 * step of its own. The order of steps is arbitrary, each call may fail before or after its effect,
 * every activity may die between two calls, and unsettled deliveries may come back at any time.
 */
module Lifecycle {
  import opened Domain
  import opened Repository
  import Retry

  type Bytes = seq<int>

  /**
   * `render` stands for the image processor: it either yields thumbnails or rejects the bytes.
   * `levels` is the length of the retry ladder.
   */
  datatype Config = Config(
    render: Bytes -> Option<map<ThumbnailSize, Bytes>>,
    maxOriginalBytes: nat,
    levels: nat,
    stuckAfter: nat,
    batch: nat)
  {
    predicate Valid() { levels > 0 && batch > 0 }
  }

  /** What a call reports: success, failure without effect, or failure after the effect. */
  datatype Outcome = Ok | Fail | Lost

  // Messages

  datatype Event =
    | UploadEvent(id: Id)
    | DeleteEvent(id: Id, keys: seq<Key>)

  /** Where a copy of a message is. An unacked copy names the attempt it was delivered to. */
  datatype Place = MainQueue | Unacked(attempt: nat) | Rung(level: nat) | DeadQueue

  /**
   * History of a lineage of copies: how often it was delivered, rejected by the consumer, and
   * requeued by the broker because a delivery went unsettled.
   */
  datatype Tally = Tally(deliveries: nat, rejections: nat, requeues: nat)

  /**
   * A copy of the message `mid`. `attempts` is the consumer's counter header, 0 when absent;
   * `deaths` is the sum of the broker's death counters.
   */
  datatype Copy = Copy(mid: nat, event: Event, attempts: nat, deaths: nat, place: Place, tally: Tally)

  function AttemptOf(c: Copy): nat {
    Retry.AttemptFrom(Retry.Bounded(c.attempts), c.deaths)
  }

  // Activities

  datatype UploadPc =
    | Creating(user: string, bytes: Bytes)
    | PuttingOriginal(bytes: Bytes)
    | MarkingUploaded
    | CheckingUploaded
    | MarkingFailed
    | PublishingUpload

  datatype DeletePc =
    | Reading(id: Id, requester: string)
    | SoftDeleting(id: Id)
    | PublishingDelete(id: Id)
    | DeletingFiles(id: Id)
    | MarkingRemoved(id: Id)

  /** What a handler returns to the consumer. */
  datatype Result = Nil | Retryable | NonRetryable

  datatype AttemptPc =
    // avatar.uploaded
    | Getting
    | Starting
    | CheckingStart
    | Rendering
    | Storing(next: nat, thumbs: map<ThumbnailSize, Bytes>, keys: map<ThumbnailSize, Key>)
    | CheckingComplete(keys: map<ThumbnailSize, Key>)
    | RemovingThumbs(keys: map<ThumbnailSize, Key>)
    | Failing(error: Result)
    | CheckingFailed(error: Result)
    // avatar.deleted
    | Cleaning
    | MarkingCleaned
    // settlement by the consumer
    | Returned(result: Result)
    | AckingForwarded
    | Rejecting

  /** One delivery of a copy; `tally` is the lineage's, this delivery included. */
  datatype Attempt = Attempt(copy: nat, mid: nat, event: Event, final: bool, number: nat, pc: AttemptPc, tally: Tally)

  datatype PassPc =
    | FailingStale(before: nat)
    | SelectingStuck(before: nat)
    | Republishing(before: nat, rest: seq<Id>)
    | RepublishingCleanups(rest: seq<Id>)

  /**
   * `born`, `sent`, `settled` and `dropped` are history: the bytes each avatar was created with,
   * every event that reached the broker, the messages acknowledged after the handler returned nil
   * or a non-retryable error, and the avatars that were not finished when their final attempt failed
   * for good but could not write the failed status.
   */
  datatype State = State(
    now: nat,
    rows: map<Id, Row>,
    objects: map<Key, Bytes>,
    copies: map<nat, Copy>,
    next: nat,
    uploads: map<Id, UploadPc>,
    deletes: map<nat, DeletePc>,
    attempts: map<nat, Attempt>,
    passes: map<nat, PassPc>,
    born: map<Id, Bytes>,
    sent: map<nat, Event>,
    settled: set<nat>,
    dropped: set<Id>)

  function Initial(now: nat): State {
    State(now, map[], map[], map[], 0, map[], map[], map[], map[], map[], map[], {}, {})
  }

  /**
   * One step of one activity, or one event of the environment. `gone` names the objects a failed
   * deletion has removed all the same; `picked` is what a reconciler query returned.
   */
  datatype Action =
    | Tick
    | BeginUpload(id: Id, user: string, bytes: Bytes)
    | UploadStep(id: Id, outcome: Outcome)
    | KillUpload(id: Id)
    | BeginDelete(id: Id, requester: string)
    | DeleteStep(act: nat, outcome: Outcome, gone: set<Key>)
    | KillDelete(act: nat)
    | Deliver(copy: nat)
    | AttemptStep(act: nat, outcome: Outcome, gone: set<Key>)
    | Panic(act: nat)
    | KillAttempt(act: nat)
    | Requeue(copy: nat)
    | Expire(copy: nat)
    | BeginPass
    | PassStep(act: nat, outcome: Outcome, picked: seq<Id>)
    | KillPass(act: nat)

  /** The thumbnails of an original that is small enough to read and can be rendered. */
  function Rendered(cfg: Config, bytes: Bytes): Option<map<ThumbnailSize, Bytes>> {
    if |bytes| > cfg.maxOriginalBytes then None else cfg.render(bytes)
  }

  /** Keys of the thumbnails stored once the first n sizes have been dealt with. */
  function KeysUpTo(id: Id, thumbs: map<ThumbnailSize, Bytes>, n: nat): map<ThumbnailSize, Key>
    requires n <= |ThumbnailSizes()|
  {
    map z | z in thumbs && z in ThumbnailSizes()[..n] :: Thumb(id, z)
  }

  // Calls. A step is what one call does to the shared systems, and where the activity goes next.

  datatype Effect =
    | Nothing
    | InsertRow(id: Id, row: Row, bytes: Bytes)
    | WriteRow(id: Id, row: Row)
    | FailStale(before: nat)
    | StoreObject(key: Key, bytes: Bytes)
    | RemoveObjects(keys: set<Key>)
    | SendEvent(event: Event)
    | ForwardCopy(copy: Copy)
    | AckCopy(c: nat, mid: nat, settles: bool)
    | RejectCopy(c: nat)
    | NoteDropped(id: Id)

  /** The activity ends when there is no next point. */
  datatype Turn<Pc> = Turn(effect: Effect, next: Option<Pc>)

  function RowsAfter(s: State, e: Effect): map<Id, Row> {
    match e
    case InsertRow(id, r, _) => s.rows[id := r]
    case WriteRow(id, r) => s.rows[id := r]
    case FailStale(before) => map i | i in s.rows :: FailStaleUpload(s.rows[i], before, s.now)
    case _ => s.rows
  }

  function ObjectsAfter(s: State, e: Effect): map<Key, Bytes> {
    match e
    case StoreObject(k, bytes) => s.objects[k := bytes]
    case RemoveObjects(keys) => s.objects - keys
    case _ => s.objects
  }

  /** A rejected copy is dead-lettered to the first rung with its counter header unchanged. */
  function CopiesAfter(s: State, e: Effect): map<nat, Copy> {
    match e
    case SendEvent(event) => s.copies[s.next := Copy(s.next, event, 0, 0, MainQueue, Tally(0, 0, 0))]
    case ForwardCopy(copy) => s.copies[s.next := copy]
    case AckCopy(c, _, _) => s.copies - {c}
    case RejectCopy(c) => MovedCopies(s, c, Rejected)
    case _ => s.copies
  }

  datatype Move = Delivered(attempt: nat) | Rejected | Requeued | Expired

  function Moved(c: Copy, move: Move): Copy {
    match move
    case Delivered(t) => c.(place := Unacked(t), tally := c.tally.(deliveries := c.tally.deliveries + 1))
    case Rejected => c.(place := Rung(0), deaths := c.deaths + 1,
      tally := c.tally.(rejections := c.tally.rejections + 1))
    case Requeued => c.(place := MainQueue, tally := c.tally.(requeues := c.tally.requeues + 1))
    case Expired => c.(place := MainQueue, deaths := c.deaths + 1)
  }

  function MovedCopies(s: State, c: nat, move: Move): map<nat, Copy> {
    if c in s.copies then s.copies[c := Moved(s.copies[c], move)] else s.copies
  }

  function Affect(s: State, e: Effect): State {
    s.(rows := RowsAfter(s, e),
       objects := ObjectsAfter(s, e),
       copies := CopiesAfter(s, e),
       next := if e.SendEvent? || e.ForwardCopy? then s.next + 1 else s.next,
       born := if e.InsertRow? then s.born[e.id := e.bytes] else s.born,
       sent := if e.SendEvent? then s.sent[s.next := e.event] else s.sent,
       settled := if e.AckCopy? && e.settles then s.settled + {e.mid} else s.settled,
       dropped := if e.NoteDropped? then s.dropped + {e.id} else s.dropped)
  }

  /** An UPDATE that takes effect and matches its row writes it; any other leaves the table alone. */
  function Written(o: Outcome, id: Id, r: Option<Row>): Effect {
    if o != Fail && r.Some? then WriteRow(id, r.value) else Nothing
  }

  function Sent(o: Outcome, e: Event): Effect {
    if o != Fail then SendEvent(e) else Nothing
  }

  function Stored(o: Outcome, k: Key, bytes: Bytes): Effect {
    if o != Fail then StoreObject(k, bytes) else Nothing
  }

  /** A successful deletion removes all of the keys, a failed one any part of them. */
  function Removed(o: Outcome, keys: set<Key>, gone: set<Key>): Effect {
    RemoveObjects(if o == Ok then keys else keys * gone)
  }

  function KeySet(keys: seq<Key>): set<Key> {
    set k | k in keys
  }

  // Server: upload

  function UploadTurn(s: State, id: Id, o: Outcome): Turn<UploadPc>
    requires id in s.uploads
  {
    match s.uploads[id]
    case Creating(user, bytes) =>
      // The primary key rejects an identifier that is already taken.
      if o == Fail || id in s.rows then Turn(Nothing, None)
      else Turn(InsertRow(id, Insert(user, s.now), bytes), if o == Ok then Some(PuttingOriginal(bytes)) else None)
    case PuttingOriginal(bytes) =>
      Turn(Stored(o, Original(id), bytes), Some(if o == Ok then MarkingUploaded else MarkingFailed))
    case MarkingUploaded =>
      var r := if id in s.rows then SetUploadStatus(s.rows[id], Uploaded, s.now) else None;
      Turn(Written(o, id, r),
        Some(if o != Ok then MarkingFailed else if r.Some? then PublishingUpload else CheckingUploaded))
    case CheckingUploaded =>
      // Whatever the second read says, the transition did not happen.
      Turn(Nothing, Some(MarkingFailed))
    case MarkingFailed =>
      Turn(Written(o, id, if id in s.rows then SetUploadStatus(s.rows[id], UploadFailed, s.now) else None), None)
    case PublishingUpload =>
      // A failed publication does not fail the upload: the reconciler republishes.
      Turn(Sent(o, UploadEvent(id)), None)
  }

  function StepUpload(s: State, id: Id, o: Outcome): State
    requires id in s.uploads
  {
    var turn := UploadTurn(s, id, o);
    Affect(s, turn.effect).(
      uploads := if turn.next.Some? then s.uploads[id := turn.next.value] else s.uploads - {id})
  }

  // Server: delete

  function DeleteTurn(s: State, d: nat, o: Outcome, gone: set<Key>): Turn<DeletePc>
    requires d in s.deletes
  {
    match s.deletes[d]
    case Reading(id, requester) =>
      var mine := o == Ok && id in s.rows && s.rows[id].Live() && s.rows[id].user == requester;
      Turn(Nothing, if mine then Some(SoftDeleting(id)) else None)
    case SoftDeleting(id) =>
      var r := if id in s.rows then SoftDelete(s.rows[id], s.now) else None;
      Turn(Written(o, id, r), if o == Ok && r.Some? then Some(PublishingDelete(id)) else None)
    case PublishingDelete(id) =>
      Turn(Sent(o, DeleteEvent(id, StorageKeys(id))), if o == Ok then None else Some(DeletingFiles(id)))
    case DeletingFiles(id) =>
      Turn(Removed(o, KeySet(StorageKeys(id)), gone), if o == Ok then Some(MarkingRemoved(id)) else None)
    case MarkingRemoved(id) =>
      Turn(Written(o, id, if id in s.rows then Some(MarkFilesRemoved(s.rows[id], s.now)) else None), None)
  }

  function StepDelete(s: State, d: nat, o: Outcome, gone: set<Key>): State
    requires d in s.deletes
  {
    var turn := DeleteTurn(s, d, o, gone);
    Affect(s, turn.effect).(
      deletes := if turn.next.Some? then s.deletes[d := turn.next.value] else s.deletes - {d})
  }

  // Worker: one delivery

  function UploadedTurn(cfg: Config, s: State, a: Attempt, o: Outcome, gone: set<Key>): Turn<AttemptPc>
    requires a.event.UploadEvent?
  {
    var id := a.event.id;
    match a.pc
    case Getting =>
      Turn(Nothing, Some(
        if o != Ok then Failing(Retryable)
        else if id !in s.rows || s.rows[id].Finished() then Returned(Nil)
        else Starting))
    case Starting =>
      var r := if id in s.rows then SetProcessingStatus(s.rows[id], Processing, s.now) else None;
      Turn(Written(o, id, r),
        Some(if o != Ok then Failing(Retryable) else if r.Some? then Rendering else CheckingStart))
    case CheckingStart =>
      // Gone or changed meanwhile: there is nothing to do in either case.
      Turn(Nothing, Some(if o == Ok then Returned(Nil) else Failing(Retryable)))
    case Rendering =>
      Turn(Nothing, Some(if o == Ok then AfterReading(cfg, s, id) else Failing(Retryable)))
    case Storing(n, thumbs, keys) =>
      if n < |ThumbnailSizes()| then StoringTurn(id, o, n, thumbs, keys)
      else
        var r := if id in s.rows then CompleteProcessing(s.rows[id], keys, s.now) else None;
        Turn(Written(o, id, r),
          Some(if o != Ok then Failing(Retryable) else if r.Some? then Returned(Nil) else CheckingComplete(keys)))
    case CheckingComplete(keys) =>
      Turn(Nothing, Some(
        if o != Ok then Failing(Retryable)
        else if id in s.rows && s.rows[id].Live() then Returned(Nil)
        else RemovingThumbs(keys)))
    case RemovingThumbs(keys) =>
      Turn(Removed(o, keys.Values, gone), Some(Failing(NonRetryable)))
    case Failing(error) => FailingTurn(s, a, o, error)
    case CheckingFailed(error) =>
      Turn(Nothing, Some(Returned(if o == Ok || a.final then error else Retryable)))
    case _ => Turn(Nothing, Some(a.pc))
  }

  /** The original is read and rendered; a missing, oversized or broken one is beyond repair. */
  function AfterReading(cfg: Config, s: State, id: Id): AttemptPc {
    if Original(id) !in s.objects then Failing(NonRetryable)
    else
      match Rendered(cfg, s.objects[Original(id)])
      case None => Failing(NonRetryable)
      case Some(thumbs) => Storing(0, thumbs, map[])
  }

  function StoringTurn(id: Id, o: Outcome, n: nat, thumbs: map<ThumbnailSize, Bytes>,
                       keys: map<ThumbnailSize, Key>): Turn<AttemptPc>
    requires n < |ThumbnailSizes()|
  {
    var z := ThumbnailSizes()[n];
    if z !in thumbs then Turn(Nothing, Some(Storing(n + 1, thumbs, keys)))
    else
      Turn(Stored(o, Thumb(id, z), thumbs[z]),
        Some(if o == Ok then Storing(n + 1, thumbs, keys[z := Thumb(id, z)]) else Failing(Retryable)))
  }

  /**
   * A retryable error short of the last attempt only counts the retry. Any other error writes the
   * failed status; if that write is refused for a reason other than the row's own state, the
   * error becomes retryable, except on the last attempt, where it is returned as it is.
   */
  function FailingTurn(s: State, a: Attempt, o: Outcome, error: Result): Turn<AttemptPc> {
    var id := a.event.id;
    if error == Retryable && !a.final then
      Turn(Written(o, id, if id in s.rows then IncrementRetry(s.rows[id], s.now) else None), Some(Returned(Retryable)))
    else
      var r := if id in s.rows then SetProcessingStatus(s.rows[id], ProcessingFailed, s.now) else None;
      Turn(if o == Fail && a.final && error == NonRetryable && r.Some? then NoteDropped(id) else Written(o, id, r),
        Some(if o != Ok then Returned(if a.final then error else Retryable)
             else if r.Some? then Returned(error) else CheckingFailed(error)))
  }

  function DeletedTurn(s: State, a: Attempt, o: Outcome, gone: set<Key>): Turn<AttemptPc>
    requires a.event.DeleteEvent?
  {
    var id := a.event.id;
    match a.pc
    case Cleaning =>
      if a.event.keys == [] then Turn(Nothing, Some(Returned(NonRetryable)))
      else
        Turn(Removed(o, KeySet(a.event.keys), gone), Some(if o == Ok then MarkingCleaned else Returned(Retryable)))
    case MarkingCleaned =>
      var r := if id in s.rows then Some(MarkFilesRemoved(s.rows[id], s.now)) else None;
      Turn(Written(o, id, r), Some(Returned(if o != Ok then Retryable else if r.Some? then Nil else NonRetryable)))
    case _ => Turn(Nothing, Some(a.pc))
  }

  predicate Settling(pc: AttemptPc) {
    pc.Returned? || pc.AckingForwarded? || pc.Rejecting?
  }

  /** The copy a retryable failure is forwarded as: counted, and on its rung or in the dead queue. */
  function ForwardedCopy(cfg: Config, a: Attempt): Copy
    requires cfg.Valid()
  {
    Copy(a.mid, a.event, a.number, 0, if a.final then DeadQueue else Rung(Retry.RungFor(cfg.levels, a.number)), a.tally)
  }

  /** The broker takes settlements only from the attempt that holds the copy. */
  predicate Holds(s: State, t: nat, c: nat) {
    c in s.copies && s.copies[c].place == Unacked(t)
  }

  /**
   * The consumer's side: nil and non-retryable errors are acknowledged, anything else is forwarded
   * first; if forwarding fails, the delivery is rejected.
   */
  function SettlingTurn(cfg: Config, s: State, t: nat, a: Attempt, o: Outcome): Turn<AttemptPc>
    requires cfg.Valid()
  {
    var landed := o != Fail && Holds(s, t, a.copy);
    match a.pc
    case Returned(result) =>
      if result == Retryable then
        Turn(if o != Fail then ForwardCopy(ForwardedCopy(cfg, a)) else Nothing,
          Some(if o == Ok then AckingForwarded else Rejecting))
      else
        Turn(if landed then AckCopy(a.copy, a.mid, true) else Nothing, None)
    case AckingForwarded => Turn(if landed then AckCopy(a.copy, a.mid, false) else Nothing, None)
    case Rejecting => Turn(if landed then RejectCopy(a.copy) else Nothing, None)
    case _ => Turn(Nothing, Some(a.pc))
  }

  function AttemptTurn(cfg: Config, s: State, t: nat, o: Outcome, gone: set<Key>): Turn<AttemptPc>
    requires cfg.Valid() && t in s.attempts
  {
    var a := s.attempts[t];
    if Settling(a.pc) then SettlingTurn(cfg, s, t, a, o)
    else if a.event.UploadEvent? then UploadedTurn(cfg, s, a, o, gone)
    else DeletedTurn(s, a, o, gone)
  }

  function TakeTurn(s: State, t: nat, turn: Turn<AttemptPc>): State
    requires t in s.attempts
  {
    Affect(s, turn.effect).(
      attempts := if turn.next.Some? then s.attempts[t := s.attempts[t].(pc := turn.next.value)] else s.attempts - {t})
  }

  function StepAttempt(cfg: Config, s: State, t: nat, o: Outcome, gone: set<Key>): State
    requires cfg.Valid() && t in s.attempts
  {
    TakeTurn(s, t, AttemptTurn(cfg, s, t, o, gone))
  }

  /** A delivery is an attempt of its own, numbered from the headers of the copy. */
  function NewAttempt(c: nat, copy: Copy): Attempt {
    var number := AttemptOf(copy);
    Attempt(c, copy.mid, copy.event, Retry.IsFinal(number), number,
      if copy.event.UploadEvent? then Getting else Cleaning,
      copy.tally.(deliveries := copy.tally.deliveries + 1))
  }

  // Worker: reconciler pass

  /** Rows last changed before this moment have waited long enough. */
  function Cutoff(cfg: Config, now: nat): nat {
    if now < cfg.stuckAfter then 0 else now - cfg.stuckAfter
  }

  predicate PicksStuck(cfg: Config, s: State, before: nat, picked: seq<Id>) {
    |picked| <= cfg.batch && forall id :: id in picked ==> id in s.rows && Stuck(s.rows[id], before)
  }

  predicate PicksUncleaned(cfg: Config, s: State, before: nat, picked: seq<Id>) {
    |picked| <= cfg.batch && forall id :: id in picked ==> id in s.rows && Uncleaned(s.rows[id], before)
  }

  function PassTurn(cfg: Config, s: State, p: nat, o: Outcome, picked: seq<Id>): Turn<PassPc>
    requires p in s.passes
  {
    match s.passes[p]
    case FailingStale(before) =>
      Turn(if o != Fail then FailStale(before) else Nothing, Some(SelectingStuck(before)))
    case SelectingStuck(before) =>
      Turn(Nothing, Some(Republishing(before, if o == Ok && PicksStuck(cfg, s, before, picked) then picked else [])))
    case Republishing(before, rest) =>
      if rest == [] then
        var selected := o == Ok && PicksUncleaned(cfg, s, before, picked);
        Turn(Nothing, if selected then Some(RepublishingCleanups(picked)) else None)
      else
        // The first failed publication ends the loop; the next pass picks up the remainder.
        Turn(Sent(o, UploadEvent(rest[0])), Some(Republishing(before, if o == Ok then rest[1..] else [])))
    case RepublishingCleanups(rest) =>
      if rest == [] then Turn(Nothing, None)
      else
        Turn(Sent(o, DeleteEvent(rest[0], StorageKeys(rest[0]))),
          if o == Ok then Some(RepublishingCleanups(rest[1..])) else None)
  }

  function StepPass(cfg: Config, s: State, p: nat, o: Outcome, picked: seq<Id>): State
    requires p in s.passes
  {
    var turn := PassTurn(cfg, s, p, o, picked);
    Affect(s, turn.effect).(
      passes := if turn.next.Some? then s.passes[p := turn.next.value] else s.passes - {p})
  }

  // Everything else: activities begin and end, and copies move in the broker.

  predicate Delivers(s: State, a: Action) {
    a.Deliver? && a.copy in s.copies && s.copies[a.copy].place.MainQueue?
  }

  function UploadsThen(s: State, a: Action): map<Id, UploadPc> {
    match a
    case BeginUpload(id, user, bytes) =>
      if id in s.uploads || !WellFormed(id) then s.uploads else s.uploads[id := Creating(user, bytes)]
    case KillUpload(id) => s.uploads - {id}
    case _ => s.uploads
  }

  function DeletesThen(s: State, a: Action): map<nat, DeletePc> {
    match a
    case BeginDelete(id, requester) => s.deletes[s.next := Reading(id, requester)]
    case KillDelete(d) => s.deletes - {d}
    case _ => s.deletes
  }

  function PassesThen(cfg: Config, s: State, a: Action): map<nat, PassPc> {
    match a
    case BeginPass => s.passes[s.next := FailingStale(Cutoff(cfg, s.now))]
    case KillPass(p) => s.passes - {p}
    case _ => s.passes
  }

  /** A panic is recovered by the consumer as a retryable error, without the handler's bookkeeping. */
  function AttemptsThen(s: State, a: Action): map<nat, Attempt> {
    match a
    case Deliver(c) => if Delivers(s, a) then s.attempts[s.next := NewAttempt(c, s.copies[c])] else s.attempts
    case Panic(t) =>
      if t in s.attempts && !Settling(s.attempts[t].pc) then s.attempts[t := s.attempts[t].(pc := Returned(Retryable))]
      else s.attempts
    case KillAttempt(t) => s.attempts - {t}
    case _ => s.attempts
  }

  function CopiesThen(s: State, a: Action): map<nat, Copy> {
    match a
    case Deliver(c) => if Delivers(s, a) then MovedCopies(s, c, Delivered(s.next)) else s.copies
    case Requeue(c) => if c in s.copies && s.copies[c].place.Unacked? then MovedCopies(s, c, Requeued) else s.copies
    case Expire(c) => if c in s.copies && s.copies[c].place.Rung? then MovedCopies(s, c, Expired) else s.copies
    case _ => s.copies
  }

  function Occur(cfg: Config, s: State, a: Action): State {
    s.(now := if a.Tick? then s.now + 1 else s.now,
       copies := CopiesThen(s, a),
       next := if a.BeginDelete? || a.BeginPass? || Delivers(s, a) then s.next + 1 else s.next,
       uploads := UploadsThen(s, a),
       deletes := DeletesThen(s, a),
       attempts := AttemptsThen(s, a),
       passes := PassesThen(cfg, s, a))
  }

  /** An action whose activity or copy is not in the required state changes nothing. */
  function Step(cfg: Config, s: State, a: Action): State
    requires cfg.Valid()
  {
    match a
    case UploadStep(id, o) => if id in s.uploads then StepUpload(s, id, o) else s
    case DeleteStep(d, o, gone) => if d in s.deletes then StepDelete(s, d, o, gone) else s
    case AttemptStep(t, o, gone) => if t in s.attempts then StepAttempt(cfg, s, t, o, gone) else s
    case PassStep(p, o, picked) => if p in s.passes then StepPass(cfg, s, p, o, picked) else s
    case _ => Occur(cfg, s, a)
  }

  function Run(cfg: Config, s: State, actions: seq<Action>): State
    requires cfg.Valid()
    decreases |actions|
  {
    if actions == [] then s else Run(cfg, Step(cfg, s, actions[0]), actions[1..])
  }

  lemma {:induction false} RunsCompose(cfg: Config, s: State, first: seq<Action>, second: seq<Action>)
    requires cfg.Valid()
    ensures Run(cfg, s, first + second) == Run(cfg, Run(cfg, s, first), second)
    decreases |first|
  {
    if first == [] {
      assert first + second == second;
    } else {
      assert (first + second)[1..] == first[1..] + second;
      RunsCompose(cfg, Step(cfg, s, first[0]), first[1..], second);
    }
  }

  lemma RunOfOne(cfg: Config, s: State, a: Action)
    requires cfg.Valid()
    ensures Run(cfg, s, [a]) == Step(cfg, s, a)
  {
    assert Run(cfg, s, [a]) == Run(cfg, Step(cfg, s, a), [a][1..]);
  }
}
