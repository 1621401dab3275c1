/** What a step of one avatar's activity leaves alone, and how the counter header moves. */
module LifecycleLocality {
  import opened Domain
  import opened Repository
  import opened Lifecycle
  import opened LifecycleInvariant
  import opened LifecycleEffects
  import opened LifecycleSteps
  import opened LifecycleTheorems
  import Retry

  /** The call an action makes to the table, the store or the broker. */
  function EffectOf(cfg: Config, s: State, a: Action): Effect
    requires cfg.Valid()
  {
    match a
    case UploadStep(id, o) => if id in s.uploads then UploadTurn(s, id, o).effect else Nothing
    case DeleteStep(d, o, gone) => if d in s.deletes then DeleteTurn(s, d, o, gone).effect else Nothing
    case AttemptStep(t, o, gone) => if t in s.attempts then AttemptTurn(cfg, s, t, o, gone).effect else Nothing
    case PassStep(p, o, picked) => if p in s.passes then PassTurn(cfg, s, p, o, picked).effect else Nothing
    case _ => Nothing
  }

  /** The shared systems are as the effect leaves them. */
  predicate Shows(s: State, s': State, e: Effect) {
    s'.rows == RowsAfter(s, e) && s'.objects == ObjectsAfter(s, e) && s'.dropped == Affect(s, e).dropped
  }

  lemma RequestShowsEffect(cfg: Config, s: State, a: Action)
    requires cfg.Valid() && (a.UploadStep? || a.DeleteStep?)
    ensures Shows(s, Step(cfg, s, a), EffectOf(cfg, s, a))
  {
  }

  lemma WorkerShowsEffect(cfg: Config, s: State, a: Action)
    requires cfg.Valid() && (a.AttemptStep? || a.PassStep?)
    ensures Shows(s, Step(cfg, s, a), EffectOf(cfg, s, a))
  {
  }

  lemma OccurrenceShowsNothing(cfg: Config, s: State, a: Action)
    ensures Shows(s, Occur(cfg, s, a), Nothing)
  {
  }

  lemma StepShowsEffect(cfg: Config, s: State, a: Action)
    requires cfg.Valid()
    ensures Shows(s, Step(cfg, s, a), EffectOf(cfg, s, a))
  {
    if a.UploadStep? || a.DeleteStep? { RequestShowsEffect(cfg, s, a); }
    else if a.AttemptStep? || a.PassStep? { WorkerShowsEffect(cfg, s, a); }
    else { OccurrenceShowsNothing(cfg, s, a); }
  }

  /** The avatar whose request or delivery takes the step. */
  predicate ActsFor(s: State, a: Action, id: Id) {
    match a
    case UploadStep(u, _) => u == id
    case DeleteStep(d, _, _) => d in s.deletes && s.deletes[d].id == id
    case AttemptStep(t, _, _) => t in s.attempts && s.attempts[t].event.id == id
    case _ => false
  }

  /** The effect reaches no row and no object of the avatar, except that stale uploads are failed in bulk. */
  predicate Spares(e: Effect, id: Id) {
    match e
    case InsertRow(i, _, _) => i != id
    case WriteRow(i, _) => i != id
    case StoreObject(k, _) => k.id != id
    case RemoveObjects(keys) => forall k :: k in keys ==> k.id != id
    case _ => true
  }

  lemma RequestSparesOthers(cfg: Config, s: State, a: Action, id: Id)
    requires cfg.Valid() && !a.AttemptStep? && !ActsFor(s, a, id)
    ensures Spares(EffectOf(cfg, s, a), id)
  {
    if a.DeleteStep? && a.act in s.deletes { StorageKeysAreAllKeysOfTheId(s.deletes[a.act].id); }
  }

  lemma AttemptSparesOthers(cfg: Config, s: State, t: nat, o: Outcome, gone: set<Key>, id: Id)
    requires cfg.Valid() && t in s.attempts && s.attempts[t].event.id != id
    requires EventOk(s, s.attempts[t].event) && PcOk(cfg, s, s.attempts[t])
    ensures Spares(AttemptTurn(cfg, s, t, o, gone).effect, id)
  {
    StorageKeysAreAllKeysOfTheId(s.attempts[t].event.id);
  }

  lemma StepSparesOthers(cfg: Config, s: State, a: Action, id: Id)
    requires cfg.Valid() && Inv(cfg, s) && !ActsFor(s, a, id)
    ensures Spares(EffectOf(cfg, s, a), id)
  {
    if a.AttemptStep? && a.act in s.attempts {
      AttemptKnows(cfg, s, a.act);
      AttemptSparesOthers(cfg, s, a.act, a.outcome, a.gone, id);
    } else if !a.AttemptStep? {
      RequestSparesOthers(cfg, s, a, id);
    }
  }

  /**
   * Isolation: an activity changes the objects of its own avatar only, so cleaning one avatar
   * leaves the files of all others as they are; it changes no other row either, except that a
   * reconciler pass fails stale uploads.
   */
  lemma OthersAreUnchanged(cfg: Config, s: State, a: Action, id: Id)
    requires cfg.Valid() && Reachable(cfg, s) && !ActsFor(s, a, id)
    ensures var s' := Step(cfg, s, a);
      && (forall k: Key :: k.id == id ==>
            (k in s'.objects <==> k in s.objects) && (k in s.objects ==> s'.objects[k] == s.objects[k]))
      && (id in s'.rows <==> id in s.rows)
      && (id in s.rows && s'.rows[id] != s.rows[id] ==>
            a.PassStep? && s.rows[id].upload == Uploading && s'.rows[id].upload == UploadFailed)
  {
    ReachableInv(cfg, s);
    StepSparesOthers(cfg, s, a, id);
    StepShowsEffect(cfg, s, a);
    OnlyPassesFailStale(cfg, s, a);
  }

  lemma OnlyPassesFailStale(cfg: Config, s: State, a: Action)
    requires cfg.Valid()
    ensures EffectOf(cfg, s, a).FailStale? ==> a.PassStep?
  {
  }

  // The counter header

  predicate CopyCounted(c: Copy) {
    c.place.DeadQueue? || c.attempts < Retry.MAX_ATTEMPTS
  }

  predicate AttemptCounted(copies: map<nat, Copy>, next: nat, a: Attempt) {
    && a.final == Retry.IsFinal(a.number)
    && a.copy < next
    && (a.copy in copies ==> copies[a.copy].attempts < a.number)
  }

  /**
   * Copies outside the dead queue have attempts left, and an attempt counts one more than the
   * copy it was started from.
   */
  predicate CountersOk(s: State) {
    && (forall c :: c in s.copies ==> c < s.next && CopyCounted(s.copies[c]))
    && (forall t :: t in s.attempts ==> AttemptCounted(s.copies, s.next, s.attempts[t]))
  }

  predicate SameCounter(c: Copy, c': Copy) {
    c'.mid == c.mid && c'.event == c.event && c'.attempts == c.attempts && c.deaths <= c'.deaths
  }

  /** A new copy starts from nothing or forwards an attempt. */
  predicate Begot(cfg: Config, s: State, c: nat, copy: Copy)
    requires cfg.Valid()
  {
    || (copy.mid == c && copy.attempts == 0)
    || (exists t :: t in s.attempts && copy == ForwardedCopy(cfg, s.attempts[t]))
  }

  /** A copy keeps its header for life, and every other copy is accounted for. */
  ghost predicate HeadersKept(cfg: Config, s: State, s': State)
    requires cfg.Valid()
  {
    && (forall c :: c in s.copies && c in s'.copies ==> SameCounter(s.copies[c], s'.copies[c]))
    && (forall c :: c in s'.copies && c !in s.copies ==> c >= s.next && c < s'.next && Begot(cfg, s, c, s'.copies[c]))
  }

  lemma BegotIsCounted(cfg: Config, s: State, c: nat, copy: Copy)
    requires cfg.Valid() && CountersOk(s) && Begot(cfg, s, c, copy)
    ensures CopyCounted(copy)
  {
  }

  /** Places may change, except that nothing leaves the dead queue. */
  lemma HeadersKeptKeepCounters(cfg: Config, s: State, s': State)
    requires cfg.Valid() && CountersOk(s) && HeadersKept(cfg, s, s') && s.next <= s'.next
    requires forall c :: c in s.copies && c in s'.copies && s.copies[c].place.DeadQueue? ==>
               s'.copies[c].place.DeadQueue?
    requires forall t :: t in s'.attempts ==>
               AttemptCounted(s'.copies, s'.next, s'.attempts[t])
                 || (t in s.attempts && s'.attempts[t].(pc := s.attempts[t].pc) == s.attempts[t])
    ensures CountersOk(s')
  {
    forall c | c in s'.copies && c !in s.copies ensures CopyCounted(s'.copies[c]) {
      BegotIsCounted(cfg, s, c, s'.copies[c]);
    }
  }

  /** An effect on the broker forwards an attempt, or rejects a copy that is being handled. */
  ghost predicate BrokerEffectOk(cfg: Config, s: State, e: Effect)
    requires cfg.Valid()
  {
    && (e.ForwardCopy? ==> exists t :: t in s.attempts && e.copy == ForwardedCopy(cfg, s.attempts[t]))
    && (e.RejectCopy? ==> e.c !in s.copies || s.copies[e.c].place.Unacked?)
  }

  lemma EffectKeepsHeaders(cfg: Config, s: State, e: Effect, s': State)
    requires cfg.Valid() && CountersOk(s) && BrokerEffectOk(cfg, s, e)
    requires s'.copies == CopiesAfter(s, e) && s'.next == Affect(s, e).next
    requires SameAttempts(s, s')
    ensures CountersOk(s') && HeadersKept(cfg, s, s')
  {
    HeadersKeptKeepCounters(cfg, s, s');
  }

  lemma TurnIsBrokered(cfg: Config, s: State, a: Action)
    requires cfg.Valid()
    ensures BrokerEffectOk(cfg, s, EffectOf(cfg, s, a))
  {
  }

  /** The attempts are the same as before, up to where they have got to. */
  predicate SameAttempts(s: State, s': State) {
    forall t :: t in s'.attempts ==> t in s.attempts && s'.attempts[t].(pc := s.attempts[t].pc) == s.attempts[t]
  }

  lemma ServerShowsCopies(cfg: Config, s: State, a: Action)
    requires cfg.Valid() && (a.UploadStep? || a.DeleteStep?)
    ensures var s', e := Step(cfg, s, a), EffectOf(cfg, s, a);
      s'.copies == CopiesAfter(s, e) && s'.next == Affect(s, e).next && s'.attempts == s.attempts
  {
  }

  lemma PassShowsCopies(cfg: Config, s: State, a: Action)
    requires cfg.Valid() && a.PassStep?
    ensures var s', e := Step(cfg, s, a), EffectOf(cfg, s, a);
      s'.copies == CopiesAfter(s, e) && s'.next == Affect(s, e).next && s'.attempts == s.attempts
  {
  }

  lemma RequestShowsCopies(cfg: Config, s: State, a: Action)
    requires cfg.Valid() && (a.UploadStep? || a.DeleteStep? || a.PassStep?)
    ensures var s', e := Step(cfg, s, a), EffectOf(cfg, s, a);
      s'.copies == CopiesAfter(s, e) && s'.next == Affect(s, e).next && s'.attempts == s.attempts
  {
    if a.PassStep? { PassShowsCopies(cfg, s, a); } else { ServerShowsCopies(cfg, s, a); }
  }

  lemma AttemptShowsCopies(cfg: Config, s: State, t: nat, turn: Turn<AttemptPc>)
    requires t in s.attempts
    ensures var s' := TakeTurn(s, t, turn);
      s'.copies == CopiesAfter(s, turn.effect) && s'.next == Affect(s, turn.effect).next && SameAttempts(s, s')
  {
  }

  lemma TurnKeepsHeaders(cfg: Config, s: State, a: Action)
    requires cfg.Valid() && CountersOk(s) && (a.UploadStep? || a.DeleteStep? || a.AttemptStep? || a.PassStep?)
    ensures CountersOk(Step(cfg, s, a)) && HeadersKept(cfg, s, Step(cfg, s, a))
  {
    TurnIsBrokered(cfg, s, a);
    if !a.AttemptStep? {
      RequestShowsCopies(cfg, s, a);
    } else if a.act in s.attempts {
      AttemptShowsCopies(cfg, s, a.act, AttemptTurn(cfg, s, a.act, a.outcome, a.gone));
    }
    EffectKeepsHeaders(cfg, s, EffectOf(cfg, s, a), Step(cfg, s, a));
  }

  lemma CopiesKeepHeaders(s: State, a: Action, c: nat)
    requires c in s.copies
    ensures c in CopiesThen(s, a) && SameCounter(s.copies[c], CopiesThen(s, a)[c])
    ensures s.copies[c].place.DeadQueue? ==> CopiesThen(s, a)[c].place.DeadQueue?
  {
  }

  lemma AttemptsKeepCounters(s: State, a: Action, t: nat)
    requires CountersOk(s) && t in AttemptsThen(s, a)
    ensures AttemptCounted(CopiesThen(s, a), s.next + 1, AttemptsThen(s, a)[t])
    ensures !Delivers(s, a) ==> AttemptCounted(CopiesThen(s, a), s.next, AttemptsThen(s, a)[t])
  {
    var c := AttemptsThen(s, a)[t].copy;
    if c in CopiesThen(s, a) {
      assert c in s.copies;
      CopiesKeepHeaders(s, a, c);
    }
  }

  lemma OccurrenceKeepsHeaders(cfg: Config, s: State, a: Action)
    requires cfg.Valid() && CountersOk(s)
    ensures CountersOk(Occur(cfg, s, a)) && HeadersKept(cfg, s, Occur(cfg, s, a))
  {
    var s' := Occur(cfg, s, a);
    forall c | c in s.copies ensures c in s'.copies && SameCounter(s.copies[c], s'.copies[c])
      && (s.copies[c].place.DeadQueue? ==> s'.copies[c].place.DeadQueue?)
    {
      CopiesKeepHeaders(s, a, c);
    }
    forall t | t in s'.attempts ensures AttemptCounted(s'.copies, s'.next, s'.attempts[t]) {
      AttemptsKeepCounters(s, a, t);
    }
    HeadersKeptKeepCounters(cfg, s, s');
  }

  lemma StepKeepsHeaders(cfg: Config, s: State, a: Action)
    requires cfg.Valid() && CountersOk(s)
    ensures CountersOk(Step(cfg, s, a)) && HeadersKept(cfg, s, Step(cfg, s, a))
  {
    if a.UploadStep? || a.DeleteStep? || a.AttemptStep? || a.PassStep? { TurnKeepsHeaders(cfg, s, a); }
    else { OccurrenceKeepsHeaders(cfg, s, a); }
  }

  lemma {:induction false} RunKeepsCounters(cfg: Config, s: State, actions: seq<Action>)
    requires cfg.Valid() && CountersOk(s)
    ensures CountersOk(Run(cfg, s, actions))
    decreases |actions|
  {
    if actions != [] {
      StepKeepsHeaders(cfg, s, actions[0]);
      RunKeepsCounters(cfg, Step(cfg, s, actions[0]), actions[1..]);
    }
  }

  /**
   * The counter never goes back along the lineage of a copy. In every run, a copy keeps its header
   * as long as it exists, and a copy that appears is either a new message or forwards an attempt:
   * then its header exceeds that of the copy the attempt was started from, and it lies in the dead
   * queue exactly when it has used up its attempts.
   */
  lemma HeadersNeverDecrease(cfg: Config, s: State, a: Action, c: nat)
    requires cfg.Valid() && Reachable(cfg, s) && c in Step(cfg, s, a).copies
    ensures var copy := Step(cfg, s, a).copies[c];
      && (copy.place.DeadQueue? || copy.attempts < Retry.MAX_ATTEMPTS)
      && if c in s.copies then SameCounter(s.copies[c], copy)
         else
           || (copy.mid == c && copy.attempts == 0)
           || (exists t :: t in s.attempts && copy.mid == s.attempts[t].mid && copy.event == s.attempts[t].event
                && (s.attempts[t].copy in s.copies ==> s.copies[s.attempts[t].copy].attempts < copy.attempts)
                && (copy.place.DeadQueue? <==> copy.attempts >= Retry.MAX_ATTEMPTS))
  {
    var now, actions :| s == Run(cfg, Initial(now), actions);
    RunKeepsCounters(cfg, Initial(now), actions);
    StepKeepsHeaders(cfg, s, a);
    var copy := Step(cfg, s, a).copies[c];
    if c !in s.copies && !(copy.mid == c && copy.attempts == 0) {
      var t :| t in s.attempts && copy == ForwardedCopy(cfg, s.attempts[t]);
      assert AttemptCounted(s.copies, s.next, s.attempts[t]);
    }
  }
}
