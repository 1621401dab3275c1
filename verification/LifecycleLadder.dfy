/**
 * The retry ladder in the protocol: how often a message can be handled. Along the lineage of a copy
 * every delivery is accounted for by a forwarding, a rejection or a requeue.
 */
module LifecycleLadder {
  import opened Domain
  import opened Repository
  import opened Lifecycle
  import opened LifecycleInvariant
  import opened LifecycleTheorems
  import opened LifecycleLocality
  import Retry

  function InHand(c: Copy): nat { if c.place.Unacked? then 1 else 0 }

  predicate CopyTallied(cfg: Config, c: Copy)
    requires cfg.Valid()
  {
    && c.tally.deliveries <= Min(c.attempts, Retry.MAX_ATTEMPTS) + c.tally.rejections + c.tally.requeues + InHand(c)
    && c.tally.rejections + c.tally.requeues + InHand(c) <= c.tally.deliveries
    && (c.tally.rejections == 0 ==>
          && c.tally.deliveries == c.attempts + c.tally.requeues + InHand(c)
          && c.attempts <= Retry.MAX_ATTEMPTS
          && (c.attempts == 0 ==> c.deaths == 0)
          && (c.place.Rung? ==> c.attempts >= 1 && c.place.level == Retry.RungFor(cfg.levels, c.attempts)))
    && (c.place.DeadQueue? ==> c.attempts >= Retry.MAX_ATTEMPTS)
  }

  predicate AttemptTallied(a: Attempt) {
    && a.final == Retry.IsFinal(a.number) && a.number >= 1
    && a.tally.deliveries <= Min(a.number, Retry.MAX_ATTEMPTS) + a.tally.rejections + a.tally.requeues
    && a.tally.rejections + a.tally.requeues < a.tally.deliveries
    && (a.tally.rejections == 0 ==>
          a.tally.deliveries == a.number + a.tally.requeues && a.number <= Retry.MAX_ATTEMPTS)
  }

  predicate Tallied(cfg: Config, s: State)
    requires cfg.Valid()
  {
    && (forall c :: c in s.copies ==> CopyTallied(cfg, s.copies[c]) && CopyCounted(s.copies[c]))
    && (forall t :: t in s.attempts ==> AttemptTallied(s.attempts[t]))
  }

  lemma MoveKeepsTally(cfg: Config, c: Copy, move: Move)
    requires cfg.Valid() && CopyTallied(cfg, c) && CopyCounted(c)
    requires match move
      case Delivered(_) => c.place.MainQueue?
      case Rejected => c.place.Unacked?
      case Requeued => c.place.Unacked?
      case Expired => c.place.Rung?
    ensures CopyTallied(cfg, Moved(c, move)) && CopyCounted(Moved(c, move))
  {
  }

  lemma DeliveryIsTallied(cfg: Config, c: nat, copy: Copy)
    requires cfg.Valid() && CopyTallied(cfg, copy) && CopyCounted(copy) && copy.place.MainQueue?
    ensures AttemptTallied(NewAttempt(c, copy))
  {
  }

  lemma ForwardIsTallied(cfg: Config, a: Attempt)
    requires cfg.Valid() && AttemptTallied(a)
    ensures CopyTallied(cfg, ForwardedCopy(cfg, a)) && CopyCounted(ForwardedCopy(cfg, a))
  {
  }

  lemma EffectKeepsTallies(cfg: Config, s: State, e: Effect, s': State)
    requires cfg.Valid() && Tallied(cfg, s) && BrokerEffectOk(cfg, s, e)
    requires s'.copies == CopiesAfter(s, e) && SameAttempts(s, s')
    ensures Tallied(cfg, s')
  {
    if e.ForwardCopy? {
      var t :| t in s.attempts && e.copy == ForwardedCopy(cfg, s.attempts[t]);
      ForwardIsTallied(cfg, s.attempts[t]);
    }
    if e.RejectCopy? && e.c in s.copies { MoveKeepsTally(cfg, s.copies[e.c], Rejected); }
  }

  lemma TurnKeepsTallies(cfg: Config, s: State, a: Action)
    requires cfg.Valid() && Tallied(cfg, s) && (a.UploadStep? || a.DeleteStep? || a.AttemptStep? || a.PassStep?)
    ensures Tallied(cfg, Step(cfg, s, a))
  {
    TurnIsBrokered(cfg, s, a);
    if !a.AttemptStep? {
      RequestShowsCopies(cfg, s, a);
    } else if a.act in s.attempts {
      AttemptShowsCopies(cfg, s, a.act, AttemptTurn(cfg, s, a.act, a.outcome, a.gone));
    }
    EffectKeepsTallies(cfg, s, EffectOf(cfg, s, a), Step(cfg, s, a));
  }

  lemma OccurrenceKeepsCopy(cfg: Config, s: State, a: Action, c: nat)
    requires cfg.Valid() && Tallied(cfg, s) && c in CopiesThen(s, a)
    ensures CopyTallied(cfg, CopiesThen(s, a)[c]) && CopyCounted(CopiesThen(s, a)[c])
  {
    if CopiesThen(s, a) != s.copies && c == a.copy {
      MoveKeepsTally(cfg, s.copies[c],
        if a.Deliver? then Delivered(s.next) else if a.Requeue? then Requeued else Expired);
    }
  }

  lemma OccurrenceKeepsAttempt(cfg: Config, s: State, a: Action, t: nat)
    requires cfg.Valid() && Tallied(cfg, s) && t in AttemptsThen(s, a)
    ensures AttemptTallied(AttemptsThen(s, a)[t])
  {
    if Delivers(s, a) { DeliveryIsTallied(cfg, a.copy, s.copies[a.copy]); }
  }

  lemma OccurrenceKeepsTallies(cfg: Config, s: State, a: Action)
    requires cfg.Valid() && Tallied(cfg, s)
    ensures Tallied(cfg, Occur(cfg, s, a))
  {
    forall c | c in CopiesThen(s, a) ensures CopyTallied(cfg, CopiesThen(s, a)[c]) && CopyCounted(CopiesThen(s, a)[c]) {
      OccurrenceKeepsCopy(cfg, s, a, c);
    }
    forall t | t in AttemptsThen(s, a) ensures AttemptTallied(AttemptsThen(s, a)[t]) {
      OccurrenceKeepsAttempt(cfg, s, a, t);
    }
  }

  lemma {:induction false} RunKeepsTallies(cfg: Config, s: State, actions: seq<Action>)
    requires cfg.Valid() && Tallied(cfg, s)
    ensures Tallied(cfg, Run(cfg, s, actions))
    decreases |actions|
  {
    if actions != [] {
      var a := actions[0];
      if a.UploadStep? || a.DeleteStep? || a.AttemptStep? || a.PassStep? { TurnKeepsTallies(cfg, s, a); }
      else { OccurrenceKeepsTallies(cfg, s, a); }
      RunKeepsTallies(cfg, Step(cfg, s, a), actions[1..]);
    }
  }

  /**
   * The law of the ladder, for every copy in every reachable state: its lineage was handled at least
   * as often as it was rejected and requeued, and at most five times more, so handlings are bounded
   * exactly if rejections and requeues are. Without rejections the count is exact: the
   * header counts the handlings, the fifth leads to the dead queue and no other does, and failure n
   * leads to rung min(n, length).
   */
  lemma HandlingsAreBounded(cfg: Config, s: State, c: nat)
    requires cfg.Valid() && Reachable(cfg, s) && c in s.copies
    ensures var copy, tally := s.copies[c], s.copies[c].tally;
      && tally.rejections + tally.requeues + InHand(copy) <= tally.deliveries
      && tally.deliveries <= Retry.MAX_ATTEMPTS + tally.rejections + tally.requeues
      && (tally.rejections == 0 ==>
            && tally.deliveries == copy.attempts + tally.requeues + InHand(copy)
            && (copy.place.DeadQueue? <==> copy.attempts == Retry.MAX_ATTEMPTS)
            && (copy.place.Rung? ==> copy.attempts >= 1 && copy.place.level + 1 == Min(copy.attempts, cfg.levels)))
      && (tally.rejections == 0 && tally.requeues == 0 ==>
            && tally.deliveries <= Retry.MAX_ATTEMPTS
            && (tally.deliveries == Retry.MAX_ATTEMPTS && !copy.place.Unacked? <==> copy.place.DeadQueue?))
  {
    var now, actions :| s == Run(cfg, Initial(now), actions);
    RunKeepsTallies(cfg, Initial(now), actions);
  }

  // Rejections are what the ladder does not bound.

  /** The copy after a delivery whose handler failed, whose rerouting failed, and whose rejection expired. */
  function RoundTrip(copy: Copy): Copy {
    copy.(deaths := copy.deaths + 2,
          tally := Tally(copy.tally.deliveries + 1, copy.tally.rejections + 1, copy.tally.requeues))
  }

  /** A copy with a counter of its own comes back from a rejection as the same attempt. */
  lemma RejectionDoesNotCount(copy: Copy)
    requires 0 < copy.attempts <= Retry.MAX_INT32
    ensures AttemptOf(RoundTrip(copy)) == AttemptOf(copy)
  {
  }

  predicate InQueue(s: State, c: nat) {
    c in s.copies && s.copies[c].place == MainQueue && s.next !in s.attempts && s.next + 1 !in s.attempts
  }

  lemma DeliveryStep(cfg: Config, s: State, c: nat)
    requires cfg.Valid() && c in s.copies && s.copies[c].place == MainQueue
    ensures Step(cfg, s, Deliver(c)) == s.(
      copies := s.copies[c := Moved(s.copies[c], Delivered(s.next))],
      attempts := s.attempts[s.next := NewAttempt(c, s.copies[c])],
      next := s.next + 1)
  {
  }

  lemma PanicStep(cfg: Config, s: State, t: nat)
    requires cfg.Valid() && t in s.attempts && !Settling(s.attempts[t].pc)
    ensures Step(cfg, s, Panic(t)) == s.(attempts := s.attempts[t := s.attempts[t].(pc := Returned(Retryable))])
  {
  }

  lemma UnforwardedStep(cfg: Config, s: State, t: nat)
    requires cfg.Valid() && t in s.attempts && s.attempts[t].pc == Returned(Retryable)
    ensures Step(cfg, s, AttemptStep(t, Fail, {})) == s.(attempts := s.attempts[t := s.attempts[t].(pc := Rejecting)])
  {
  }

  lemma RejectionStep(cfg: Config, s: State, t: nat)
    requires cfg.Valid() && t in s.attempts && s.attempts[t].pc == Rejecting && Holds(s, t, s.attempts[t].copy)
    ensures var c := s.attempts[t].copy;
      Step(cfg, s, AttemptStep(t, Ok, {})) ==
        s.(copies := s.copies[c := Moved(s.copies[c], Rejected)], attempts := s.attempts - {t})
  {
  }

  lemma ExpiryStep(cfg: Config, s: State, c: nat)
    requires cfg.Valid() && c in s.copies && s.copies[c].place.Rung?
    ensures Step(cfg, s, Expire(c)) == s.(copies := s.copies[c := Moved(s.copies[c], Expired)])
  {
  }

  lemma CopyIsDelivered(cfg: Config, from: State, s: State, c: nat) returns (s': State)
    requires cfg.Valid() && Leads(cfg, from, s) && c in s.copies && s.copies[c].place == MainQueue
    ensures Leads(cfg, from, s')
    ensures s' == s.(
      copies := s.copies[c := Moved(s.copies[c], Delivered(s.next))],
      attempts := s.attempts[s.next := NewAttempt(c, s.copies[c])],
      next := s.next + 1)
  {
    ThenStep(cfg, from, s, Deliver(c));
    DeliveryStep(cfg, s, c);
    s' := Step(cfg, s, Deliver(c));
  }

  /** The handler panics, and the forwarding that follows fails. */
  lemma PanicsAndIsNotForwarded(cfg: Config, from: State, s: State, t: nat) returns (s': State)
    requires cfg.Valid() && Leads(cfg, from, s) && t in s.attempts && !Settling(s.attempts[t].pc)
    ensures Leads(cfg, from, s') && s' == s.(attempts := s.attempts[t := s.attempts[t].(pc := Rejecting)])
  {
    ThenStep(cfg, from, s, Panic(t));
    PanicStep(cfg, s, t);
    s' := Step(cfg, s, Panic(t));
    ThenStep(cfg, from, s', AttemptStep(t, Fail, {}));
    UnforwardedStep(cfg, s', t);
    s' := Step(cfg, s', AttemptStep(t, Fail, {}));
  }

  lemma FailsAndIsNotRerouted(cfg: Config, from: State, s: State, c: nat) returns (s': State)
    requires cfg.Valid() && Leads(cfg, from, s) && InQueue(s, c)
    ensures Leads(cfg, from, s')
    ensures s' == s.(
      copies := s.copies[c := Moved(s.copies[c], Delivered(s.next))],
      attempts := s.attempts[s.next := NewAttempt(c, s.copies[c]).(pc := Rejecting)],
      next := s.next + 1)
  {
    var t := s.next;
    s' := CopyIsDelivered(cfg, from, s, c);
    s' := PanicsAndIsNotForwarded(cfg, from, s', t);
  }

  lemma RejectedComesBack(cfg: Config, from: State, s: State, t: nat) returns (s': State)
    requires cfg.Valid() && Leads(cfg, from, s) && t in s.attempts && s.attempts[t].pc == Rejecting
    requires Holds(s, t, s.attempts[t].copy)
    ensures var c := s.attempts[t].copy;
      && Leads(cfg, from, s')
      && s' == s.(copies := s.copies[c := Moved(Moved(s.copies[c], Rejected), Expired)], attempts := s.attempts - {t})
  {
    var c := s.attempts[t].copy;
    ThenStep(cfg, from, s, AttemptStep(t, Ok, {}));
    RejectionStep(cfg, s, t);
    s' := Step(cfg, s, AttemptStep(t, Ok, {}));
    ThenStep(cfg, from, s', Expire(c));
    ExpiryStep(cfg, s', c);
    s' := Step(cfg, s', Expire(c));
  }

  lemma RejectionGoesRound(cfg: Config, from: State, s: State, c: nat) returns (s': State)
    requires cfg.Valid() && Leads(cfg, from, s) && InQueue(s, c)
    ensures Leads(cfg, from, s') && s' == s.(copies := s.copies[c := RoundTrip(s.copies[c])], next := s.next + 1)
  {
    var s1 := FailsAndIsNotRerouted(cfg, from, s, c);
    s' := RejectedComesBack(cfg, from, s1, s.next);
    assert s'.copies == s.copies[c := RoundTrip(s.copies[c])];
    assert s'.attempts == s.attempts;
  }

  /**
   * No number bounds the handlings of a message whose rerouting keeps failing: any waiting copy can
   * be handled n times more.
   */
  lemma {:induction false} RejectionsAreUnbounded(cfg: Config, from: State, s: State, c: nat, n: nat)
    returns (s': State)
    requires cfg.Valid() && Leads(cfg, from, s) && c in s.copies && s.copies[c].place == MainQueue
    requires forall t :: t in s.attempts ==> t < s.next
    ensures Leads(cfg, from, s') && c in s'.copies && s'.copies[c].place == MainQueue
    ensures var tally, tally' := s.copies[c].tally, s'.copies[c].tally;
      && tally'.deliveries == tally.deliveries + n && tally'.rejections == tally.rejections + n
      && tally'.requeues == tally.requeues
    ensures s'.copies[c].attempts == s.copies[c].attempts
    decreases n
  {
    if n == 0 {
      s' := s;
    } else {
      s' := RejectionGoesRound(cfg, from, s, c);
      s' := RejectionsAreUnbounded(cfg, from, s', c, n - 1);
    }
  }
}
