/** What each kind of call owes to everyone else. */
module LifecycleEffects {
  import opened Domain
  import opened Repository
  import opened Lifecycle
  import opened LifecycleInvariant

  /** Identifiers of messages, copies and activities are never reused. */
  predicate Fresh(s: State) {
    s.next !in s.copies && s.next !in s.sent && s.next !in s.settled
  }

  /** When an effect is in order: the condition its activity has to establish before the call. */
  ghost predicate EffectOk(cfg: Config, s: State, e: Effect) {
    match e
    case Nothing => true
    case InsertRow(id, r, bytes) =>
      WellFormed(id) && id !in s.rows && id !in s.born && exists user :: r == Insert(user, s.now)
    case WriteRow(id, r) => id in s.rows && Evolved(s.rows[id], r) && RowFits(cfg, s, id, r)
    case FailStale(_) => RowsOk(cfg, s)
    case StoreObject(k, bytes) => ObjectFits(cfg, s, k, bytes)
    case RemoveObjects(keys) => forall k :: k in keys ==> IsClosed(s, k.id)
    case SendEvent(event) => Fresh(s) && EventOk(s, event)
    case ForwardCopy(copy) => Fresh(s) && Announced(s.sent, copy.mid, copy.event) && copy.mid < s.next
    case AckCopy(c, mid, settles) =>
      && c in s.copies && s.copies[c].mid == mid
      && if settles then mid in s.sent && MessageOk(s, mid) && EventSettled(s, s.sent[mid]) else Carried(s, mid, c + 1)
    case RejectCopy(c) => true
    case NoteDropped(id) => IsBegun(s, id)
  }

  /** The effect took place, and activities may have changed. */
  predicate Took(s: State, s': State, e: Effect) {
    s' == Affect(s, e).(uploads := s'.uploads, deletes := s'.deletes, attempts := s'.attempts, passes := s'.passes)
  }

  /** No copy is lost, turned into another message or added. */
  predicate SameCopies(s: State, s': State) {
    && (forall c :: c in s'.copies ==> c in s.copies)
    && (forall c :: c in s.copies ==> c in s'.copies && SameMessage(s.copies[c], s'.copies[c]))
  }

  predicate SameHistory(s: State, s': State) {
    s'.born == s.born && s'.sent == s.sent && s'.settled == s.settled && s.dropped <= s'.dropped
    && forall id :: id in s'.dropped ==> id in s.dropped || IsBegun(s', id)
  }

  lemma CopiesKept(s: State, s': State)
    requires s.settled <= s'.settled
    requires forall c :: c in s.copies ==> c in s'.copies && s'.copies[c].mid == s.copies[c].mid
    ensures forall m, from :: Carried(s, m, from) ==> Carried(s', m, from)
  {
  }

  /** A step that leaves the broker alone. */
  lemma DataStepIsGood(cfg: Config, s: State, s': State)
    requires Evolves(s, s') && DataOk(cfg, s, s') && ActivitiesOk(cfg, s, s')
    requires s'.copies == s.copies && s'.sent == s.sent && s'.settled == s.settled && s'.dropped == s.dropped
    ensures Good(cfg, s, s')
  {
    assert BrokerOk(s, s');
  }

  /** A step that leaves rows and objects alone. */
  lemma BrokerStepIsGood(cfg: Config, s: State, s': State)
    requires Evolves(s, s') && BrokerOk(s, s') && ActivitiesOk(cfg, s, s')
    requires s'.rows == s.rows && s'.born == s.born && s'.objects == s.objects
    ensures Good(cfg, s, s')
  {
    assert DataOk(cfg, s, s');
  }

  /** A step that changes rows and activities only. */
  lemma TableStepIsGood(cfg: Config, s: State, s': State)
    requires SameHistory(s, s') && SameCopies(s, s') && s.now <= s'.now && s.next <= s'.next && s'.objects == s.objects
    requires forall id :: id in s.rows ==> id in s'.rows && Evolved(s.rows[id], s'.rows[id])
    requires forall id :: id in s'.rows ==> RowOk(cfg, s', id) || (id in s.rows && s'.rows[id] == s.rows[id])
    requires ActivitiesOk(cfg, s, s')
    ensures Good(cfg, s, s')
  {
    CopiesKept(s, s');
  }

  /** A step that changes activities only. */
  lemma IdleStepIsGood(cfg: Config, s: State, s': State)
    requires SameHistory(s, s') && SameCopies(s, s') && s.now <= s'.now && s.next <= s'.next
    requires s'.objects == s.objects && s'.rows == s.rows
    requires ActivitiesOk(cfg, s, s')
    ensures Good(cfg, s, s')
  {
    TableStepIsGood(cfg, s, s');
  }

  lemma InsertIsGood(cfg: Config, s: State, s': State, e: Effect)
    requires e.InsertRow? && EffectOk(cfg, s, e) && Took(s, s', e) && ActivitiesOk(cfg, s, s')
    ensures Good(cfg, s, s')
  {
    InsertEvolves(s, s', e);
    assert DataOk(cfg, s, s') by { assert RowOk(cfg, s', e.id); }
    DataStepIsGood(cfg, s, s');
  }

  lemma InsertEvolves(s: State, s': State, e: Effect)
    requires e.InsertRow? && e.id !in s.rows && e.id !in s.born && Took(s, s', e)
    ensures Evolves(s, s')
  {
    CopiesKept(s, s');
  }

  lemma WriteIsGood(cfg: Config, s: State, s': State, e: Effect)
    requires e.WriteRow? && EffectOk(cfg, s, e) && Took(s, s', e) && ActivitiesOk(cfg, s, s')
    ensures Good(cfg, s, s')
  {
    assert RowFits(cfg, s', e.id, e.row);
    TableStepIsGood(cfg, s, s');
  }

  lemma StaleRowFits(cfg: Config, s: State, id: Id, before: nat)
    requires id in s.rows && RowOk(cfg, s, id)
    ensures RowFits(cfg, s, id, FailStaleUpload(s.rows[id], before, s.now))
  {
  }

  lemma StaleRowsFit(cfg: Config, s: State, s': State, e: Effect)
    requires e.FailStale? && RowsOk(cfg, s) && Took(s, s', e)
    ensures forall id :: id in s'.rows ==> RowOk(cfg, s', id)
  {
    forall id | id in s'.rows ensures RowOk(cfg, s', id) {
      StaleRowFits(cfg, s, id, e.before);
      assert RowFits(cfg, s', id, s'.rows[id]);
    }
  }

  lemma StaleRowsEvolve(s: State, s': State, e: Effect)
    requires e.FailStale? && Took(s, s', e)
    ensures Evolves(s, s')
  {
    CopiesKept(s, s');
  }

  lemma FailStaleIsGood(cfg: Config, s: State, s': State, e: Effect)
    requires e.FailStale? && EffectOk(cfg, s, e) && Took(s, s', e) && ActivitiesOk(cfg, s, s')
    ensures Good(cfg, s, s')
  {
    StaleRowsEvolve(s, s', e);
    assert DataOk(cfg, s, s') by { StaleRowsFit(cfg, s, s', e); }
    DataStepIsGood(cfg, s, s');
  }

  lemma StoreEvolves(s: State, s': State, e: Effect)
    requires (e.StoreObject? || e.RemoveObjects?) && Took(s, s', e)
    requires e.RemoveObjects? ==> forall k :: k in e.keys ==> IsClosed(s, k.id)
    ensures Evolves(s, s')
  {
    CopiesKept(s, s');
  }

  lemma StoreIsGood(cfg: Config, s: State, s': State, e: Effect)
    requires (e.StoreObject? || e.RemoveObjects?) && EffectOk(cfg, s, e) && Took(s, s', e) && ActivitiesOk(cfg, s, s')
    ensures Good(cfg, s, s')
  {
    StoreEvolves(s, s', e);
    assert DataOk(cfg, s, s') by { assert e.StoreObject? ==> ObjectFits(cfg, s', e.key, e.bytes); }
    DataStepIsGood(cfg, s, s');
  }

  lemma SendEvolves(s: State, s': State, e: Effect)
    requires e.SendEvent? && Fresh(s) && Took(s, s', e)
    ensures Evolves(s, s')
  {
    CopiesKept(s, s');
  }

  lemma SentIsCarried(s: State, s': State, e: Effect)
    requires e.SendEvent? && Fresh(s) && EventOk(s, e.event) && Took(s, s', e)
    ensures CopyOk(s', s.next) && MessageOk(s', s.next)
  {
    assert s'.copies[s.next].mid == s.next;
  }

  /** A published event is announced, and carried by its first copy. */
  lemma SendIsGood(cfg: Config, s: State, s': State, e: Effect)
    requires e.SendEvent? && EffectOk(cfg, s, e) && Took(s, s', e) && ActivitiesOk(cfg, s, s')
    ensures Good(cfg, s, s')
  {
    SendEvolves(s, s', e);
    assert BrokerOk(s, s') by { SentIsCarried(s, s', e); }
    BrokerStepIsGood(cfg, s, s');
  }

  lemma ForwardEvolves(s: State, s': State, e: Effect)
    requires e.ForwardCopy? && Fresh(s) && Took(s, s', e)
    ensures Evolves(s, s')
  {
    CopiesKept(s, s');
  }

  lemma ForwardIsGood(cfg: Config, s: State, s': State, e: Effect)
    requires e.ForwardCopy? && EffectOk(cfg, s, e) && Took(s, s', e) && ActivitiesOk(cfg, s, s')
    ensures Good(cfg, s, s')
  {
    ForwardEvolves(s, s', e);
    assert BrokerOk(s, s') by { assert CopyOk(s', s.next); }
    BrokerStepIsGood(cfg, s, s');
  }

  /** Removing a copy loses nothing if its message is settled, or carried by a younger copy. */
  lemma RemovalKeepsCarried(s: State, s': State, c: nat)
    requires c in s.copies && s'.copies == s.copies - {c} && s.settled <= s'.settled
    requires s.copies[c].mid in s'.settled || Carried(s, s.copies[c].mid, c + 1)
    ensures forall m, from :: Carried(s, m, from) ==> Carried(s', m, from)
  {
    forall m, from | Carried(s, m, from) ensures Carried(s', m, from) {
      if m !in s'.settled {
        var c1 :| c1 in s.copies && s.copies[c1].mid == m && from <= c1;
        if c1 == c {
          var c2 :| c2 in s.copies && s.copies[c2].mid == m && c + 1 <= c2;
          assert c2 in s'.copies && s'.copies[c2].mid == m && from <= c2;
        } else {
          assert c1 in s'.copies && s'.copies[c1].mid == m && from <= c1;
        }
      }
    }
  }

  lemma AckEvolves(s: State, s': State, e: Effect)
    requires e.AckCopy? && Took(s, s', e) && e.c in s.copies && s.copies[e.c].mid == e.mid
    requires e.settles || Carried(s, e.mid, e.c + 1)
    ensures Evolves(s, s')
  {
    RemovalKeepsCarried(s, s', e.c);
  }

  lemma AckedIsSettled(s: State, s': State, e: Effect)
    requires e.AckCopy? && Took(s, s', e)
    requires e.settles ==> e.mid in s.sent && MessageOk(s, e.mid) && EventSettled(s, s.sent[e.mid])
    ensures BrokerOk(s, s')
  {
    if e.settles {
      assert Carried(s', e.mid, 0);
      assert MessageOk(s', e.mid);
    }
  }

  lemma AckIsGood(cfg: Config, s: State, s': State, e: Effect)
    requires e.AckCopy? && EffectOk(cfg, s, e) && Took(s, s', e) && ActivitiesOk(cfg, s, s')
    ensures Good(cfg, s, s')
  {
    AckEvolves(s, s', e);
    assert BrokerOk(s, s') by { AckedIsSettled(s, s', e); }
    BrokerStepIsGood(cfg, s, s');
  }

  lemma EffectIsGood(cfg: Config, s: State, s': State, e: Effect)
    requires EffectOk(cfg, s, e) && Took(s, s', e) && ActivitiesOk(cfg, s, s')
    ensures Good(cfg, s, s')
  {
    match e {
      case Nothing => IdleStepIsGood(cfg, s, s');
      case InsertRow(_, _, _) => InsertIsGood(cfg, s, s', e);
      case WriteRow(_, _) => WriteIsGood(cfg, s, s', e);
      case FailStale(_) => FailStaleIsGood(cfg, s, s', e);
      case StoreObject(_, _) => StoreIsGood(cfg, s, s', e);
      case RemoveObjects(_) => StoreIsGood(cfg, s, s', e);
      case SendEvent(_) => SendIsGood(cfg, s, s', e);
      case ForwardCopy(_) => ForwardIsGood(cfg, s, s', e);
      case AckCopy(_, _, _) => AckIsGood(cfg, s, s', e);
      case RejectCopy(_) => IdleStepIsGood(cfg, s, s');
      case NoteDropped(_) => IdleStepIsGood(cfg, s, s');
    }
  }
}
