/** The consumer: one delivery's settlement, and the pool of workers that shares the deliveries. */
module Consumer {
  import opened Domain
  import opened Topology
  import Lifecycle
  import Publisher
  import Retry

  // One delivery

  /** What a message says of itself, besides its headers and its body. */
  datatype Properties = Properties(contentType: string, messageId: string, correlationId: string, event: string,
                                   timestamp: int)

  datatype Delivery = Delivery(tag: nat, properties: Properties, headers: Retry.Headers, body: seq<int>)

  datatype Settlement = Acked(tag: nat, landed: bool) | Rejected(tag: nat, landed: bool)

  /** What is published in place of a delivery that is to be handled again, or buried. */
  datatype Publication = Publication(exchange: string, key: string, persistent: bool, properties: Properties,
                                     headers: Retry.Headers, body: seq<int>)

  /** The message over again: everything but the counter of its attempts is as it was delivered. */
  ghost predicate Repeats(p: Publication, d: Delivery) {
    && p.persistent
    && p.properties.contentType == d.properties.contentType && p.properties.messageId == d.properties.messageId
    && p.properties.correlationId == d.properties.correlationId && p.properties.event == d.properties.event
    && p.properties.timestamp == d.properties.timestamp && p.body == d.body
    && Retry.ATTEMPTS_HEADER in p.headers
    && forall name :: name != Retry.ATTEMPTS_HEADER ==>
         (name in p.headers <==> name in d.headers) && (name in d.headers ==> p.headers[name] == d.headers[name])
  }

  /** What a delivery is forwarded as after a failed attempt. */
  function ForwardOf(levels: seq<Level>, d: Delivery): Publication
    requires levels != []
  {
    var attempt := Retry.AttemptNumber(d.headers);
    var last := Retry.IsFinal(attempt);
    Publication(if last then DEAD else RETRY, if last then DEAD_KEY else levels[Retry.RungFor(|levels|, attempt)].key,
      true, d.properties, Retry.Forwarded(d.headers, attempt), d.body)
  }

  /** The fate of a delivery: given up only to a confirmed successor, or after a result that asks for none. */
  function SettlementOf(tag: nat, result: Lifecycle.Result, confirmed: bool, lands: bool): Settlement {
    if result == Lifecycle.Retryable && !confirmed then Rejected(tag, lands) else Acked(tag, lands)
  }

  /** The calls of one consumer: settlements, and publications through a publisher of its own. */
  class Consumer {
    const pub: Publisher.Publisher
    var settlements: seq<Settlement>
    /** Publications attempted, confirmed or not. */
    var published: seq<Publication>

    constructor (pub: Publisher.Publisher)
      ensures this.pub == pub && settlements == [] && published == []
    {
      this.pub := pub;
      settlements, published := [], [];
    }

    method CopyHeaders(headers: Retry.Headers, attempt: nat) returns (copy: Retry.Headers)
      ensures copy == Retry.Forwarded(headers, attempt)
    {
      copy := map[];
      var names := headers.Keys;
      while names != {}
        invariant names <= headers.Keys
        invariant forall name :: name in copy <==> name in headers && name !in names
        invariant forall name :: name in copy ==> copy[name] == headers[name]
        decreases |names|
      {
        var name :| name in names;
        copy := copy[name := headers[name]];
        names := names - {name};
      }
      assert copy == headers;
      copy := copy[Retry.ATTEMPTS_HEADER := Retry.Int64(attempt)];
    }

    /** `m` identifies the publication; it has not been used for another message. */
    ghost predicate Unused(m: nat, script: Publisher.Script)
      reads pub
    {
      && pub.Valid() && script.Honest() && m !in pub.queued && m !in pub.bounced && m !in script.late
      && forall r :: r in script.late ==> r !in pub.queued
    }

    /** Publishes the delivery anew with its attempts counted; confirmed means that some queue has it. */
    method Forward(exchange: string, key: string, d: Delivery, attempt: nat, m: nat, script: Publisher.Script)
      returns (confirmed: bool)
      requires Unused(m, script)
      modifies this`published, pub
      ensures pub.Valid() && confirmed == old(pub.Confirms(script)) && (confirmed ==> m in pub.queued)
      ensures pub.queued == old(pub.queued) + if old(pub.Takes(script)) then {m} else {}
      ensures published == old(published) +
        [Publication(exchange, key, true, d.properties, Retry.Forwarded(d.headers, attempt), d.body)]
    {
      var headers := CopyHeaders(d.headers, attempt);
      var properties := Properties(d.properties.contentType, d.properties.messageId, d.properties.correlationId,
        d.properties.event, d.properties.timestamp);
      published := published + [Publication(exchange, key, true, properties, headers, d.body)];
      var returned;
      confirmed, returned := pub.Publish(m, script);
    }

    /** `lands` says whether the settlement reaches the broker; if not, it is only recorded in the log. */
    method Reroute(exchange: string, key: string, d: Delivery, attempt: nat, m: nat, script: Publisher.Script,
                   lands: bool)
      returns (confirmed: bool)
      requires Unused(m, script)
      modifies this, pub
      ensures pub.Valid() && confirmed == old(pub.Confirms(script)) && (confirmed ==> m in pub.queued)
      ensures pub.queued == old(pub.queued) + if old(pub.Takes(script)) then {m} else {}
      ensures published == old(published) +
        [Publication(exchange, key, true, d.properties, Retry.Forwarded(d.headers, attempt), d.body)]
      ensures settlements == old(settlements) + [if confirmed then Acked(d.tag, lands) else Rejected(d.tag, lands)]
    {
      confirmed := Forward(exchange, key, d, attempt, m, script);
      if !confirmed {
        settlements := settlements + [Rejected(d.tag, lands)];
        return;
      }
      settlements := settlements + [Acked(d.tag, lands)];
    }

    /**
     * Decides the fate of a delivery by what its handler returned. Whatever happens, exactly one
     * settlement is sent. A delivery that is to be handled again is acknowledged exactly when its
     * successor is confirmed, and then some queue has it.
     */
    method Process(levels: seq<Level>, d: Delivery, result: Lifecycle.Result, m: nat, script: Publisher.Script,
                   lands: bool)
      returns (confirmed: bool)
      requires levels != [] && Unused(m, script)
      modifies this, pub
      ensures pub.Valid() && (confirmed ==> m in pub.queued)
      ensures confirmed == (result == Lifecycle.Retryable && old(pub.Confirms(script)))
      ensures pub.queued == old(pub.queued) +
                if result == Lifecycle.Retryable && old(pub.Takes(script)) then {m} else {}
      ensures settlements == old(settlements) + [SettlementOf(d.tag, result, confirmed, lands)]
      ensures settlements[|settlements| - 1] ==
                if result == Lifecycle.Retryable && !confirmed then Rejected(d.tag, lands) else Acked(d.tag, lands)
      ensures published == old(published) + if result == Lifecycle.Retryable then [ForwardOf(levels, d)] else []
      ensures result == Lifecycle.Retryable ==> Repeats(published[|published| - 1], d)
    {
      var attempt := Retry.AttemptNumber(d.headers);
      var last := Retry.IsFinal(attempt);
      confirmed := false;
      if result == Lifecycle.Nil || result == Lifecycle.NonRetryable {
        settlements := settlements + [Acked(d.tag, lands)];
      } else if last {
        confirmed := Reroute(DEAD, DEAD_KEY, d, attempt, m, script, lands);
      } else {
        var level := levels[Retry.RungFor(|levels|, attempt)];
        confirmed := Reroute(RETRY, level.key, d, attempt, m, script, lands);
      }
    }
  }

  // The consumer and the protocol

  /** The headers of a delivery are those of the protocol's copy. */
  predicate Carries(d: Delivery, c: Lifecycle.Copy) {
    && c.attempts <= Retry.MAX_INT32 && c.deaths == Retry.DeathCount(d.headers)
    && Retry.HeaderInt(d.headers, Retry.ATTEMPTS_HEADER) == if c.attempts == 0 then None else Some(c.attempts)
  }

  /** The attempt handles this copy. */
  predicate Handles(a: Lifecycle.Attempt, c: Lifecycle.Copy) {
    a.number == Lifecycle.AttemptOf(c) && a.final == Retry.IsFinal(a.number)
  }

  /** The protocol model and the consumer send a failed message to the same place, with the same count. */
  lemma ForwardAgreesWithProtocol(cfg: Lifecycle.Config, levels: seq<Level>, d: Delivery, c: Lifecycle.Copy,
                                  a: Lifecycle.Attempt)
    requires cfg.Valid() && |levels| == cfg.levels
    requires Carries(d, c) && Handles(a, c)
    ensures var forwarded, p := Lifecycle.ForwardedCopy(cfg, a), ForwardOf(levels, d);
      && p.headers[Retry.ATTEMPTS_HEADER] == Retry.Int64(forwarded.attempts)
      && (forwarded.place.DeadQueue? <==> p.exchange == DEAD)
      && (forwarded.place.Rung? ==>
            && forwarded.place.level < |levels| && p.exchange == RETRY
            && p.key == levels[forwarded.place.level].key)
  {
  }

  /** How a call of the consumer turned out, in the terms of the protocol. */
  function OutcomeOf(confirmed: bool, taken: bool): Lifecycle.Outcome {
    if confirmed then Lifecycle.Ok else if taken then Lifecycle.Lost else Lifecycle.Fail
  }

  /** The steps of the protocol that one settlement takes. */
  function SettlingSteps(t: nat, result: Lifecycle.Result, confirmed: bool, taken: bool,
                         lands: bool): seq<Lifecycle.Action> {
    (if result == Lifecycle.Retryable then [Lifecycle.AttemptStep(t, OutcomeOf(confirmed, taken), {})] else []) +
    [Lifecycle.AttemptStep(t, OutcomeOf(lands, lands), {})]
  }

  /** What becomes of the copies: a successor if some queue took one, and the settlement of the copy itself. */
  function SettledCopies(copies: map<nat, Lifecycle.Copy>, c: nat, m: nat, successor: Option<Lifecycle.Copy>,
                         settlement: Settlement): map<nat, Lifecycle.Copy>
    requires c in copies
  {
    var more := if successor.Some? then copies[m := successor.value] else copies;
    match settlement
    case Acked(_, landed) => if landed then more - {c} else more
    case Rejected(_, landed) => if landed then more[c := Lifecycle.Moved(copies[c], Lifecycle.Rejected)] else more
  }

  lemma ForwardingStep(cfg: Lifecycle.Config, s: Lifecycle.State, t: nat, confirmed: bool, taken: bool)
    requires cfg.Valid() && t in s.attempts && s.attempts[t].pc == Lifecycle.Returned(Lifecycle.Retryable)
    requires confirmed ==> taken
    ensures var a, next := s.attempts[t], if confirmed then Lifecycle.AckingForwarded else Lifecycle.Rejecting;
      Lifecycle.Step(cfg, s, Lifecycle.AttemptStep(t, OutcomeOf(confirmed, taken), {})) ==
        s.(attempts := s.attempts[t := a.(pc := next)],
           copies := if taken then s.copies[s.next := Lifecycle.ForwardedCopy(cfg, a)] else s.copies,
           next := s.next + if taken then 1 else 0)
  {
  }

  /** The settlement itself: a rejection where there is no successor, else an acknowledgement. */
  lemma SettlingStep(cfg: Lifecycle.Config, s: Lifecycle.State, t: nat, tag: nat, lands: bool)
    requires cfg.Valid() && t in s.attempts && Lifecycle.Settling(s.attempts[t].pc)
    requires s.attempts[t].pc != Lifecycle.Returned(Lifecycle.Retryable)
    requires Lifecycle.Holds(s, t, s.attempts[t].copy)
    ensures var a := s.attempts[t];
      Lifecycle.Step(cfg, s, Lifecycle.AttemptStep(t, OutcomeOf(lands, lands), {})) ==
        s.(attempts := s.attempts - {t},
           copies := SettledCopies(s.copies, a.copy, 0, None,
             if a.pc.Rejecting? then Rejected(tag, lands) else Acked(tag, lands)),
           settled := s.settled + if lands && a.pc.Returned? then {a.mid} else {})
  {
    var a, o := s.attempts[t], OutcomeOf(lands, lands);
    assert Lifecycle.AttemptTurn(cfg, s, t, o, {}) == Lifecycle.SettlingTurn(cfg, s, t, a, o);
  }

  /** The steps of the protocol do to the broker what Process publishes and settles, and nothing else. */
  lemma ProcessIsProtocol(cfg: Lifecycle.Config, s: Lifecycle.State, t: nat, tag: nat, result: Lifecycle.Result,
                          confirmed: bool, taken: bool, lands: bool)
    requires cfg.Valid() && t in s.attempts && s.attempts[t].pc == Lifecycle.Returned(result)
    requires Lifecycle.Holds(s, t, s.attempts[t].copy) && s.next !in s.copies && (confirmed ==> taken)
    requires result != Lifecycle.Retryable ==> !taken
    ensures var a, settlement := s.attempts[t], SettlementOf(tag, result, confirmed, lands);
      var successor := if taken then Some(Lifecycle.ForwardedCopy(cfg, a)) else None;
      Lifecycle.Run(cfg, s, SettlingSteps(t, result, confirmed, taken, lands)) ==
        s.(attempts := s.attempts - {t},
           copies := SettledCopies(s.copies, a.copy, s.next, successor, settlement),
           settled := s.settled + (if lands && result != Lifecycle.Retryable then {a.mid} else {}),
           next := s.next + if taken then 1 else 0)
  {
    var last := Lifecycle.AttemptStep(t, OutcomeOf(lands, lands), {});
    if result == Lifecycle.Retryable {
      var first := Lifecycle.AttemptStep(t, OutcomeOf(confirmed, taken), {});
      var s1 := Lifecycle.Step(cfg, s, first);
      ForwardingStep(cfg, s, t, confirmed, taken);
      assert s1.attempts - {t} == s.attempts - {t};
      SettlingStep(cfg, s1, t, tag, lands);
      TwoSteps(cfg, s, first, last);
    } else {
      assert SettlingSteps(t, result, confirmed, taken, lands) == [last];
      SettlingStep(cfg, s, t, tag, lands);
      Lifecycle.RunOfOne(cfg, s, last);
    }
  }

  lemma TwoSteps(cfg: Lifecycle.Config, s: Lifecycle.State, first: Lifecycle.Action, last: Lifecycle.Action)
    requires cfg.Valid()
    ensures Lifecycle.Run(cfg, s, [first] + [last]) == Lifecycle.Step(cfg, Lifecycle.Step(cfg, s, first), last)
  {
    Lifecycle.RunsCompose(cfg, s, [first], [last]);
    Lifecycle.RunOfOne(cfg, s, first);
    Lifecycle.RunOfOne(cfg, Lifecycle.Step(cfg, s, first), last);
  }

  /**
   * The ladder of one message that fails every time: delivery n is forwarded with count n, to rung
   * min(n, length) while it has attempts left and to the dead queue after the fifth, which is the
   * last there is.
   */
  lemma LadderEndsInDeadQueue(levels: seq<Level>, d: Delivery, history: seq<Retry.Headers>, i: nat)
    requires levels != [] && Retry.AlwaysRetried(history) && i < |history|
    ensures var p := ForwardOf(levels, d.(headers := history[i]));
      && Repeats(p, d.(headers := history[i])) && p.headers[Retry.ATTEMPTS_HEADER] == Retry.Int64(i + 1)
      && if i == 4 then p.exchange == DEAD && p.key == DEAD_KEY && |history| == 5
         else p.exchange == RETRY && p.key == levels[if i < |levels| then i else |levels| - 1].key
    ensures |history| <= 5
  {
    Retry.AttemptsCountUp(history, i);
    Retry.LadderIsBounded(history, |levels|);
  }

  // The pool

  datatype Worker = Idle | Busy(tag: nat) | Gone

  /**
   * The pump receives one delivery at a time and hands it to an idle worker; `held` is received
   * and not yet handed over. `settled` is the log of deliveries whose processing has ended, each
   * with its one settlement.
   */
  datatype Pool = Pool(running: bool, held: Option<nat>, workers: seq<Worker>, received: set<nat>,
                       settled: seq<nat>, abandoned: set<nat>)

  function Start(prefetch: nat): Pool {
    Pool(true, None, seq(prefetch, _ => Idle), {}, [], {})
  }

  datatype PoolEvent =
    | Receive(tag: nat)
    | HandOver(worker: nat)
    | Finish(worker: nat)
    | Cancel
    | BreakOff
    | Leave(worker: nat)

  /** An event that cannot happen changes nothing. */
  function Next(p: Pool, e: PoolEvent): Pool {
    match e
    case Receive(tag) =>
      if p.running && p.held.None? && tag !in p.received
        then p.(held := Some(tag), received := p.received + {tag}) else p
    case HandOver(w) =>
      if p.running && p.held.Some? && w < |p.workers| && p.workers[w] == Idle
      then p.(held := None, workers := p.workers[w := Busy(p.held.value)]) else p
    case Finish(w) =>
      if w < |p.workers| && p.workers[w].Busy?
      then p.(workers := p.workers[w := Idle], settled := p.settled + [p.workers[w].tag]) else p
    case Cancel =>
      // Also while a delivery waits for a worker: it stays unsettled and returns to the queue.
      if p.running
      then p.(running := false, held := None,
        abandoned := if p.held.Some? then p.abandoned + {p.held.value} else p.abandoned)
      else p
    case BreakOff =>
      // A broken channel is noticed only between deliveries.
      if p.running && p.held.None? then p.(running := false) else p
    case Leave(w) =>
      if !p.running && w < |p.workers| && p.workers[w] == Idle then p.(workers := p.workers[w := Gone]) else p
  }

  function After(p: Pool, events: seq<PoolEvent>): Pool
    decreases |events|
  {
    if events == [] then p else After(Next(p, events[0]), events[1..])
  }

  /** Consume has returned: the pump has stopped and every worker has left. */
  predicate Returned(p: Pool) {
    !p.running && forall w :: 0 <= w < |p.workers| ==> p.workers[w] == Gone
  }

  /** How many workers have the delivery in hand. */
  function Handling(workers: seq<Worker>, tag: nat): nat {
    if workers == [] then 0
    else Handling(workers[..|workers| - 1], tag) + if workers[|workers| - 1] == Busy(tag) then 1 else 0
  }

  function Settlements(p: Pool, tag: nat): nat {
    multiset(p.settled)[tag]
  }

  /** In how many places a delivery is: settled, in handling, held by the pump, or given up. */
  function Places(p: Pool, tag: nat): nat {
    Settlements(p, tag) + Handling(p.workers, tag) + (if p.held == Some(tag) then 1 else 0) +
      (if tag in p.abandoned then 1 else 0)
  }

  /** Every received delivery is in exactly one place, once. */
  ghost predicate Accounted(p: Pool) {
    && (forall tag :: Places(p, tag) == if tag in p.received then 1 else 0)
    && |p.abandoned| <= 1
    && (p.running ==> p.abandoned == {})
    && (!p.running ==> p.held.None?)
  }

  lemma {:induction false} HandlingUpdate(workers: seq<Worker>, w: nat, x: Worker, tag: nat)
    requires w < |workers|
    ensures Handling(workers[w := x], tag) + (if workers[w] == Busy(tag) then 1 else 0) ==
      Handling(workers, tag) + (if x == Busy(tag) then 1 else 0)
    decreases |workers|
  {
    var n := |workers| - 1;
    if w == n {
      assert workers[w := x][..n] == workers[..n];
    } else {
      assert workers[w := x][..n] == workers[..n][w := x];
      HandlingUpdate(workers[..n], w, x, tag);
    }
  }

  lemma {:induction false} NobodyHandles(workers: seq<Worker>, tag: nat)
    requires forall w :: 0 <= w < |workers| ==> !workers[w].Busy?
    ensures Handling(workers, tag) == 0
    decreases |workers|
  {
    if workers != [] { NobodyHandles(workers[..|workers| - 1], tag); }
  }

  lemma PlacesAfter(p: Pool, e: PoolEvent, tag: nat)
    requires Places(p, tag) == if tag in p.received then 1 else 0
    ensures Places(Next(p, e), tag) == if tag in Next(p, e).received then 1 else 0
  {
    match e {
      case HandOver(w) => if w < |p.workers| && p.held.Some? { HandlingUpdate(p.workers, w, Busy(p.held.value), tag); }
      case Finish(w) => if w < |p.workers| { HandlingUpdate(p.workers, w, Idle, tag); }
      case Leave(w) => if w < |p.workers| { HandlingUpdate(p.workers, w, Gone, tag); }
      case _ =>
    }
  }

  lemma NextStaysAccounted(p: Pool, e: PoolEvent)
    requires Accounted(p)
    ensures Accounted(Next(p, e)) && |Next(p, e).workers| == |p.workers|
  {
    forall tag ensures Places(Next(p, e), tag) == if tag in Next(p, e).received then 1 else 0 {
      PlacesAfter(p, e, tag);
    }
  }

  lemma {:induction false} RunStaysAccounted(p: Pool, events: seq<PoolEvent>)
    requires Accounted(p)
    ensures Accounted(After(p, events)) && |After(p, events).workers| == |p.workers|
    decreases |events|
  {
    if events != [] {
      NextStaysAccounted(p, events[0]);
      RunStaysAccounted(Next(p, events[0]), events[1..]);
    }
  }

  lemma StartIsAccounted(prefetch: nat)
    ensures Accounted(Start(prefetch))
  {
    forall tag ensures Places(Start(prefetch), tag) == 0 {
      NobodyHandles(Start(prefetch).workers, tag);
    }
  }

  /**
   * The pool does its work: while it runs and holds nothing, a new delivery is received, an idle worker
   * takes it, and its processing ends with its settlement, whatever the other workers are doing.
   */
  lemma DeliveryIsTakenAndSettled(p: Pool, tag: nat, w: nat)
    requires p.running && p.held.None? && tag !in p.received && w < |p.workers| && p.workers[w] == Idle
    ensures var received := Next(p, Receive(tag));
      && received == p.(held := Some(tag), received := p.received + {tag})
      && Next(received, HandOver(w)) == received.(held := None, workers := p.workers[w := Busy(tag)])
      && After(p, [Receive(tag), HandOver(w), Finish(w)]) ==
           p.(received := p.received + {tag}, settled := p.settled + [tag])
  {
    var received := Next(p, Receive(tag));
    var busy := Next(received, HandOver(w));
    var events := [Receive(tag), HandOver(w), Finish(w)];
    assert events[1..] == [HandOver(w), Finish(w)] && events[1..][1..] == [Finish(w)];
    assert After(p, events) == After(busy, [Finish(w)]);
    assert After(busy, [Finish(w)]) == After(Next(busy, Finish(w)), []);
    assert p.workers[w := Busy(tag)][w := Idle] == p.workers;
  }

  /** What the pump does not do: a full pool takes nothing more, and a stopped one nothing at all. */
  lemma PumpWaits(p: Pool, e: PoolEvent)
    ensures !p.running || p.held.Some? ==> Next(p, e).received == p.received
    ensures p.held.Some? && Next(p, e).held != p.held ==>
              e.Cancel? || exists w :: 0 <= w < |p.workers| && p.workers[w] == Idle && e == HandOver(w)
    ensures p.running && !Next(p, e).running ==> e.Cancel? || (e.BreakOff? && p.held.None?)
    ensures p.running && e.Cancel? ==> !Next(p, e).running && Next(p, e).workers == p.workers
  {
    if e.HandOver? && e.worker < |p.workers| { assert e == HandOver(e.worker); }
  }

  /**
   * The drain guarantee. At every moment there are as many workers as the prefetch count, no
   * delivery is in the hands of two, and none is settled twice, or settled while still in hand.
   * When Consume has returned, every delivery received has been settled exactly once, except for
   * at most one that the pump had not yet handed to a worker.
   */
  lemma PoolDrains(prefetch: nat, events: seq<PoolEvent>, tag: nat)
    ensures var p := After(Start(prefetch), events);
      && |p.workers| == prefetch
      && Settlements(p, tag) + Handling(p.workers, tag) <= 1
      && (Settlements(p, tag) > 0 ==> tag in p.received)
      && (Returned(p) ==>
            && Handling(p.workers, tag) == 0 && p.held.None? && |p.abandoned| <= 1
            && (tag in p.received ==> Settlements(p, tag) == if tag in p.abandoned then 0 else 1))
  {
    var p := After(Start(prefetch), events);
    StartIsAccounted(prefetch);
    RunStaysAccounted(Start(prefetch), events);
    assert Places(p, tag) == if tag in p.received then 1 else 0;
    if Returned(p) { NobodyHandles(p.workers, tag); }
  }

  // Shutting down

  /** What is left to do once the pump has stopped. */
  function Remaining(workers: seq<Worker>): nat {
    if workers == [] then 0
    else
      Remaining(workers[..|workers| - 1]) +
        match workers[|workers| - 1]
        case Busy(_) => 2
        case Idle => 1
        case Gone => 0
  }

  lemma {:induction false} RemainingUpdate(workers: seq<Worker>, w: nat, x: Worker)
    requires w < |workers|
    requires (workers[w].Busy? && x == Idle) || (workers[w] == Idle && x == Gone)
    ensures Remaining(workers[w := x]) == Remaining(workers) - 1
    decreases |workers|
  {
    var n := |workers| - 1;
    if w == n {
      assert workers[w := x][..n] == workers[..n];
    } else {
      assert workers[w := x][..n] == workers[..n][w := x];
      RemainingUpdate(workers[..n], w, x);
    }
  }

  lemma {:induction false} SomebodyRemains(workers: seq<Worker>)
    ensures Remaining(workers) == 0 <==> forall w :: 0 <= w < |workers| ==> workers[w] == Gone
    decreases |workers|
  {
    if workers != [] { SomebodyRemains(workers[..|workers| - 1]); }
  }

  /**
   * A stopped pool cannot get stuck: until Consume returns some worker can take a step, and every
   * step that changes anything brings the end nearer.
   */
  lemma StoppedPoolComesToAnEnd(p: Pool, e: PoolEvent)
    requires !p.running
    ensures !Next(p, e).running && (Next(p, e) != p ==> Remaining(Next(p, e).workers) < Remaining(p.workers))
    ensures Returned(p) <==> Remaining(p.workers) == 0
    ensures !Returned(p) ==> exists w :: 0 <= w < |p.workers| && (Next(p, Finish(w)) != p || Next(p, Leave(w)) != p)
  {
    SomebodyRemains(p.workers);
    if (e.Finish? || e.Leave?) && e.worker < |p.workers| && Next(p, e) != p {
      RemainingUpdate(p.workers, e.worker, if e.Finish? then Idle else Gone);
    }
    if !Returned(p) {
      var w :| 0 <= w < |p.workers| && p.workers[w] != Gone;
      assert Next(p, Finish(w)).workers[w] != p.workers[w] || Next(p, Leave(w)).workers[w] != p.workers[w];
    }
  }
}
