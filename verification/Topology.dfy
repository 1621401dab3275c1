/** Exchanges, queues and bindings of the broker, and where they take a message. */
module Topology {
  import opened Domain
  import DelayName

  const EVENTS := "avatars.exchange"
  const RETRY := "avatars.retry"
  const DEAD := "avatars.dlq"

  const PROCESS_QUEUE := "avatars.process"
  const DEAD_QUEUE := "avatars.dead"
  const RETRY_QUEUE_PREFIX := "avatars.retry."
  const RETRY_KEY_PREFIX := "retry."

  const UPLOADED_KEY := "avatar.uploaded"
  const DELETED_KEY := "avatar.deleted"
  const RETRIED_KEY := "avatar.retried"
  const DEAD_KEY := "avatar.dead"
  const EVENTS_BINDING := "avatar.*"

  /** A rung of the ladder; the delay is in nanoseconds. */
  datatype Level = Level(queue: string, key: string, delay: int)

  function LevelNamed(name: string, delay: int): Level {
    Level(RETRY_QUEUE_PREFIX + name, RETRY_KEY_PREFIX + name, delay)
  }

  /** Queues and keys tell the rungs apart exactly as their delays do. */
  predicate IsLadder(levels: seq<Level>) {
    && (forall i :: 0 <= i < |levels| ==>
         StartsWith(levels[i].queue, RETRY_QUEUE_PREFIX) && StartsWith(levels[i].key, RETRY_KEY_PREFIX))
    && (forall i, j :: 0 <= i < |levels| && 0 <= j < |levels| ==>
          && (levels[i].queue == levels[j].queue <==> levels[i].delay == levels[j].delay)
          && (levels[i].key == levels[j].key <==> levels[i].delay == levels[j].delay))
  }

  function LevelsNamed(name: int -> string, delays: seq<int>): seq<Level> {
    if delays == [] then []
    else
      var last := delays[|delays| - 1];
      LevelsNamed(name, delays[..|delays| - 1]) + [LevelNamed(name(last), last)]
  }

  function Levels(delays: seq<int>): seq<Level> {
    LevelsNamed(DelayName.Name, delays)
  }

  /** One rung per delay, in the order given. */
  method NewRetryLevels(delays: seq<int>) returns (levels: seq<Level>)
    ensures levels == Levels(delays)
  {
    levels := [];
    for i := 0 to |delays|
      invariant levels == LevelsNamed(DelayName.Name, delays[..i])
    {
      var name := DelayName.Name(delays[i]);
      assert delays[..i + 1][..i] == delays[..i] && delays[..i + 1][i] == delays[i];
      levels := levels + [LevelNamed(name, delays[i])];
    }
    assert delays[..|delays|] == delays;
  }

  lemma {:induction false} LevelsAreNamed(name: int -> string, delays: seq<int>)
    ensures |LevelsNamed(name, delays)| == |delays|
    ensures forall i :: 0 <= i < |delays| ==> LevelsNamed(name, delays)[i] == LevelNamed(name(delays[i]), delays[i])
    decreases |delays|
  {
    if delays != [] { LevelsAreNamed(name, delays[..|delays| - 1]); }
  }

  lemma NamedRungsAreDistinct(name: int -> string, delays: seq<int>)
    requires forall d, e :: name(d) == name(e) ==> d == e
    ensures |LevelsNamed(name, delays)| == |delays|
    ensures forall i :: 0 <= i < |delays| ==> LevelsNamed(name, delays)[i].delay == delays[i]
    ensures IsLadder(LevelsNamed(name, delays))
  {
    LevelsAreNamed(name, delays);
    var levels := LevelsNamed(name, delays);
    forall i, j | 0 <= i < |levels| && 0 <= j < |levels|
      ensures levels[i].queue == levels[j].queue <==> levels[i].delay == levels[j].delay
      ensures levels[i].key == levels[j].key <==> levels[i].delay == levels[j].delay
    {
      LevelsFollowNames(name(delays[i]), delays[i], name(delays[j]), delays[j]);
    }
  }

  /** A rung per delay, each named after its delay, and no two delays share a queue or a key. */
  lemma LevelsFormLadder(delays: seq<int>)
    ensures |Levels(delays)| == |delays| && forall i :: 0 <= i < |delays| ==> Levels(delays)[i].delay == delays[i]
    ensures IsLadder(Levels(delays))
  {
    forall d, e ensures DelayName.Name(d) == DelayName.Name(e) ==> d == e {
      DelayName.NamesAreDistinct(d, e);
    }
    NamedRungsAreDistinct(DelayName.Name, delays);
  }

  lemma LevelsFollowNames(m: string, d: int, n: string, e: int)
    ensures LevelNamed(m, d).queue == LevelNamed(n, e).queue <==> m == n
    ensures LevelNamed(m, d).key == LevelNamed(n, e).key <==> m == n
  {
    if LevelNamed(m, d).queue == LevelNamed(n, e).queue { SuffixDetermines(RETRY_QUEUE_PREFIX, m, n); }
    if LevelNamed(m, d).key == LevelNamed(n, e).key { SuffixDetermines(RETRY_KEY_PREFIX, m, n); }
  }

  // Declarations

  datatype Kind = Topic | Direct

  /** Where the broker sends what a queue rejects or lets expire; without a key the message keeps its own. */
  datatype QueueArgs = QueueArgs(deadLetterExchange: Option<string>, deadLetterKey: Option<string>, ttl: Option<int>)

  datatype Binding = Binding(exchange: string, key: string, queue: string)

  datatype Layout = Layout(exchanges: map<string, Kind>, queues: map<string, QueueArgs>, bindings: set<Binding>)

  /** Whole milliseconds, rounded toward zero. */
  function Milliseconds(delay: int): int {
    if delay < 0 then -(-delay / 1_000_000) else delay / 1_000_000
  }

  /** A whole number of milliseconds that is the delay, but for the part of a millisecond that is cut off. */
  predicate Keeps(ttl: int, delay: int) {
    if delay < 0 then ttl * 1_000_000 - 1_000_000 < delay <= ttl * 1_000_000
    else ttl * 1_000_000 <= delay < ttl * 1_000_000 + 1_000_000
  }

  function ProcessArgs(): QueueArgs { QueueArgs(Some(RETRY), None, None) }

  function LevelArgs(level: Level): QueueArgs {
    QueueArgs(Some(EVENTS), Some(RETRIED_KEY), Some(Milliseconds(level.delay)))
  }

  function DeadArgs(): QueueArgs { QueueArgs(None, None, None) }

  function EventKeys(): seq<string> { [UPLOADED_KEY, DELETED_KEY, RETRIED_KEY] }

  /** The first rung also takes what the main queue rejects by itself. */
  function KeysOf(level: Level, first: bool): seq<string> {
    [level.key] + if first then EventKeys() else []
  }

  function LevelQueues(levels: seq<Level>): map<string, QueueArgs> {
    if levels == [] then map[]
    else LevelQueues(levels[..|levels| - 1])[levels[|levels| - 1].queue := LevelArgs(levels[|levels| - 1])]
  }

  function LevelBindings(levels: seq<Level>): set<Binding> {
    set i, k | 0 <= i < |levels| && k in KeysOf(levels[i], i == 0) :: Binding(RETRY, k, levels[i].queue)
  }

  function Exchanges(): map<string, Kind> { map[EVENTS := Topic, RETRY := Direct, DEAD := Direct] }

  function Intended(levels: seq<Level>): Layout {
    Layout(Exchanges(),
      map[PROCESS_QUEUE := ProcessArgs()] + LevelQueues(levels) + map[DEAD_QUEUE := DeadArgs()],
      {Binding(EVENTS, EVENTS_BINDING, PROCESS_QUEUE)} + LevelBindings(levels) + {Binding(DEAD, DEAD_KEY, DEAD_QUEUE)})
  }

  /** The broker's side. Declaring something again is refused only if it is declared differently. */
  class Broker {
    var exchanges: map<string, Kind>
    var queues: map<string, QueueArgs>
    var bindings: set<Binding>

    function View(): Layout reads this { Layout(exchanges, queues, bindings) }

    constructor ()
      ensures View() == Layout(map[], map[], {})
    {
      exchanges, queues, bindings := map[], map[], {};
    }

    method ExchangeDeclare(name: string, kind: Kind) returns (ok: bool)
      modifies this`exchanges
      ensures ok == (name in old(exchanges) ==> old(exchanges)[name] == kind)
      ensures exchanges == if ok then old(exchanges)[name := kind] else old(exchanges)
    {
      ok := name !in exchanges || exchanges[name] == kind;
      if ok { exchanges := exchanges[name := kind]; }
    }

    method QueueDeclare(name: string, args: QueueArgs) returns (ok: bool)
      modifies this`queues
      ensures ok == (name in old(queues) ==> old(queues)[name] == args)
      ensures queues == if ok then old(queues)[name := args] else old(queues)
    {
      ok := name !in queues || queues[name] == args;
      if ok { queues := queues[name := args]; }
    }

    method QueueBind(queue: string, exchange: string, key: string) returns (ok: bool)
      modifies this`bindings
      ensures ok == (queue in queues && exchange in exchanges)
      ensures bindings == if ok then old(bindings) + {Binding(exchange, key, queue)} else old(bindings)
    {
      ok := queue in queues && exchange in exchanges;
      if ok { bindings := bindings + {Binding(exchange, key, queue)}; }
    }

    method BindKeys(queue: string, keys: seq<string>)
      requires queue in queues && RETRY in exchanges
      modifies this`bindings
      ensures bindings == old(bindings) + set k | k in keys :: Binding(RETRY, k, queue)
    {
      for i := 0 to |keys|
        invariant bindings == old(bindings) + set k | k in keys[..i] :: Binding(RETRY, k, queue)
      {
        assert keys[..i + 1] == keys[..i] + [keys[i]];
        var ok := QueueBind(queue, RETRY, keys[i]);
      }
      assert keys[..|keys|] == keys;
    }

    method DeclareRetryLevels(levels: seq<Level>) returns (ok: bool)
      requires IsLadder(levels) && RETRY in exchanges
      modifies this`queues, this`bindings
      ensures ok == Agree(old(queues), LevelQueues(levels))
      ensures ok ==> queues == old(queues) + LevelQueues(levels) && bindings == old(bindings) + LevelBindings(levels)
    {
      for i := 0 to |levels|
        invariant Agree(old(queues), LevelQueues(levels[..i]))
        invariant queues == old(queues) + LevelQueues(levels[..i])
        invariant bindings == old(bindings) + LevelBindings(levels[..i])
      {
        QueuesGrow(old(queues), levels, i);
        LevelBindingsGrow(levels, i);
        ok := QueueDeclare(levels[i].queue, LevelArgs(levels[i]));
        if !ok { return; }
        BindKeys(levels[i].queue, KeysOf(levels[i], i == 0));
      }
      assert levels[..|levels|] == levels;
      ok := true;
    }

    method DeclareExchanges() returns (ok: bool)
      modifies this`exchanges
      ensures ok == Agree(old(exchanges), Exchanges())
      ensures ok ==> exchanges == old(exchanges) + Exchanges()
    {
      ok := ExchangeDeclare(EVENTS, Topic);
      if !ok { return; }
      ok := ExchangeDeclare(RETRY, Direct);
      if !ok { return; }
      ok := ExchangeDeclare(DEAD, Direct);
    }

    method DeclareQueues(levels: seq<Level>) returns (ok: bool)
      requires IsLadder(levels) && EVENTS in exchanges && RETRY in exchanges && DEAD in exchanges
      modifies this`queues, this`bindings
      ensures ok == Agree(old(queues), Intended(levels).queues)
      ensures ok ==>
                && queues == old(queues) + Intended(levels).queues
                && bindings == old(bindings) + Intended(levels).bindings
    {
      ghost var a, rungs := queues, LevelQueues(levels);
      QueueNamesDiffer(levels);
      QueuesInOrder(a, PROCESS_QUEUE, ProcessArgs(), rungs, DEAD_QUEUE, DeadArgs());
      ok := QueueDeclare(PROCESS_QUEUE, ProcessArgs());
      if !ok { return; }
      ok := QueueBind(PROCESS_QUEUE, EVENTS, EVENTS_BINDING);
      ok := DeclareRetryLevels(levels);
      if !ok { return; }
      ok := QueueDeclare(DEAD_QUEUE, DeadArgs());
      if !ok { return; }
      ok := QueueBind(DEAD_QUEUE, DEAD, DEAD_KEY);
    }

    /**
     * Declaring succeeds unless something is already declared differently, and then adds what is
     * missing: a fresh broker comes out as intended, and a second declaration changes nothing.
     */
    method DeclareTopology(levels: seq<Level>) returns (ok: bool)
      requires IsLadder(levels)
      modifies this
      ensures ok == Compatible(old(View()), Intended(levels))
      ensures ok ==> View() == Merged(old(View()), Intended(levels))
    {
      ok := DeclareExchanges();
      if !ok { return; }
      ok := DeclareQueues(levels);
    }
  }

  /** Declaring one queue, then several, then one more. */
  lemma QueuesInOrder(a: map<string, QueueArgs>, q: string, args: QueueArgs, b: map<string, QueueArgs>, q': string,
                      args': QueueArgs)
    requires q !in b && q' !in b && q != q'
    ensures var all := map[q := args] + b + map[q' := args'];
      && (Agree(a, all) <==>
            && (q in a ==> a[q] == args) && Agree(a[q := args], b)
            && (q' in a[q := args] + b ==> (a[q := args] + b)[q'] == args'))
      && a + all == (a[q := args] + b)[q' := args']
  {
    var all := map[q := args] + b + map[q' := args'];
    assert all[q] == args && all[q'] == args' && forall n :: n in b ==> all[n] == b[n];
    assert q in a ==> a[q := args][q] == args;
    assert forall n :: n in a && n != q ==> a[q := args][n] == a[n];
  }

  predicate Agree<T(==)>(a: map<string, T>, b: map<string, T>) {
    forall name :: name in a && name in b ==> a[name] == b[name]
  }

  predicate Compatible(a: Layout, b: Layout) {
    Agree(a.exchanges, b.exchanges) && Agree(a.queues, b.queues)
  }

  function Merged(a: Layout, b: Layout): Layout {
    Layout(a.exchanges + b.exchanges, a.queues + b.queues, a.bindings + b.bindings)
  }

  lemma LevelBindingsGrow(levels: seq<Level>, i: nat)
    requires i < |levels|
    ensures LevelBindings(levels[..i + 1]) ==
      LevelBindings(levels[..i]) + set k | k in KeysOf(levels[i], i == 0) :: Binding(RETRY, k, levels[i].queue)
  {
    var some, more := levels[..i], levels[..i + 1];
    assert forall j :: 0 <= j < i ==> more[j] == some[j];
    assert more[i] == levels[i];
  }

  /** Every declared rung queue has the arguments of the rungs of that name. */
  lemma {:induction false} LevelQueuesAre(levels: seq<Level>, q: string)
    ensures q in LevelQueues(levels) <==> exists i :: 0 <= i < |levels| && levels[i].queue == q
    ensures q in LevelQueues(levels) ==>
              exists i :: 0 <= i < |levels| && levels[i].queue == q && LevelQueues(levels)[q] == LevelArgs(levels[i])
    decreases |levels|
  {
    if levels != [] {
      var init, n := levels[..|levels| - 1], |levels| - 1;
      LevelQueuesAre(init, q);
      assert forall i :: 0 <= i < n ==> init[i] == levels[i];
      if levels[n].queue != q && q in LevelQueues(init) {
        var i :| 0 <= i < |init| && init[i].queue == q && LevelQueues(init)[q] == LevelArgs(init[i]);
        assert levels[i].queue == q && LevelQueues(levels)[q] == LevelArgs(levels[i]);
      }
    }
  }

  /** The declared queue of every rung keeps a message for the delay of that rung. */
  lemma RungsKeepTheirDelays(delays: seq<int>, i: nat)
    requires i < |delays|
    ensures i < |Levels(delays)|
    ensures var queue, queues := Levels(delays)[i].queue, Intended(Levels(delays)).queues;
      queue in queues && queues[queue].ttl.Some? && Keeps(queues[queue].ttl.value, delays[i])
  {
    LevelsFormLadder(delays);
    var levels := Levels(delays);
    LevelQueuesAre(levels, levels[i].queue);
    QueueNamesDiffer(levels);
    var j :| 0 <= j < |levels| && levels[j].queue == levels[i].queue
             && LevelQueues(levels)[levels[i].queue] == LevelArgs(levels[j]);
    assert levels[j].delay == delays[i];
  }

  lemma LadderQueues(levels: seq<Level>, n: nat)
    requires IsLadder(levels) && n < |levels|
    ensures levels[n].queue in LevelQueues(levels[..n]) ==>
              LevelQueues(levels[..n])[levels[n].queue] == LevelArgs(levels[n])
  {
    var q := levels[n].queue;
    LevelQueuesAre(levels[..n], q);
    if q in LevelQueues(levels[..n]) {
      var i :| 0 <= i < n && levels[..n][i].queue == q && LevelQueues(levels[..n])[q] == LevelArgs(levels[..n][i]);
    }
  }

  lemma {:induction false} QueuesRemain(levels: seq<Level>, n: nat)
    requires IsLadder(levels) && n <= |levels|
    ensures forall q :: q in LevelQueues(levels[..n]) ==>
              q in LevelQueues(levels) && LevelQueues(levels)[q] == LevelQueues(levels[..n])[q]
    decreases |levels| - n
  {
    if n == |levels| {
      assert levels[..n] == levels;
    } else {
      LadderQueues(levels, n);
      assert levels[..n + 1][..n] == levels[..n];
      QueuesRemain(levels, n + 1);
    }
  }

  lemma AgreementGrows(a: map<string, QueueArgs>, b: map<string, QueueArgs>, q: string, args: QueueArgs)
    requires Agree(a, b) && (q in b ==> b[q] == args)
    ensures a + b[q := args] == (a + b)[q := args]
    ensures (q in a + b ==> (a + b)[q] == args) <==> Agree(a, b[q := args])
  {
  }

  lemma QueuesGrow(a: map<string, QueueArgs>, levels: seq<Level>, n: nat)
    requires IsLadder(levels) && n < |levels| && Agree(a, LevelQueues(levels[..n]))
    ensures var q, args, now := levels[n].queue, LevelArgs(levels[n]), a + LevelQueues(levels[..n]);
      && a + LevelQueues(levels[..n + 1]) == now[q := args]
      && (if q in now ==> now[q] == args then Agree(a, LevelQueues(levels[..n + 1]))
           else !Agree(a, LevelQueues(levels)))
  {
    var q, args, b := levels[n].queue, LevelArgs(levels[n]), LevelQueues(levels[..n]);
    OneMoreQueue(levels, n);
    assert q in b ==> b[q] == args by { LadderQueues(levels, n); }
    AgreementGrows(a, b, q, args);
    if !Agree(a, b[q := args]) { DisagreementRemains(a, levels, n + 1); }
  }

  lemma OneMoreQueue(levels: seq<Level>, n: nat)
    requires n < |levels|
    ensures LevelQueues(levels[..n + 1]) == LevelQueues(levels[..n])[levels[n].queue := LevelArgs(levels[n])]
  {
    assert levels[..n + 1][..n] == levels[..n] && levels[..n + 1][n] == levels[n];
  }

  lemma DisagreementRemains(a: map<string, QueueArgs>, levels: seq<Level>, n: nat)
    requires IsLadder(levels) && n <= |levels| && !Agree(a, LevelQueues(levels[..n]))
    ensures !Agree(a, LevelQueues(levels))
  {
    QueuesRemain(levels, n);
  }

  lemma QueueNamesDiffer(levels: seq<Level>)
    requires IsLadder(levels)
    ensures PROCESS_QUEUE !in LevelQueues(levels) && DEAD_QUEUE !in LevelQueues(levels)
  {
    forall q | q in LevelQueues(levels) ensures q != PROCESS_QUEUE && q != DEAD_QUEUE {
      LevelQueuesAre(levels, q);
      RungNamesDiffer(q);
    }
  }

  lemma RungNamesDiffer(q: string)
    requires StartsWith(q, RETRY_QUEUE_PREFIX)
    ensures q != PROCESS_QUEUE && q != DEAD_QUEUE
  {
    assert q[..|RETRY_QUEUE_PREFIX|][8] == RETRY_QUEUE_PREFIX[8];
  }
}
