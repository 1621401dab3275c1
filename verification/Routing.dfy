/** Where the declared layout takes a message, hop by hop. */
module Routing {
  import opened Domain
  import opened Topology

  // Matching of routing keys, section 3.1.3 of the AMQP 0-9-1 specification

  function DotAt(s: string): (n: nat)
    ensures n <= |s|
    ensures n < |s| ==> s[n] == '.'
  {
    if s == "" || s[0] == '.' then 0 else 1 + DotAt(s[1..])
  }

  function Words(s: string): seq<string>
    decreases |s|
  {
    var n := DotAt(s);
    if n == |s| then [s] else [s[..n]] + Words(s[n + 1..])
  }

  /** `*` stands for one word, `#` for any number of them. */
  predicate TopicMatches(pattern: seq<string>, key: seq<string>)
    decreases |pattern| + |key|
  {
    if pattern == [] then key == []
    else if pattern[0] == "#" then TopicMatches(pattern[1..], key) || (key != [] && TopicMatches(pattern, key[1..]))
    else key != [] && (pattern[0] == "*" || pattern[0] == key[0]) && TopicMatches(pattern[1..], key[1..])
  }

  predicate Matches(kind: Kind, pattern: string, key: string) {
    match kind
    case Direct => pattern == key
    case Topic => TopicMatches(Words(pattern), Words(key))
  }

  /** The queues a message sent to an exchange with a key is put into. */
  function Routes(layout: Layout, exchange: string, key: string): set<string> {
    set b | b in layout.bindings && b.exchange == exchange && exchange in layout.exchanges
            && Matches(layout.exchanges[exchange], b.key, key) :: b.queue
  }

  // A message is in a queue and carries the key it was last sent with.

  datatype Spot = Spot(queue: string, key: string)

  datatype Address = Address(exchange: string, key: string)

  /** Where the broker sends a message that its queue rejects or lets expire. */
  function DeadLetter(layout: Layout, spot: Spot): Option<Address> {
    if spot.queue !in layout.queues then None
    else
      var args := layout.queues[spot.queue];
      match args.deadLetterExchange
      case None => None
      case Some(exchange) => Some(Address(exchange,
        if args.deadLetterKey.Some? then args.deadLetterKey.value else spot.key))
  }

  predicate Onward(layout: Layout, levels: seq<Level>, spot: Spot, to: Address) {
    || DeadLetter(layout, spot) == Some(to)
    || (spot.queue == PROCESS_QUEUE && to == Address(DEAD, DEAD_KEY))
    || (spot.queue == PROCESS_QUEUE && exists i :: 0 <= i < |levels| && to == Address(RETRY, levels[i].key))
  }

  predicate OnRung(levels: seq<Level>, queue: string) {
    exists i :: 0 <= i < |levels| && queue == levels[i].queue
  }

  /** The spots a message can get to at all. */
  predicate InSystem(levels: seq<Level>, spot: Spot) {
    (spot.queue == PROCESS_QUEUE && spot.key in EventKeys()) || OnRung(levels, spot.queue) || spot.queue == DEAD_QUEUE
  }

  // Matching of the keys in use

  lemma {:induction false} DotComesAfter(a: string, b: string)
    requires '.' !in a
    ensures DotAt(a + "." + b) == |a| && DotAt(a) == |a|
    decreases |a|
  {
    if a != "" {
      assert (a + "." + b)[1..] == a[1..] + "." + b;
      DotComesAfter(a[1..], b);
    }
  }

  lemma WordsSplit(a: string, b: string)
    requires '.' !in a && '.' !in b
    ensures Words(a + "." + b) == [a, b]
  {
    var s := a + "." + b;
    DotComesAfter(a, b);
    DotComesAfter(b, "");
    assert s[..|a|] == a && s[|a| + 1..] == b;
  }

  /** The binding of the main queue takes every key of the form avatar.word. */
  lemma EventsBindingTakes(word: string)
    requires '.' !in word
    ensures Matches(Topic, EVENTS_BINDING, "avatar" + "." + word)
  {
    WordsSplit("avatar", "*");
    WordsSplit("avatar", word);
    assert EVENTS_BINDING == "avatar" + "." + "*";
    var pattern, key := ["avatar", "*"], ["avatar", word];
    assert TopicMatches(pattern[1..][1..], key[1..][1..]);
    assert TopicMatches(pattern[1..], key[1..]);
  }

  lemma EventKeysAreTaken(key: string)
    requires key in EventKeys()
    ensures Matches(Topic, EVENTS_BINDING, key)
  {
    var word := if key == UPLOADED_KEY then "uploaded" else if key == DELETED_KEY then "deleted" else "retried";
    assert key == "avatar" + "." + word;
    EventsBindingTakes(word);
  }

  lemma KeysOfRungsAreNotEvents(levels: seq<Level>, i: nat)
    requires IsLadder(levels) && i < |levels|
    ensures levels[i].key !in EventKeys()
  {
    assert levels[i].key[..|RETRY_KEY_PREFIX|][0] == 'r';
  }

  // Routes

  lemma OnlyRoute(layout: Layout, b: Binding, key: string)
    requires b in layout.bindings && b.exchange in layout.exchanges && Matches(layout.exchanges[b.exchange], b.key, key)
    requires forall b' :: b' in layout.bindings && b'.exchange == b.exchange ==> b' == b
    ensures Routes(layout, b.exchange, key) == {b.queue}
  {
  }

  lemma EventsBinding(levels: seq<Level>, b: Binding)
    ensures b in Intended(levels).bindings && b.exchange == EVENTS <==>
              b == Binding(EVENTS, EVENTS_BINDING, PROCESS_QUEUE)
    ensures EVENTS in Exchanges() && Exchanges()[EVENTS] == Topic
  {
  }

  lemma EventsRoute(levels: seq<Level>, key: string)
    requires key in EventKeys()
    ensures Routes(Intended(levels), EVENTS, key) == {PROCESS_QUEUE}
  {
    var b := Binding(EVENTS, EVENTS_BINDING, PROCESS_QUEUE);
    forall b' ensures b' in Intended(levels).bindings && b'.exchange == EVENTS <==> b' == b {
      EventsBinding(levels, b');
    }
    assert Matches(Topic, b.key, key) by { EventKeysAreTaken(key); }
    EventsBinding(levels, b);
    OnlyRoute(Intended(levels), b, key);
  }

  lemma DeadRoute(levels: seq<Level>)
    ensures Routes(Intended(levels), DEAD, DEAD_KEY) == {DEAD_QUEUE}
  {
    var layout := Intended(levels);
    var b := Binding(DEAD, DEAD_KEY, DEAD_QUEUE);
    assert b in layout.bindings && layout.exchanges[DEAD] == Direct;
    assert forall b' :: b' in layout.bindings && b'.exchange == DEAD ==> b' == b;
  }

  /** The bindings of the retry exchange are those of the rungs. */
  lemma RetryBindings(levels: seq<Level>, b: Binding)
    requires b in Intended(levels).bindings && b.exchange == RETRY
    ensures exists i :: 0 <= i < |levels| && b.queue == levels[i].queue && b.key in KeysOf(levels[i], i == 0)
  {
    assert b in LevelBindings(levels);
  }

  lemma RungRoute(levels: seq<Level>, i: nat)
    requires IsLadder(levels) && i < |levels|
    ensures Routes(Intended(levels), RETRY, levels[i].key) == {levels[i].queue}
  {
    var layout, key := Intended(levels), levels[i].key;
    var b := Binding(RETRY, key, levels[i].queue);
    assert key in KeysOf(levels[i], i == 0) by { assert KeysOf(levels[i], i == 0)[0] == key; }
    assert b in LevelBindings(levels) && layout.exchanges[RETRY] == Direct;
    forall b' | b' in layout.bindings && b'.exchange == RETRY && b'.key == key ensures b'.queue == levels[i].queue {
      RetryBindings(levels, b');
      var j :| 0 <= j < |levels| && b'.queue == levels[j].queue && b'.key in KeysOf(levels[j], j == 0);
      KeysOfRungsAreNotEvents(levels, i);
      assert levels[j].key == key;
    }
  }

  /** What the main queue rejects goes to the first rung, whichever key it came with. */
  lemma RejectedRoute(levels: seq<Level>, key: string)
    requires IsLadder(levels) && levels != [] && key in EventKeys()
    ensures Routes(Intended(levels), RETRY, key) == {levels[0].queue}
  {
    var layout := Intended(levels);
    var b := Binding(RETRY, key, levels[0].queue);
    assert key in KeysOf(levels[0], true);
    assert b in LevelBindings(levels) && layout.exchanges[RETRY] == Direct;
    forall b' | b' in layout.bindings && b'.exchange == RETRY && b'.key == key ensures b'.queue == levels[0].queue {
      RetryBindings(levels, b');
      var j :| 0 <= j < |levels| && b'.queue == levels[j].queue && b'.key in KeysOf(levels[j], j == 0);
      KeysOfRungsAreNotEvents(levels, j);
    }
  }

  lemma QueuesOf(levels: seq<Level>, queue: string)
    requires IsLadder(levels)
    ensures Intended(levels).queues[PROCESS_QUEUE] == ProcessArgs() && Intended(levels).queues[DEAD_QUEUE] == DeadArgs()
    ensures OnRung(levels, queue) ==>
              queue != PROCESS_QUEUE && queue != DEAD_QUEUE && queue in Intended(levels).queues
              && Intended(levels).queues[queue].deadLetterExchange == Some(EVENTS)
              && Intended(levels).queues[queue].deadLetterKey == Some(RETRIED_KEY)
  {
    QueueNamesDiffer(levels);
    LevelQueuesAre(levels, queue);
  }

  /**
   * Routing closure, for every non-empty ladder. Events enter the main queue. From wherever a
   * message can be, every way on leads into exactly one queue, and to a place of the same kind: a
   * rejection leads to the first rung, an expiry back to the main queue, and only the dead queue
   * is an end.
   */
  lemma RoutingIsClosed(delays: seq<int>, spot: Spot, to: Address)
    requires delays != [] && InSystem(Levels(delays), spot)
    requires Onward(Intended(Levels(delays)), Levels(delays), spot, to)
    ensures exists q :: Routes(Intended(Levels(delays)), to.exchange, to.key) == {q}
              && InSystem(Levels(delays), Spot(q, to.key))
    ensures spot.queue != DEAD_QUEUE
    ensures spot.queue == PROCESS_QUEUE && DeadLetter(Intended(Levels(delays)), spot) == Some(to) ==>
              Routes(Intended(Levels(delays)), to.exchange, to.key) == {Levels(delays)[0].queue}
    ensures OnRung(Levels(delays), spot.queue) ==>
              Routes(Intended(Levels(delays)), to.exchange, to.key) == {PROCESS_QUEUE}
  {
    LevelsFormLadder(delays);
    ClosedOn(Levels(delays), spot, to);
  }

  lemma ClosedOn(levels: seq<Level>, spot: Spot, to: Address)
    requires IsLadder(levels) && levels != [] && InSystem(levels, spot) && Onward(Intended(levels), levels, spot, to)
    ensures exists q :: Routes(Intended(levels), to.exchange, to.key) == {q} && InSystem(levels, Spot(q, to.key))
    ensures spot.queue != DEAD_QUEUE
    ensures spot.queue == PROCESS_QUEUE && DeadLetter(Intended(levels), spot) == Some(to) ==>
              Routes(Intended(levels), to.exchange, to.key) == {levels[0].queue}
    ensures OnRung(levels, spot.queue) ==> Routes(Intended(levels), to.exchange, to.key) == {PROCESS_QUEUE}
  {
    QueuesOf(levels, spot.queue);
    if OnRung(levels, spot.queue) {
      assert to == Address(EVENTS, RETRIED_KEY);
      EventsRoute(levels, RETRIED_KEY);
      assert InSystem(levels, Spot(PROCESS_QUEUE, RETRIED_KEY));
    } else if DeadLetter(Intended(levels), spot) == Some(to) {
      RejectedRoute(levels, spot.key);
      assert OnRung(levels, levels[0].queue);
      assert InSystem(levels, Spot(levels[0].queue, to.key));
    } else if to == Address(DEAD, DEAD_KEY) {
      DeadRoute(levels);
      assert InSystem(levels, Spot(DEAD_QUEUE, DEAD_KEY));
    } else {
      var i :| 0 <= i < |levels| && to == Address(RETRY, levels[i].key);
      RungRoute(levels, i);
      assert OnRung(levels, levels[i].queue);
      assert InSystem(levels, Spot(levels[i].queue, to.key));
    }
  }
}
