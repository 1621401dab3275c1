/** Attempt counting from message headers, and the ladder of delays. */
module Retry {
  import opened Domain

  const MAX_ATTEMPTS := 5
  const MAX_INT32 := 0x7fff_ffff
  const ATTEMPTS_HEADER := "x-avatar-attempts"
  const DEATH_HEADER := "x-death"
  const COUNT_FIELD := "count"

  /** A header value; the broker and its clients write integers of several widths. */
  datatype Value =
    | Int64(n: int)
    | Int32(n: int)
    | Int16(n: int)
    | Int(n: int)
    | Text(text: string)
    | List(items: seq<Value>)
    | Table(fields: map<string, Value>)

  type Headers = map<string, Value>

  /** A positive integer of any width, no larger than an int32. */
  function HeaderInt(headers: Headers, name: string): (r: Option<nat>)
    ensures r.Some? ==> 0 < r.value <= MAX_INT32
  {
    if name !in headers then None
    else
      match headers[name]
      case Int64(n) => Bounded(n)
      case Int32(n) => Bounded(n)
      case Int16(n) => Bounded(n)
      case Int(n) => Bounded(n)
      case _ => None
  }

  function Bounded(n: int): Option<nat> {
    if n <= 0 || n > MAX_INT32 then None else Some(n)
  }

  /** What one entry of the death history adds to the count; an unexpected entry adds nothing. */
  function EntryCount(entry: Value): nat {
    if entry.Table? then
      match HeaderInt(entry.fields, COUNT_FIELD)
      case Some(n) => n
      case None => 0
    else
      0
  }

  function TotalCount(entries: seq<Value>): nat {
    if entries == [] then 0 else TotalCount(entries[..|entries| - 1]) + EntryCount(entries[|entries| - 1])
  }

  function DeathCount(headers: Headers): nat {
    if DEATH_HEADER in headers && headers[DEATH_HEADER].List? then
      TotalCount(headers[DEATH_HEADER].items)
    else
      0
  }

  /** The accumulation as the consumer performs it, one entry after another. */
  method CountDeaths(headers: Headers) returns (total: nat)
    ensures total == DeathCount(headers)
  {
    if DEATH_HEADER !in headers || !headers[DEATH_HEADER].List? {
      return 0;
    }
    var entries := headers[DEATH_HEADER].items;
    total := 0;
    for i := 0 to |entries|
      invariant total == TotalCount(entries[..i])
    {
      assert entries[..i + 1][..i] == entries[..i];
      if entries[i].Table? {
        var count := HeaderInt(entries[i].fields, COUNT_FIELD);
        if count.Some? {
          total := total + count.value;
        }
      }
    }
    assert entries[..|entries|] == entries;
  }

  /** The value is a counter that reads n: an integer of one of the four widths, positive and not too large. */
  predicate Counts(v: Value, n: int) {
    v in {Int64(n), Int32(n), Int16(n), Int(n)} && 0 < n <= 0x7fff_ffff
  }

  /** A history counts what its parts count, wherever it is cut. */
  lemma {:induction false} TotalsAddUp(a: seq<Value>, b: seq<Value>)
    ensures TotalCount(a + b) == TotalCount(a) + TotalCount(b)
    decreases |b|
  {
    if b == [] {
      assert a + b == a;
    } else {
      var init, last := b[..|b| - 1], b[|b| - 1];
      assert (a + b)[..|a + b| - 1] == a + init && (a + b)[|a + b| - 1] == last;
      TotalsAddUp(a, init);
    }
  }

  /** A table with a counter in it adds exactly that counter, and nothing else adds anything. */
  lemma EntryAddsItsCount(entry: Value)
    ensures forall n :: entry.Table? && "count" in entry.fields && Counts(entry.fields["count"], n) ==>
              TotalCount([entry]) == n
    ensures (!entry.Table? || "count" !in entry.fields || forall n :: !Counts(entry.fields["count"], n)) ==>
              TotalCount([entry]) == 0
  {
    assert [entry][..0] == [];
    assert TotalCount([entry]) == EntryCount(entry);
    if entry.Table? && "count" in entry.fields {
      match entry.fields["count"] {
        case Int64(n) => assert Counts(entry.fields["count"], n) <==> 0 < n <= MAX_INT32;
        case Int32(n) => assert Counts(entry.fields["count"], n) <==> 0 < n <= MAX_INT32;
        case Int16(n) => assert Counts(entry.fields["count"], n) <==> 0 < n <= MAX_INT32;
        case Int(n) => assert Counts(entry.fields["count"], n) <==> 0 < n <= MAX_INT32;
        case _ =>
      }
    }
  }

  /** The consumer's own counter wins; the broker's history is used only where it is absent. */
  function AttemptFrom(own: Option<nat>, deaths: nat): (attempt: nat)
    ensures attempt >= 1
    ensures own.Some? ==> attempt > own.value
  {
    match own
    case Some(n) => n + 1
    case None => deaths + 1
  }

  function AttemptNumber(headers: Headers): nat {
    AttemptFrom(HeaderInt(headers, ATTEMPTS_HEADER), DeathCount(headers))
  }

  /**
   * Where the number of an attempt comes from: one more than the own counter, whatever the broker has
   * recorded; without one, one more than what the recorded history counts, and the first without either.
   */
  lemma AttemptNumberIsRead(headers: Headers)
    ensures forall n :: "x-avatar-attempts" in headers && Counts(headers["x-avatar-attempts"], n) ==>
              AttemptNumber(headers) == n + 1
    ensures ("x-avatar-attempts" !in headers || forall n :: !Counts(headers["x-avatar-attempts"], n)) ==>
              AttemptNumber(headers) ==
                if "x-death" in headers && headers["x-death"].List? then TotalCount(headers["x-death"].items) + 1 else 1
  {
    if "x-avatar-attempts" in headers {
      match headers["x-avatar-attempts"] {
        case Int64(n) => assert Counts(headers["x-avatar-attempts"], n) <==> 0 < n <= MAX_INT32;
        case Int32(n) => assert Counts(headers["x-avatar-attempts"], n) <==> 0 < n <= MAX_INT32;
        case Int16(n) => assert Counts(headers["x-avatar-attempts"], n) <==> 0 < n <= MAX_INT32;
        case Int(n) => assert Counts(headers["x-avatar-attempts"], n) <==> 0 < n <= MAX_INT32;
        case _ =>
      }
    }
  }

  predicate IsFinal(attempt: nat) {
    attempt >= MAX_ATTEMPTS
  }

  /** Index of the rung a failed attempt goes to; everything past the ladder takes its last rung. */
  function RungFor(levels: nat, attempt: int): (index: nat)
    requires levels > 0
    ensures index < levels
  {
    var index := attempt - 1;
    var index := if index < 0 then 0 else index;
    if index >= levels then levels - 1 else index
  }

  /** Headers of the republished message: those of the delivery with the counter overwritten. */
  function Forwarded(headers: Headers, attempt: nat): Headers {
    headers[ATTEMPTS_HEADER := Int64(attempt)]
  }

  /**
   * Two consecutive deliveries of a message whose reroute was confirmed. The broker may write any
   * death history in between, but it keeps the counter the consumer has set.
   */
  predicate NextDelivery(headers: Headers, headers': Headers) {
    HeaderInt(headers', ATTEMPTS_HEADER) == HeaderInt(Forwarded(headers, AttemptNumber(headers)), ATTEMPTS_HEADER)
  }

  /** The deliveries of one message that fails every time, from the first on. */
  ghost predicate AlwaysRetried(history: seq<Headers>) {
    && |history| > 0
    && HeaderInt(history[0], ATTEMPTS_HEADER).None? && DeathCount(history[0]) == 0
    && forall i :: 0 <= i < |history| - 1 ==>
         !IsFinal(AttemptNumber(history[i])) && NextDelivery(history[i], history[i + 1])
  }

  lemma {:induction false} AttemptsCountUp(history: seq<Headers>, i: nat)
    requires AlwaysRetried(history) && i < |history|
    ensures AttemptNumber(history[i]) == i + 1
  {
    if i > 0 {
      AttemptsCountUp(history, i - 1);
      var n := AttemptNumber(history[i - 1]);
      assert NextDelivery(history[i - 1], history[i]) && !IsFinal(n);
      assert HeaderInt(Forwarded(history[i - 1], n), ATTEMPTS_HEADER) == Some(n);
    }
  }

  /**
   * A message that fails every time and is rerouted with confirmation is handled at most five
   * times. Failure n sends it to rung min(n, levels), the fifth one and no other is final, and
   * whatever the broker records, a message that has failed fewer than five times has a next
   * delivery.
   */
  lemma LadderIsBounded(history: seq<Headers>, levels: nat)
    requires AlwaysRetried(history) && levels > 0
    ensures |history| <= MAX_ATTEMPTS
    ensures IsFinal(AttemptNumber(history[|history| - 1])) <==> |history| == MAX_ATTEMPTS
    ensures forall i :: 0 <= i < |history| ==>
              RungFor(levels, AttemptNumber(history[i])) + 1 == if i + 1 < levels then i + 1 else levels
    ensures |history| < MAX_ATTEMPTS ==>
              forall h {:trigger NextDelivery(history[|history| - 1], h)} ::
                NextDelivery(history[|history| - 1], h) ==> AlwaysRetried(history + [h])
  {
    forall i | 0 <= i < |history| ensures AttemptNumber(history[i]) == i + 1 {
      AttemptsCountUp(history, i);
    }
    assert |history| <= MAX_ATTEMPTS || !IsFinal(AttemptNumber(history[MAX_ATTEMPTS - 1]));
  }
}
