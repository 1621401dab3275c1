/**
 * Token buckets on a clock that counts tokens: a moment is the number of tokens the rate has
 * produced by then, so that refilling is plain addition. A limiter that forgets idle keys is
 * compared with one that never does.
 */
module TokenClock {

  /** `idle` is how long a key is remembered, `interval` how often idle ones are looked for. */
  datatype Flow = Flow(burst: nat, idle: real, interval: real) {
    predicate Valid() { burst >= 1 && 0.0 < interval <= idle }
  }

  datatype Meter = Meter(tokens: real, last: real)

  datatype Table = Table(meters: map<string, Meter>, lastSweep: real)

  function Refill(f: Flow, level: real, d: real): real {
    if level + d > f.burst as real then f.burst as real else level + d
  }

  function LevelOf(f: Flow, tbl: Table, key: string, t: real): real {
    if key in tbl.meters then Refill(f, tbl.meters[key].tokens, t - tbl.meters[key].last) else f.burst as real
  }

  function Take(f: Flow, tbl: Table, key: string, now: real): Table {
    var level := LevelOf(f, tbl, key, now);
    tbl.(meters := tbl.meters[key := Meter(if level >= 1.0 then level - 1.0 else level, now)])
  }

  function Sweep(f: Flow, tbl: Table, now: real): Table {
    if now - tbl.lastSweep < f.interval then tbl
    else Table(map k | k in tbl.meters && now - tbl.meters[k].last <= f.idle :: tbl.meters[k], now)
  }

  predicate TableOk(f: Flow, tbl: Table, now: real) {
    && tbl.lastSweep <= now
    && forall k :: k in tbl.meters ==> 0.0 <= tbl.meters[k].tokens <= f.burst as real && tbl.meters[k].last <= now
  }

  datatype Call = Call(key: string, at: real)

  /** Calls come in the order of the clock. */
  predicate Ordered(calls: seq<Call>) {
    && (forall i :: 0 <= i < |calls| ==> calls[i].at >= 0.0)
    && (forall i, j :: 0 <= i < j < |calls| ==> calls[i].at <= calls[j].at)
  }

  function LastTime(calls: seq<Call>): real {
    if calls == [] then 0.0 else calls[|calls| - 1].at
  }

  /** The table a call finds: with idle keys removed, or with none ever removed. */
  function Found(f: Flow, forgets: bool, tbl: Table, now: real): Table {
    if forgets then Sweep(f, tbl, now) else tbl
  }

  function After(f: Flow, forgets: bool, calls: seq<Call>): Table {
    if calls == [] then Table(map[], 0.0)
    else
      var c := calls[|calls| - 1];
      Take(f, Found(f, forgets, After(f, forgets, calls[..|calls| - 1]), c.at), c.key, c.at)
  }

  /** Level of a key as the next call at that time finds it. */
  function LevelFound(f: Flow, forgets: bool, calls: seq<Call>, key: string, now: real): real {
    LevelOf(f, Found(f, forgets, After(f, forgets, calls), now), key, now)
  }

  /** Level of a key before idle keys are looked for again. */
  function LevelAfter(f: Flow, forgets: bool, calls: seq<Call>, key: string, t: real): real {
    LevelOf(f, After(f, forgets, calls), key, t)
  }

  /** How many of the calls of a key have passed. */
  function Admitted(f: Flow, forgets: bool, calls: seq<Call>, key: string): nat {
    if calls == [] then 0
    else
      var init, c := calls[..|calls| - 1], calls[|calls| - 1];
      Admitted(f, forgets, init, key) + if c.key == key && LevelFound(f, forgets, init, key, c.at) >= 1.0 then 1 else 0
  }

  // One step

  lemma SweepOnlyRaises(f: Flow, tbl: Table, key: string, t: real)
    requires f.Valid() && TableOk(f, tbl, t)
    ensures TableOk(f, Sweep(f, tbl, t), t)
    ensures 0.0 <= LevelOf(f, tbl, key, t) <= LevelOf(f, Sweep(f, tbl, t), key, t) <= f.burst as real
  {
  }

  /** A key idle for longer than the limit has a full bucket anyway, if the burst is small enough. */
  lemma SweepIsInvisible(f: Flow, tbl: Table, key: string, t: real)
    requires f.Valid() && TableOk(f, tbl, t) && f.burst as real <= f.idle
    ensures LevelOf(f, Sweep(f, tbl, t), key, t) == LevelOf(f, tbl, key, t)
  {
  }

  lemma TakeTakesOne(f: Flow, tbl: Table, key: string, k: string, t: real)
    requires f.Valid() && TableOk(f, tbl, t)
    ensures var tbl' := Take(f, tbl, key, t);
      && TableOk(f, tbl', t)
      && LevelOf(f, tbl', k, t) ==
           if k == key && LevelOf(f, tbl, k, t) >= 1.0 then LevelOf(f, tbl, k, t) - 1.0 else LevelOf(f, tbl, k, t)
  {
  }

  lemma {:induction false} TableStaysOk(f: Flow, forgets: bool, calls: seq<Call>, t: real)
    requires f.Valid() && Ordered(calls) && LastTime(calls) <= t && 0.0 <= t
    ensures TableOk(f, After(f, forgets, calls), t)
  {
    if calls != [] {
      var init, c := calls[..|calls| - 1], calls[|calls| - 1];
      TableStaysOk(f, forgets, init, c.at);
      var tbl := After(f, forgets, init);
      SweepOnlyRaises(f, tbl, c.key, c.at);
      TakeTakesOne(f, Found(f, forgets, tbl, c.at), c.key, c.key, c.at);
    }
  }

  lemma Unsnoc(init: seq<Call>, c: Call)
    requires Ordered(init + [c])
    ensures (init + [c])[..|init + [c]| - 1] == init && (init + [c])[|init + [c]| - 1] == c
    ensures Ordered(init) && LastTime(init) <= c.at && 0.0 <= c.at && LastTime(init + [c]) == c.at
  {
    var calls := init + [c];
    assert calls[..|calls| - 1] == init;
    assert calls[|init|] == c;
    assert forall i :: 0 <= i < |init| ==> calls[i] == init[i];
  }

  /** A call takes a token from the level it finds, and counts as admitted, if it is the key's and there is one. */
  lemma CallMovesLevel(f: Flow, forgets: bool, init: seq<Call>, c: Call, key: string)
    requires f.Valid() && Ordered(init + [c])
    ensures var passes := c.key == key && LevelFound(f, forgets, init, key, c.at) >= 1.0;
      && LevelAfter(f, forgets, init + [c], key, c.at) ==
           LevelFound(f, forgets, init, key, c.at) - (if passes then 1.0 else 0.0)
      && Admitted(f, forgets, init + [c], key) == Admitted(f, forgets, init, key) + (if passes then 1 else 0)
    ensures 0.0 <= LevelAfter(f, forgets, init, key, c.at) <= LevelFound(f, forgets, init, key, c.at) <= f.burst as real
  {
    Unsnoc(init, c);
    TableStaysOk(f, forgets, init, c.at);
    var tbl := After(f, forgets, init);
    SweepOnlyRaises(f, tbl, key, c.at);
    TakeTakesOne(f, Found(f, forgets, tbl, c.at), c.key, key, c.at);
  }

  lemma LevelLater(f: Flow, forgets: bool, calls: seq<Call>, key: string, t: real, t': real)
    requires f.Valid() && Ordered(calls) && LastTime(calls) <= t <= t' && 0.0 <= t
    ensures LevelAfter(f, forgets, calls, key, t') == Refill(f, LevelAfter(f, forgets, calls, key, t), t' - t)
    ensures 0.0 <= LevelAfter(f, forgets, calls, key, t) <= LevelAfter(f, forgets, calls, key, t') <= f.burst as real
  {
    TableStaysOk(f, forgets, calls, t);
  }

  // Forgetting is never to a caller's disadvantage.

  /** Requests admitted, and requests admitted plus tokens left, are no fewer. */
  predicate Ahead(a: nat, level: real, a': nat, level': real) {
    a >= a' && a as real + level >= a' as real + level'
  }

  lemma CallKeepsAhead(f: Flow, init: seq<Call>, c: Call, key: string)
    requires f.Valid() && Ordered(init + [c])
    requires Ahead(Admitted(f, true, init, key), LevelAfter(f, true, init, key, c.at),
                   Admitted(f, false, init, key), LevelAfter(f, false, init, key, c.at))
    ensures Ahead(Admitted(f, true, init + [c], key), LevelAfter(f, true, init + [c], key, c.at),
                  Admitted(f, false, init + [c], key), LevelAfter(f, false, init + [c], key, c.at))
  {
    CallMovesLevel(f, true, init, c, key);
    CallMovesLevel(f, false, init, c, key);
  }

  lemma RefillKeepsAhead(f: Flow, a: nat, level: real, a': nat, level': real, d: real)
    requires d >= 0.0 && Ahead(a, level, a', level') && level' <= f.burst as real
    ensures Ahead(a, Refill(f, level, d), a', Refill(f, level', d))
  {
  }

  /**
   * For every sequence of calls and every key, forgetting admits at least as many requests so far,
   * and requests admitted plus tokens left are never fewer either.
   */
  lemma {:induction false} ForgettingAdmitsNoLess(f: Flow, calls: seq<Call>, key: string, t: real)
    requires f.Valid() && Ordered(calls) && LastTime(calls) <= t && 0.0 <= t
    ensures Ahead(Admitted(f, true, calls, key), LevelAfter(f, true, calls, key, t),
                  Admitted(f, false, calls, key), LevelAfter(f, false, calls, key, t))
    decreases |calls|
  {
    if calls != [] {
      var init, c := calls[..|calls| - 1], calls[|calls| - 1];
      assert calls == init + [c];
      Unsnoc(init, c);
      ForgettingAdmitsNoLess(f, init, key, c.at);
      CallKeepsAhead(f, init, c, key);
      LevelLater(f, true, calls, key, c.at, t);
      LevelLater(f, false, calls, key, c.at, t);
      RefillKeepsAhead(f, Admitted(f, true, calls, key), LevelAfter(f, true, calls, key, c.at),
        Admitted(f, false, calls, key), LevelAfter(f, false, calls, key, c.at), t - c.at);
    }
  }

  // With a small enough burst forgetting is invisible.

  lemma FoundAgrees(f: Flow, calls: seq<Call>, key: string, t: real)
    requires f.Valid() && Ordered(calls) && LastTime(calls) <= t && 0.0 <= t && f.burst as real <= f.idle
    ensures LevelFound(f, true, calls, key, t) == LevelFound(f, false, calls, key, t)
    decreases |calls|, 1
  {
    LevelsAgree(f, calls, key, t);
    TableStaysOk(f, true, calls, t);
    SweepIsInvisible(f, After(f, true, calls), key, t);
  }

  lemma {:induction false} LevelsAgree(f: Flow, calls: seq<Call>, key: string, t: real)
    requires f.Valid() && Ordered(calls) && LastTime(calls) <= t && 0.0 <= t && f.burst as real <= f.idle
    ensures LevelAfter(f, true, calls, key, t) == LevelAfter(f, false, calls, key, t)
    decreases |calls|, 0
  {
    if calls != [] {
      var init, c := calls[..|calls| - 1], calls[|calls| - 1];
      assert calls == init + [c];
      Unsnoc(init, c);
      FoundAgrees(f, init, key, c.at);
      CallMovesLevel(f, true, init, c, key);
      CallMovesLevel(f, false, init, c, key);
      LevelLater(f, true, calls, key, c.at, t);
      LevelLater(f, false, calls, key, c.at, t);
    }
  }

  // Rate: what a key is admitted in a window

  predicate KeptBy(f: Flow, forgets: bool, calls: seq<Call>, now: real, key: string) {
    key in After(f, forgets, calls).meters ==> key in Found(f, forgets, After(f, forgets, calls), now).meters
  }

  /** No sweep after the first calls has removed the key. */
  predicate Kept(f: Flow, forgets: bool, pre: seq<Call>, more: seq<Call>, key: string) {
    more != [] ==>
      var init, c := more[..|more| - 1], more[|more| - 1];
      Kept(f, forgets, pre, init, key) && KeptBy(f, forgets, pre + init, c.at, key)
  }

  lemma {:induction false} RememberingKeepsAll(f: Flow, pre: seq<Call>, more: seq<Call>, key: string)
    ensures Kept(f, false, pre, more, key)
    decreases |more|
  {
    if more != [] { RememberingKeepsAll(f, pre, more[..|more| - 1], key); }
  }

  /** Requests admitted and tokens left at a moment. */
  function Worth(f: Flow, forgets: bool, calls: seq<Call>, key: string, t: real): real {
    Admitted(f, forgets, calls, key) as real + LevelAfter(f, forgets, calls, key, t)
  }

  lemma CallKeepsWorth(f: Flow, forgets: bool, init: seq<Call>, c: Call, key: string)
    requires f.Valid() && Ordered(init + [c]) && KeptBy(f, forgets, init, c.at, key)
    ensures Worth(f, forgets, init + [c], key, c.at) == Worth(f, forgets, init, key, c.at)
  {
    CallMovesLevel(f, forgets, init, c, key);
    assert LevelFound(f, forgets, init, key, c.at) == LevelAfter(f, forgets, init, key, c.at);
  }

  lemma WorthBounds(f: Flow, forgets: bool, calls: seq<Call>, key: string, t: real)
    requires f.Valid() && Ordered(calls) && LastTime(calls) <= t && 0.0 <= t
    ensures Admitted(f, forgets, calls, key) as real <= Worth(f, forgets, calls, key, t)
    ensures Worth(f, forgets, calls, key, t) <= Admitted(f, forgets, calls, key) as real + f.burst as real
  {
    LevelLater(f, forgets, calls, key, t, t);
  }

  lemma SplitLast(pre: seq<Call>, more: seq<Call>)
    requires Ordered(pre + more) && more != []
    ensures var init, c := more[..|more| - 1], more[|more| - 1];
      && pre + more == (pre + init) + [c]
      && Ordered(pre + init) && Ordered(pre)
      && LastTime(pre) <= more[0].at <= c.at && LastTime(pre + init) <= c.at && LastTime(pre + more) == c.at
      && c.at >= 0.0 && (init != [] ==> init[0] == more[0])
  {
    var calls, n := pre + more, |pre + more|;
    assert calls[n - 1] == more[|more| - 1] && calls[|pre|] == more[0];
    assert forall i :: 0 <= i < |pre| ==> pre[i] == calls[i];
    assert pre + more[..|more| - 1] == calls[..n - 1];
  }

  /** What is admitted is paid for by the tokens there were and those that came. */
  lemma {:induction false} AdmissionsArePaidFor(f: Flow, forgets: bool, pre: seq<Call>, more: seq<Call>, key: string,
                                                t: real, t': real)
    requires f.Valid() && Ordered(pre + more) && Kept(f, forgets, pre, more, key)
    requires LastTime(pre) <= t && (more != [] ==> t <= more[0].at) && LastTime(pre + more) <= t' && 0.0 <= t <= t'
    ensures Worth(f, forgets, pre + more, key, t') <= Worth(f, forgets, pre, key, t) + (t' - t)
    decreases |more|
  {
    if more == [] {
      assert pre + more == pre;
      LevelLater(f, forgets, pre, key, t, t');
    } else {
      var init, c := more[..|more| - 1], more[|more| - 1];
      SplitLast(pre, more);
      AdmissionsArePaidFor(f, forgets, pre, init, key, t, c.at);
      CallKeepsWorth(f, forgets, pre + init, c, key);
      LevelLater(f, forgets, pre + more, key, c.at, t');
    }
  }

  /** A key that is not forgotten passes at most burst + T times in any window of length T. */
  lemma WindowIsBounded(f: Flow, forgets: bool, pre: seq<Call>, window: seq<Call>, key: string, t: real, t': real)
    requires f.Valid() && Ordered(pre + window) && Kept(f, forgets, pre, window, key)
    requires window != [] && LastTime(pre) <= t <= window[0].at && window[|window| - 1].at <= t' && 0.0 <= t
    ensures Admitted(f, forgets, pre + window, key) as real
         <= Admitted(f, forgets, pre, key) as real + (f.burst as real + (t' - t))
  {
    SplitLast(pre, window);
    WorthBounds(f, forgets, pre, key, t);
    AdmissionsArePaidFor(f, forgets, pre, window, key, t, t');
    WorthBounds(f, forgets, pre + window, key, t');
  }

  // A burst that takes longer to refill than the idle time gives forgetting away.

  function Repeat(c: Call, n: nat): seq<Call> {
    if n == 0 then [] else Repeat(c, n - 1) + [c]
  }

  lemma {:induction false} RepeatIsConstant(c: Call, n: nat)
    ensures |Repeat(c, n)| == n && forall i :: 0 <= i < n ==> Repeat(c, n)[i] == c
  {
    if n > 0 { RepeatIsConstant(c, n - 1); }
  }

  lemma RepeatIsOrdered(calls: seq<Call>, c: Call, n: nat)
    requires Ordered(calls) && LastTime(calls) <= c.at && 0.0 <= c.at
    ensures Ordered(calls + Repeat(c, n)) && LastTime(calls + Repeat(c, n)) <= c.at
  {
    RepeatIsConstant(c, n);
  }

  /** A key that has just called is not idle. */
  lemma JustSeenIsKept(f: Flow, forgets: bool, init: seq<Call>, c: Call)
    requires f.Valid()
    ensures LevelFound(f, forgets, init + [c], c.key, c.at) == LevelAfter(f, forgets, init + [c], c.key, c.at)
  {
    var calls := init + [c];
    assert calls[..|calls| - 1] == init && calls[|calls| - 1] == c;
    assert After(f, forgets, calls).meters[c.key].last == c.at;
  }

  lemma OneMorePasses(f: Flow, forgets: bool, init: seq<Call>, c: Call)
    requires f.Valid() && Ordered(init + [c]) && LevelFound(f, forgets, init, c.key, c.at) >= 1.0
    ensures Admitted(f, forgets, init + [c], c.key) == Admitted(f, forgets, init, c.key) + 1
    ensures LevelFound(f, forgets, init + [c], c.key, c.at) == LevelFound(f, forgets, init, c.key, c.at) - 1.0
  {
    CallMovesLevel(f, forgets, init, c, c.key);
    JustSeenIsKept(f, forgets, init, c);
  }

  lemma {:induction false} AllPass(f: Flow, forgets: bool, pre: seq<Call>, c: Call, n: nat)
    requires f.Valid() && Ordered(pre) && LastTime(pre) <= c.at && 0.0 <= c.at
    requires LevelFound(f, forgets, pre, c.key, c.at) >= n as real
    ensures Admitted(f, forgets, pre + Repeat(c, n), c.key) == Admitted(f, forgets, pre, c.key) + n
    ensures LevelFound(f, forgets, pre + Repeat(c, n), c.key, c.at) ==
              LevelFound(f, forgets, pre, c.key, c.at) - n as real
    decreases n
  {
    if n == 0 {
      assert pre + Repeat(c, 0) == pre;
    } else {
      AllPass(f, forgets, pre, c, n - 1);
      RepeatsOnce(pre, c, n);
      OneMorePasses(f, forgets, pre + Repeat(c, n - 1), c);
    }
  }

  lemma RepeatsOnce(pre: seq<Call>, c: Call, n: nat)
    requires n > 0 && Ordered(pre) && LastTime(pre) <= c.at && 0.0 <= c.at
    ensures pre + Repeat(c, n) == (pre + Repeat(c, n - 1)) + [c] && Ordered((pre + Repeat(c, n - 1)) + [c])
  {
    RepeatIsOrdered(pre, c, n);
  }

  /** As many calls as the burst at once, and as many again after just over the idle time. */
  function Probe(f: Flow, again: real): seq<Call> {
    Repeat(Call("", 0.0), f.burst) + Repeat(Call("", again), f.burst)
  }

  lemma FoundIsNoLess(f: Flow, forgets: bool, calls: seq<Call>, key: string, t: real)
    requires f.Valid() && Ordered(calls) && LastTime(calls) <= t && 0.0 <= t
    ensures 0.0 <= LevelAfter(f, forgets, calls, key, t) <= LevelFound(f, forgets, calls, key, t)
  {
    TableStaysOk(f, forgets, calls, t);
    SweepOnlyRaises(f, After(f, forgets, calls), key, t);
  }

  lemma FirstBurstPasses(f: Flow, forgets: bool, c: Call)
    requires f.Valid() && c == Call("", 0.0)
    ensures var calls := Repeat(c, f.burst);
      && Ordered(calls) && LastTime(calls) <= 0.0
      && Admitted(f, forgets, calls, "") == f.burst
      && LevelAfter(f, forgets, calls, "", 0.0) == 0.0
  {
    assert [] + Repeat(c, f.burst) == Repeat(c, f.burst);
    RepeatIsOrdered([], c, f.burst);
    AllPass(f, forgets, [], c, f.burst);
    FoundIsNoLess(f, forgets, Repeat(c, f.burst), "", 0.0);
  }

  lemma ForgettingPassesBoth(f: Flow, again: real)
    requires f.Valid() && again > f.idle
    ensures Ordered(Probe(f, again)) && Admitted(f, true, Probe(f, again), "") == 2 * f.burst
  {
    var calls := Repeat(Call("", 0.0), f.burst);
    FirstBurstPasses(f, true, Call("", 0.0));
    TableStaysOk(f, true, calls, 0.0);
    assert LevelFound(f, true, calls, "", again) == f.burst as real;
    AllPass(f, true, calls, Call("", again), f.burst);
    RepeatIsOrdered(calls, Call("", again), f.burst);
  }

  lemma RememberingRefusesSome(f: Flow, again: real)
    requires f.Valid() && 0.0 < again < f.burst as real
    ensures Admitted(f, false, Probe(f, again), "") < 2 * f.burst
  {
    var calls, more := Repeat(Call("", 0.0), f.burst), Repeat(Call("", again), f.burst);
    FirstBurstPasses(f, false, Call("", 0.0));
    RememberingKeepsAll(f, calls, more, "");
    RepeatIsConstant(Call("", again), f.burst);
    RepeatIsOrdered(calls, Call("", again), f.burst);
    AdmissionsArePaidFor(f, false, calls, more, "", 0.0, again);
    WorthBounds(f, false, calls + more, "", again);
  }

  // Other keys

  lemma {:induction false} OthersOnlyRaise(f: Flow, forgets: bool, pre: seq<Call>, more: seq<Call>, key: string,
                                           t: real)
    requires f.Valid() && Ordered(pre + more) && Ordered(pre) && LastTime(pre + more) <= t && LastTime(pre) <= t
    requires 0.0 <= t
    requires forall c :: c in more ==> c.key != key
    ensures LevelAfter(f, forgets, pre, key, t) <= LevelAfter(f, forgets, pre + more, key, t)
    decreases |more|
  {
    if more == [] {
      assert pre + more == pre;
    } else {
      var init, c := more[..|more| - 1], more[|more| - 1];
      SplitLast(pre, more);
      OthersOnlyRaise(f, forgets, pre, init, key, c.at);
      CallMovesLevel(f, forgets, pre + init, c, key);
      LevelLater(f, forgets, pre, key, c.at, t);
      LevelLater(f, forgets, pre + more, key, c.at, t);
    }
  }

  // Refusals

  lemma RefusalKeepsLevel(f: Flow, calls: seq<Call>, c: Call, key: string, t: real)
    requires f.Valid() && Ordered(calls + [c]) && c.at <= t && LevelFound(f, false, calls, c.key, c.at) < 1.0
    ensures LevelAfter(f, false, calls + [c], key, t) == LevelAfter(f, false, calls, key, t)
  {
    Unsnoc(calls, c);
    CallMovesLevel(f, false, calls, c, key);
    LevelLater(f, false, calls, key, c.at, t);
    LevelLater(f, false, calls + [c], key, c.at, t);
  }

  lemma SameCallSameLevel(f: Flow, a: seq<Call>, b: seq<Call>, c: Call, key: string, t: real)
    requires f.Valid() && Ordered(a + [c]) && Ordered(b + [c]) && c.at <= t
    requires LevelAfter(f, false, a, key, c.at) == LevelAfter(f, false, b, key, c.at)
    ensures LevelAfter(f, false, a + [c], key, t) == LevelAfter(f, false, b + [c], key, t)
  {
    Unsnoc(a, c);
    Unsnoc(b, c);
    CallMovesLevel(f, false, a, c, key);
    CallMovesLevel(f, false, b, c, key);
    LevelLater(f, false, a + [c], key, c.at, t);
    LevelLater(f, false, b + [c], key, c.at, t);
  }

  /** A refused call is as if it had never been made, for every key and for good. */
  lemma {:induction false} RefusalLeavesNoTrace(f: Flow, calls: seq<Call>, c: Call, later: seq<Call>, key: string,
                                                t: real)
    requires f.Valid() && Ordered(calls + [c] + later) && Ordered(calls + [c]) && Ordered(calls + later)
    requires LevelFound(f, false, calls, c.key, c.at) < 1.0 && LastTime(calls + [c] + later) <= t && c.at <= t
    ensures LevelAfter(f, false, calls + [c] + later, key, t) == LevelAfter(f, false, calls + later, key, t)
    decreases |later|
  {
    if later == [] {
      assert calls + [c] + later == calls + [c] && calls + later == calls;
      RefusalKeepsLevel(f, calls, c, key, t);
    } else {
      var init, d := later[..|later| - 1], later[|later| - 1];
      SplitLast(calls + [c], later);
      SplitLast(calls, later);
      Unsnoc(calls, c);
      Unsnoc(calls + [c] + init, d);
      assert LastTime(calls + [c]) == c.at;
      RefusalLeavesNoTrace(f, calls, c, init, key, d.at);
      SameCallSameLevel(f, calls + [c] + init, calls + init, d, key, t);
    }
  }

  // With forgetting, a refused call can cost the caller a full bucket: it keeps the key from being forgotten.

  /** At one moment every call takes a token, until less than one is left. */
  lemma {:induction false} LevelRunsOut(f: Flow, forgets: bool, pre: seq<Call>, c: Call, n: nat)
    requires f.Valid() && Ordered(pre) && LastTime(pre) <= c.at && 0.0 <= c.at
    ensures var level, level' := LevelFound(f, forgets, pre, c.key, c.at),
              LevelFound(f, forgets, pre + Repeat(c, n), c.key, c.at);
      level' == level - n as real || level' < 1.0
    decreases n
  {
    if n == 0 {
      assert pre + Repeat(c, 0) == pre;
    } else {
      LevelRunsOut(f, forgets, pre, c, n - 1);
      RepeatsOnce(pre, c, n);
      OneMoreTakes(f, forgets, pre + Repeat(c, n - 1), c);
    }
  }

  lemma OneMoreTakes(f: Flow, forgets: bool, init: seq<Call>, c: Call)
    requires f.Valid() && Ordered(init + [c])
    ensures var level := LevelFound(f, forgets, init, c.key, c.at);
      LevelFound(f, forgets, init + [c], c.key, c.at) == if level >= 1.0 then level - 1.0 else level
  {
    CallMovesLevel(f, forgets, init, c, c.key);
    JustSeenIsKept(f, forgets, init, c);
  }

  /** The burst is used up at once, and again `soon` after the idle time; in between, one call comes too early. */
  function Spent(f: Flow): seq<Call> { Repeat(Call("", 0.0), f.burst) }

  function TooEarly(soon: real): Call { Call("", soon) }

  function Again(f: Flow, soon: real): Call { Call("", f.idle + soon) }

  lemma SpentIsEmpty(f: Flow, forgets: bool, soon: real)
    requires f.Valid() && soon > 0.0
    ensures Ordered(Spent(f)) && LastTime(Spent(f)) <= 0.0 && Ordered(Spent(f) + [TooEarly(soon)])
    ensures LevelAfter(f, forgets, Spent(f), "", soon) == Refill(f, 0.0, soon)
    ensures TableOk(f, After(f, forgets, Spent(f)), 0.0)
  {
    FirstBurstPasses(f, forgets, Call("", 0.0));
    LevelLater(f, forgets, Spent(f), "", 0.0, soon);
    TableStaysOk(f, forgets, Spent(f), 0.0);
    RepeatIsConstant(Call("", 0.0), f.burst);
  }

  lemma LastSeen(f: Flow, forgets: bool, init: seq<Call>, c: Call)
    ensures c.key in After(f, forgets, init + [c]).meters && After(f, forgets, init + [c]).meters[c.key].last == c.at
  {
    var calls := init + [c];
    assert calls[..|calls| - 1] == init && calls[|calls| - 1] == c;
  }

  /** A key seen within the idle time is found as it was left. */
  lemma SeenIsFound(f: Flow, init: seq<Call>, c: Call, t: real)
    requires f.Valid() && t - c.at <= f.idle
    ensures LevelFound(f, true, init + [c], c.key, t) == LevelAfter(f, true, init + [c], c.key, t)
  {
    LastSeen(f, true, init, c);
  }

  /** The early call is refused: too little has flowed in, and the key is not idle yet. */
  lemma EarlyIsRefused(f: Flow, soon: real)
    requires f.Valid() && 0.0 < soon < 1.0 && soon <= f.idle
    ensures LevelFound(f, true, Spent(f), "", soon) == soon
  {
    SpentIsEmpty(f, true, soon);
    assert Spent(f) == Repeat(Call("", 0.0), f.burst - 1) + [Call("", 0.0)];
    SeenIsFound(f, Repeat(Call("", 0.0), f.burst - 1), Call("", 0.0), soon);
  }

  /** Having been seen, the key is remembered, with what has flowed in since the burst. */
  lemma RefusedIsRemembered(f: Flow, soon: real)
    requires f.Valid() && 0.0 < soon < 1.0 && soon <= f.idle && f.idle + soon < f.burst as real
    ensures LevelFound(f, true, Spent(f) + [TooEarly(soon)], "", f.idle + soon) == f.idle + soon
  {
    var c, t := TooEarly(soon), f.idle + soon;
    SpentIsEmpty(f, true, soon);
    EarlyIsRefused(f, soon);
    CallMovesLevel(f, true, Spent(f), c, "");
    Unsnoc(Spent(f), c);
    LevelLater(f, true, Spent(f) + [c], "", soon, t);
    SeenIsFound(f, Spent(f), c, t);
  }

  /** Left out, the key is forgotten, and comes back to a full bucket. */
  lemma SilentIsForgotten(f: Flow, soon: real)
    requires f.Valid() && soon > 0.0
    ensures LevelFound(f, true, Spent(f), "", f.idle + soon) == f.burst as real
  {
    SpentIsEmpty(f, true, soon);
  }

  lemma WithRefusalOneIsMissing(f: Flow, soon: real)
    requires f.Valid() && 0.0 < soon < 1.0 && soon <= f.idle && f.idle + soon < f.burst as real
    ensures LevelFound(f, true, Spent(f) + [TooEarly(soon)] + Repeat(Again(f, soon), f.burst - 1), "",
              f.idle + soon) < 1.0
  {
    var calls := Spent(f) + [TooEarly(soon)];
    SpentIsEmpty(f, true, soon);
    Unsnoc(Spent(f), TooEarly(soon));
    RefusedIsRemembered(f, soon);
    LevelRunsOut(f, true, calls, Again(f, soon), f.burst - 1);
  }

  lemma WithoutRefusalAllPass(f: Flow, soon: real)
    requires f.Valid() && soon > 0.0
    ensures LevelFound(f, true, Spent(f) + Repeat(Again(f, soon), f.burst - 1), "", f.idle + soon) == 1.0
  {
    SpentIsEmpty(f, true, soon);
    SilentIsForgotten(f, soon);
    AllPass(f, true, Spent(f), Again(f, soon), f.burst - 1);
  }

  lemma RefusalCallsAreOrdered(f: Flow, soon: real)
    requires f.Valid() && soon > 0.0
    ensures Ordered(Spent(f) + [TooEarly(soon)] + Repeat(Again(f, soon), f.burst - 1) + [Again(f, soon)])
  {
    var calls, d := Spent(f) + [TooEarly(soon)], Again(f, soon);
    SpentIsEmpty(f, true, soon);
    Unsnoc(Spent(f), TooEarly(soon));
    RepeatIsOrdered(calls, d, f.burst);
    assert calls + Repeat(d, f.burst) == calls + Repeat(d, f.burst - 1) + [d];
  }

  // What forgetting can give away: a burst for every time the key is forgotten

  /** How often a sweep after the first calls has removed the key. */
  function Evictions(f: Flow, pre: seq<Call>, more: seq<Call>, key: string): nat {
    if more == [] then 0
    else
      var init, c := more[..|more| - 1], more[|more| - 1];
      Evictions(f, pre, init, key) + if KeptBy(f, true, pre + init, c.at, key) then 0 else 1
  }

  /** The bursts given away by them. */
  function GivenAway(f: Flow, pre: seq<Call>, more: seq<Call>, key: string): nat {
    if more == [] then 0
    else
      var init, c := more[..|more| - 1], more[|more| - 1];
      GivenAway(f, pre, init, key) + if KeptBy(f, true, pre + init, c.at, key) then 0 else f.burst
  }

  lemma OneBurstMore(burst: nat, n: nat)
    ensures burst * (n + 1) == burst * n + burst
  {
  }

  lemma {:induction false} BurstPerEviction(f: Flow, pre: seq<Call>, more: seq<Call>, key: string)
    ensures GivenAway(f, pre, more, key) == f.burst * Evictions(f, pre, more, key)
    decreases |more|
  {
    if more != [] {
      BurstPerEviction(f, pre, more[..|more| - 1], key);
      OneBurstMore(f.burst, Evictions(f, pre, more[..|more| - 1], key));
    }
  }

  lemma CallAddsAtMostBurst(f: Flow, init: seq<Call>, c: Call, key: string)
    requires f.Valid() && Ordered(init + [c])
    ensures Worth(f, true, init + [c], key, c.at)
         <= Worth(f, true, init, key, c.at) + if KeptBy(f, true, init, c.at, key) then 0.0 else f.burst as real
  {
    CallMovesLevel(f, true, init, c, key);
    if KeptBy(f, true, init, c.at, key) { CallKeepsWorth(f, true, init, c, key); }
  }

  lemma CallAndTimeAdd(f: Flow, init: seq<Call>, c: Call, key: string, t': real)
    requires f.Valid() && Ordered(init + [c]) && c.at <= t'
    ensures Worth(f, true, init + [c], key, t')
         <= Worth(f, true, init, key, c.at) + (t' - c.at) +
           if KeptBy(f, true, init, c.at, key) then 0.0 else f.burst as real
  {
    CallAddsAtMostBurst(f, init, c, key);
    Unsnoc(init, c);
    LevelLater(f, true, init + [c], key, c.at, t');
  }

  /** What is admitted is paid for by the tokens there were, those that came, and those given away. */
  lemma {:induction false} AdmissionsArePaidForOrGiven(f: Flow, pre: seq<Call>, more: seq<Call>, key: string, t: real,
                                                       t': real)
    requires f.Valid() && Ordered(pre + more)
    requires LastTime(pre) <= t && (more != [] ==> t <= more[0].at) && LastTime(pre + more) <= t' && 0.0 <= t <= t'
    ensures Worth(f, true, pre + more, key, t') <=
              Worth(f, true, pre, key, t) + (t' - t) + GivenAway(f, pre, more, key) as real
    decreases |more|
  {
    if more == [] {
      assert pre + more == pre;
      LevelLater(f, true, pre, key, t, t');
    } else {
      var init, c := more[..|more| - 1], more[|more| - 1];
      SplitLast(pre, more);
      AdmissionsArePaidForOrGiven(f, pre, init, key, t, c.at);
      CallAndTimeAdd(f, pre + init, c, key, t');
    }
  }

  /** In any window a key passes at most burst + T times, and a burst more for every time it was forgotten. */
  lemma WindowIsBoundedByEvictions(f: Flow, pre: seq<Call>, window: seq<Call>, key: string, t: real, t': real)
    requires f.Valid() && Ordered(pre + window) && window != []
    requires LastTime(pre) <= t <= window[0].at && window[|window| - 1].at <= t' && 0.0 <= t
    ensures Admitted(f, true, pre + window, key) as real
         <= Admitted(f, true, pre, key) as real + (f.burst as real + (t' - t)) + GivenAway(f, pre, window, key) as real
  {
    SplitLast(pre, window);
    WorthBounds(f, true, pre, key, t);
    AdmissionsArePaidForOrGiven(f, pre, window, key, t, t');
    WorthBounds(f, true, pre + window, key, t');
  }
}
