/** What callers of the rate limiter may rely on, in seconds. */
module RateLimitTheorems {
  import opened Domain
  import opened RateLimit
  import TokenClock

  type Call = TokenClock.Call

  /** The table after calls at times in seconds, with idle keys forgotten or not. */
  function After(l: Limits, forgets: bool, calls: seq<Call>): Table {
    if calls == [] then Table(map[], 0.0)
    else
      var c := calls[|calls| - 1];
      Take(l, Found(forgets, After(l, forgets, calls[..|calls| - 1]), c.at), c.key, c.at)
  }

  function Found(forgets: bool, tbl: Table, now: real): Table {
    if forgets then Sweep(tbl, now) else tbl
  }

  function LevelFound(l: Limits, forgets: bool, calls: seq<Call>, key: string, now: real): real {
    Level(l, Found(forgets, After(l, forgets, calls), now), key, now)
  }

  datatype Answer = Pass | Refuse(retryAfter: int)

  /** The answer to a call that follows others; this is what the class computes when it forgets. */
  function AnswerTo(l: Limits, forgets: bool, calls: seq<Call>, c: Call): Answer
    requires l.Valid()
  {
    var level := LevelFound(l, forgets, calls, c.key, c.at);
    if level >= 1.0 then Pass else Refuse(RetryAfter(l, level))
  }

  function Admitted(l: Limits, forgets: bool, calls: seq<Call>, key: string): nat
    requires l.Valid()
  {
    if calls == [] then 0
    else
      var init, c := calls[..|calls| - 1], calls[|calls| - 1];
      Admitted(l, forgets, init, key) + if c.key == key && AnswerTo(l, forgets, init, c) == Pass then 1 else 0
  }

  lemma OneCallLater(l: Limits, forgets: bool, calls: seq<Call>, c: Call)
    ensures After(l, forgets, calls + [c]) == Take(l, Found(forgets, After(l, forgets, calls), c.at), c.key, c.at)
  {
    var all := calls + [c];
    assert all[..|all| - 1] == calls && all[|all| - 1] == c;
  }

  /** The limiter object answers one more call as the model does. */
  method Ask(limiters: Limiters, ghost calls: seq<Call>, c: Call) returns (answer: Answer)
    requires limiters.Valid(c.at) && limiters.Contents() == After(limiters.limits, true, calls) && c.at >= 0.0
    modifies limiters
    ensures limiters.Valid(c.at) && limiters.Contents() == After(limiters.limits, true, calls + [c])
    ensures answer == AnswerTo(limiters.limits, true, calls, c)
  {
    var ok, retryAfter := limiters.Allow(c.key, c.at);
    OneCallLater(limiters.limits, true, calls, c);
    answer := if ok then Pass else Refuse(retryAfter);
  }

  /** The answers to the first n calls are those of the model. */
  ghost predicate Answered(l: Limits, calls: seq<Call>, answers: seq<Answer>, n: nat)
    requires l.Valid() && n <= |calls|
  {
    |answers| == n && forall i :: 0 <= i < n ==> answers[i] == AnswerTo(l, true, calls[..i], calls[i])
  }

  lemma AnsweredOnce(l: Limits, calls: seq<Call>, answers: seq<Answer>, n: nat, answer: Answer)
    requires l.Valid() && n < |calls| && Answered(l, calls, answers, n)
    requires answer == AnswerTo(l, true, calls[..n], calls[n])
    ensures Answered(l, calls, answers + [answer], n + 1) && calls[..n + 1] == calls[..n] + [calls[n]]
  {
  }

  /** The limiter object, asked in the order of the clock, gives the answers of the model. */
  method Replay(rps: real, burst: nat, calls: seq<Call>) returns (answers: seq<Answer>)
    requires rps > 0.0 && TokenClock.Ordered(calls)
    ensures Answered(Limits(rps, BurstFor(rps, burst)), calls, answers, |calls|)
  {
    var limiters := new Limiters(rps, burst);
    var l := limiters.limits;
    answers := [];
    for i := 0 to |calls|
      invariant limiters.limits == l && limiters.Valid(if i == 0 then 0.0 else calls[i - 1].at)
      invariant limiters.Contents() == After(l, true, calls[..i])
      invariant Answered(l, calls, answers, i)
    {
      var answer := Ask(limiters, calls[..i], calls[i]);
      AnsweredOnce(l, calls, answers, i, answer);
      answers := answers + [answer];
    }
  }

  // From seconds to the clock that counts tokens. The clock is a parameter: all that the proofs
  // need to know about it is how it orders moments and how it refills a bucket.

  function FlowOf(l: Limits, clock: real -> real): TokenClock.Flow {
    TokenClock.Flow(l.burst, clock(IDLE_TTL), clock(SWEEP_INTERVAL))
  }

  /** The clock orders two moments as seconds do, and tells how a bucket refills between them. */
  ghost predicate Tells(l: Limits, clock: real -> real, t: real, t': real) {
    && (t <= t' <==> clock(t) <= clock(t'))
    && (t' - t < SWEEP_INTERVAL <==> clock(t') - clock(t) < clock(SWEEP_INTERVAL))
    && (t' - t <= IDLE_TTL <==> clock(t') - clock(t) <= clock(IDLE_TTL))
    && (t <= t' ==> forall x :: Advance(l, x, t, t') == TokenClock.Refill(FlowOf(l, clock), x, clock(t') - clock(t)))
  }

  ghost predicate Counts(l: Limits, clock: real -> real) {
    && l.Valid()
    && clock(0.0) == 0.0 && 0.0 < clock(SWEEP_INTERVAL) <= clock(IDLE_TTL)
    && (forall t, t' :: Tells(l, clock, t, t'))
  }

  function Scaled(clock: real -> real, calls: seq<Call>): seq<Call> {
    seq(|calls|, i requires 0 <= i < |calls| => TokenClock.Call(calls[i].key, clock(calls[i].at)))
  }

  function ScaledMeter(clock: real -> real, m: Meter): TokenClock.Meter {
    TokenClock.Meter(m.tokens, clock(m.last))
  }

  function ScaledTable(clock: real -> real, tbl: Table): TokenClock.Table {
    TokenClock.Table(map k | k in tbl.meters :: ScaledMeter(clock, tbl.meters[k]), clock(tbl.lastSweep))
  }

  lemma ScaledIsOrdered(l: Limits, clock: real -> real, calls: seq<Call>, t: real)
    requires Counts(l, clock) && TokenClock.Ordered(calls) && TokenClock.LastTime(calls) <= t && 0.0 <= t
    ensures TokenClock.Ordered(Scaled(clock, calls)) && TokenClock.LastTime(Scaled(clock, calls)) <= clock(t)
    ensures 0.0 <= clock(t)
  {
    assert Tells(l, clock, 0.0, t) && Tells(l, clock, TokenClock.LastTime(calls), t);
    forall i | 0 <= i < |calls| ensures clock(calls[i].at) >= 0.0 {
      assert Tells(l, clock, 0.0, calls[i].at);
    }
    forall i, j | 0 <= i < j < |calls| ensures clock(calls[i].at) <= clock(calls[j].at) {
      assert Tells(l, clock, calls[i].at, calls[j].at);
    }
  }

  lemma LevelScales(l: Limits, clock: real -> real, tbl: Table, key: string, t: real)
    requires Counts(l, clock) && (key in tbl.meters ==> tbl.meters[key].last <= t)
    ensures Level(l, tbl, key, t) == TokenClock.LevelOf(FlowOf(l, clock), ScaledTable(clock, tbl), key, clock(t))
  {
    if key in tbl.meters { assert Tells(l, clock, tbl.meters[key].last, t); }
  }

  lemma TakeScales(l: Limits, clock: real -> real, f: TokenClock.Flow, tbl: Table, key: string, now: real)
    requires Level(l, tbl, key, now) == TokenClock.LevelOf(f, ScaledTable(clock, tbl), key, clock(now))
    ensures ScaledTable(clock, Take(l, tbl, key, now)) == TokenClock.Take(f, ScaledTable(clock, tbl), key, clock(now))
  {
    var level := Level(l, tbl, key, now);
    var m := Meter(if level >= 1.0 then level - 1.0 else level, now);
    MeterScales(clock, tbl, key, m);
  }

  lemma MeterScales(clock: real -> real, tbl: Table, key: string, m: Meter)
    ensures ScaledTable(clock, tbl.(meters := tbl.meters[key := m])) ==
      ScaledTable(clock, tbl).(meters := ScaledTable(clock, tbl).meters[key := ScaledMeter(clock, m)])
  {
    assert ScaledTable(clock, tbl.(meters := tbl.meters[key := m])).meters ==
      ScaledTable(clock, tbl).meters[key := ScaledMeter(clock, m)];
  }

  lemma SweepScales(l: Limits, clock: real -> real, tbl: Table, now: real)
    requires Counts(l, clock)
    ensures ScaledTable(clock, Sweep(tbl, now)) ==
              TokenClock.Sweep(FlowOf(l, clock), ScaledTable(clock, tbl), clock(now))
  {
    forall k | k in tbl.meters ensures IdleOn(clock, tbl.meters[k].last, now) {
      assert Tells(l, clock, tbl.meters[k].last, now);
    }
    assert Tells(l, clock, tbl.lastSweep, now);
    RemovalScales(clock, FlowOf(l, clock), tbl, now);
  }

  /** Both clocks agree on whether a key is idle. */
  predicate IdleOn(clock: real -> real, last: real, now: real) {
    now - last <= IDLE_TTL <==> clock(now) - clock(last) <= clock(IDLE_TTL)
  }

  lemma RemovalScales(clock: real -> real, f: TokenClock.Flow, tbl: Table, now: real)
    requires f.idle == clock(IDLE_TTL) && f.interval == clock(SWEEP_INTERVAL)
    requires now - tbl.lastSweep < SWEEP_INTERVAL <==> clock(now) - clock(tbl.lastSweep) < clock(SWEEP_INTERVAL)
    requires forall k :: k in tbl.meters ==> IdleOn(clock, tbl.meters[k].last, now)
    ensures ScaledTable(clock, Sweep(tbl, now)) == TokenClock.Sweep(f, ScaledTable(clock, tbl), clock(now))
  {
    assert ScaledTable(clock, Sweep(tbl, now)).meters ==
      TokenClock.Sweep(f, ScaledTable(clock, tbl), clock(now)).meters;
  }

  predicate NotAhead(tbl: Table, now: real) {
    forall k :: k in tbl.meters ==> tbl.meters[k].last <= now
  }

  lemma CallScales(l: Limits, clock: real -> real, forgets: bool, tbl: Table, key: string, now: real)
    requires Counts(l, clock) && NotAhead(tbl, now)
    ensures var found, f := Found(forgets, tbl, now), FlowOf(l, clock);
      && ScaledTable(clock, found) == TokenClock.Found(f, forgets, ScaledTable(clock, tbl), clock(now))
      && Level(l, found, key, now) == TokenClock.LevelOf(f, ScaledTable(clock, found), key, clock(now))
      && ScaledTable(clock, Take(l, found, key, now)) == TokenClock.Take(f, ScaledTable(clock, found), key, clock(now))
  {
    SweepScales(l, clock, tbl, now);
    LevelScales(l, clock, Found(forgets, tbl, now), key, now);
    TakeScales(l, clock, FlowOf(l, clock), Found(forgets, tbl, now), key, now);
  }

  lemma {:induction false} TableIsNotAhead(l: Limits, forgets: bool, calls: seq<Call>, t: real)
    requires TokenClock.Ordered(calls) && TokenClock.LastTime(calls) <= t
    ensures NotAhead(After(l, forgets, calls), t)
    decreases |calls|
  {
    if calls != [] {
      TableIsNotAhead(l, forgets, calls[..|calls| - 1], calls[|calls| - 1].at);
    }
  }

  /** Both clocks tell the same story. */
  lemma {:induction false} AfterScales(l: Limits, clock: real -> real, forgets: bool, calls: seq<Call>, t: real)
    requires Counts(l, clock) && TokenClock.Ordered(calls) && TokenClock.LastTime(calls) <= t
    ensures NotAhead(After(l, forgets, calls), t)
    ensures ScaledTable(clock, After(l, forgets, calls)) ==
              TokenClock.After(FlowOf(l, clock), forgets, Scaled(clock, calls))
    decreases |calls|
  {
    TableIsNotAhead(l, forgets, calls, t);
    if calls == [] {
      assert ScaledTable(clock, Table(map[], 0.0)).meters == map[];
    } else {
      var init, c := calls[..|calls| - 1], calls[|calls| - 1];
      AfterScales(l, clock, forgets, init, c.at);
      CallScales(l, clock, forgets, After(l, forgets, init), c.key, c.at);
      assert Scaled(clock, calls)[..|calls| - 1] == Scaled(clock, init);
    }
  }

  lemma FoundScales(l: Limits, clock: real -> real, forgets: bool, calls: seq<Call>, key: string, t: real)
    requires Counts(l, clock) && TokenClock.Ordered(calls) && TokenClock.LastTime(calls) <= t
    ensures LevelFound(l, forgets, calls, key, t) ==
      TokenClock.LevelFound(FlowOf(l, clock), forgets, Scaled(clock, calls), key, clock(t))
  {
    AfterScales(l, clock, forgets, calls, t);
    CallScales(l, clock, forgets, After(l, forgets, calls), key, t);
  }

  lemma {:induction false} AdmittedScales(l: Limits, clock: real -> real, forgets: bool, calls: seq<Call>, key: string)
    requires Counts(l, clock) && TokenClock.Ordered(calls)
    ensures Admitted(l, forgets, calls, key) ==
              TokenClock.Admitted(FlowOf(l, clock), forgets, Scaled(clock, calls), key)
    decreases |calls|
  {
    if calls != [] {
      var init, c := calls[..|calls| - 1], calls[|calls| - 1];
      AdmittedScales(l, clock, forgets, init, key);
      FoundScales(l, clock, forgets, init, key, c.at);
      assert Scaled(clock, calls)[..|calls| - 1] == Scaled(clock, init);
    }
  }

  /** The number of tokens the rate has produced by a moment. */
  function TokensBy(l: Limits): real -> real {
    (t: real) => l.rps * t
  }

  lemma ProductsKeepOrder(rps: real, t: real, t': real, d: real)
    requires rps > 0.0
    ensures rps * (t' - t) == rps * t' - rps * t
    ensures t <= t' <==> rps * t <= rps * t'
    ensures t' - t < d <==> rps * t' - rps * t < rps * d
    ensures t' - t <= d <==> rps * t' - rps * t <= rps * d
  {
    assert rps * (t' - t) == rps * t' - rps * t;
    assert t' - t >= 0.0 <==> rps * (t' - t) >= 0.0;
    assert t' - t - d < 0.0 <==> rps * (t' - t - d) < 0.0;
    assert t' - t - d <= 0.0 <==> rps * (t' - t - d) <= 0.0;
  }

  lemma TokensBetween(l: Limits, t: real, t': real)
    ensures TokensBy(l)(t') - TokensBy(l)(t) == l.rps * (t' - t)
  {
  }

  lemma TokensOrder(l: Limits, t: real, t': real, d: real)
    requires l.Valid()
    ensures var clock := TokensBy(l);
      && (t <= t' <==> clock(t) <= clock(t'))
      && (t' - t < d <==> clock(t') - clock(t) < clock(d))
      && (t' - t <= d <==> clock(t') - clock(t) <= clock(d))
  {
    ProductsKeepOrder(l.rps, t, t', d);
  }

  lemma TokensTell(l: Limits, t: real, t': real)
    requires l.Valid()
    ensures Tells(l, TokensBy(l), t, t')
  {
    var clock := TokensBy(l);
    TokensOrder(l, t, t', SWEEP_INTERVAL);
    TokensOrder(l, t, t', IDLE_TTL);
    if t <= t' {
      TokensBetween(l, t, t');
      forall x ensures Advance(l, x, t, t') == TokenClock.Refill(FlowOf(l, clock), x, clock(t') - clock(t)) {}
    }
  }

  lemma TokensCount(l: Limits)
    requires l.Valid()
    ensures Counts(l, TokensBy(l))
  {
    forall t, t' ensures Tells(l, TokensBy(l), t, t') {
      TokensTell(l, t, t');
    }
  }

  // Sweep refinement

  lemma AdmitsNoLessOn(l: Limits, clock: real -> real, calls: seq<Call>, key: string)
    requires Counts(l, clock) && TokenClock.Ordered(calls)
    ensures Admitted(l, true, calls, key) >= Admitted(l, false, calls, key)
  {
    AdmittedScales(l, clock, true, calls, key);
    AdmittedScales(l, clock, false, calls, key);
    ScaledIsOrdered(l, clock, calls, TokenClock.LastTime(calls));
    TokenClock.ForgettingAdmitsNoLess(FlowOf(l, clock), Scaled(clock, calls), key, clock(TokenClock.LastTime(calls)));
  }

  /** In every sequence of calls, forgetting idle keys admits every key at least as often. */
  lemma SweepingAdmitsNoLess(l: Limits, calls: seq<Call>, key: string)
    requires l.Valid() && TokenClock.Ordered(calls)
    ensures Admitted(l, true, calls, key) >= Admitted(l, false, calls, key)
  {
    TokensCount(l);
    AdmitsNoLessOn(l, TokensBy(l), calls, key);
  }

  /** No sequence of calls tells the limiter that forgets from the one that does not. */
  ghost predicate Indistinguishable(l: Limits)
    requires l.Valid()
  {
    forall calls, c :: TokenClock.Ordered(calls + [c]) ==> AnswerTo(l, true, calls, c) == AnswerTo(l, false, calls, c)
  }

  lemma FastRefillHides(l: Limits, clock: real -> real, calls: seq<Call>, c: Call)
    requires Counts(l, clock) && l.burst as real <= clock(IDLE_TTL) && TokenClock.Ordered(calls + [c])
    ensures AnswerTo(l, true, calls, c) == AnswerTo(l, false, calls, c)
  {
    TokenClock.Unsnoc(calls, c);
    FoundScales(l, clock, true, calls, c.key, c.at);
    FoundScales(l, clock, false, calls, c.key, c.at);
    ScaledIsOrdered(l, clock, calls, c.at);
    TokenClock.FoundAgrees(FlowOf(l, clock), Scaled(clock, calls), c.key, clock(c.at));
  }

  lemma {:induction false} SameAnswersSameAdmissions(l: Limits, calls: seq<Call>, key: string)
    requires l.Valid() && TokenClock.Ordered(calls) && Indistinguishable(l)
    ensures Admitted(l, true, calls, key) == Admitted(l, false, calls, key)
    decreases |calls|
  {
    if calls != [] {
      var init, c := calls[..|calls| - 1], calls[|calls| - 1];
      assert calls == init + [c];
      assert AnswerTo(l, true, init, c) == AnswerTo(l, false, init, c);
      SameAnswersSameAdmissions(l, init, key);
    }
  }

  lemma {:induction false} RepeatScales(clock: real -> real, c: Call, n: nat)
    ensures Scaled(clock, TokenClock.Repeat(c, n)) == TokenClock.Repeat(TokenClock.Call(c.key, clock(c.at)), n)
  {
    if n > 0 {
      RepeatScales(clock, c, n - 1);
      ScaledConcat(clock, TokenClock.Repeat(c, n - 1), [c]);
    }
  }

  lemma ScaledConcat(clock: real -> real, a: seq<Call>, b: seq<Call>)
    ensures Scaled(clock, a + b) == Scaled(clock, a) + Scaled(clock, b)
  {
  }

  lemma ProbeScales(l: Limits, clock: real -> real, again: real)
    requires clock(0.0) == 0.0
    ensures Scaled(clock, TokenClock.Probe(FlowOf(l, clock), again)) == TokenClock.Probe(FlowOf(l, clock), clock(again))
  {
    RepeatScales(clock, TokenClock.Call("", 0.0), l.burst);
    RepeatScales(clock, TokenClock.Call("", again), l.burst);
    ScaledConcat(clock, TokenClock.Repeat(TokenClock.Call("", 0.0), l.burst),
      TokenClock.Repeat(TokenClock.Call("", again), l.burst));
  }

  lemma ProbeIsOrdered(f: TokenClock.Flow, again: real)
    requires again >= 0.0
    ensures TokenClock.Ordered(TokenClock.Probe(f, again))
  {
    TokenClock.RepeatIsConstant(TokenClock.Call("", 0.0), f.burst);
    TokenClock.RepeatIsConstant(TokenClock.Call("", again), f.burst);
  }

  lemma SlowRefillShows(l: Limits, clock: real -> real, again: real)
    requires Counts(l, clock) && again > 0.0 && clock(IDLE_TTL) < clock(again) < l.burst as real
    ensures !Indistinguishable(l)
  {
    var f, probe := FlowOf(l, clock), TokenClock.Probe(FlowOf(l, clock), again);
    ProbeIsOrdered(f, again);
    ProbeScales(l, clock, again);
    AdmittedScales(l, clock, true, probe, "");
    AdmittedScales(l, clock, false, probe, "");
    TokenClock.ForgettingPassesBoth(f, clock(again));
    TokenClock.RememberingRefusesSome(f, clock(again));
    if Indistinguishable(l) { SameAnswersSameAdmissions(l, probe, ""); }
  }

  lemma HalfWay(rps: real, burst: real, again: real)
    requires rps > 0.0 && burst > rps * IDLE_TTL && again == (IDLE_TTL + burst / rps) / 2.0
    ensures again > 0.0 && rps * IDLE_TTL < rps * again < burst
  {
    var q := burst / rps;
    assert rps * q == burst;
    assert rps * again == (rps * IDLE_TTL + rps * q) / 2.0;
  }

  /** Forgetting idle keys is invisible exactly when the burst refills within the idle time. */
  lemma ForgettingIsInvisibleExactly(l: Limits)
    requires l.Valid()
    ensures Indistinguishable(l) <==> l.burst as real <= l.rps * IDLE_TTL
  {
    TokensCount(l);
    if l.burst as real <= l.rps * IDLE_TTL {
      forall calls, c | TokenClock.Ordered(calls + [c])
        ensures AnswerTo(l, true, calls, c) == AnswerTo(l, false, calls, c) {
        FastRefillHides(l, TokensBy(l), calls, c);
      }
    } else {
      var again := (IDLE_TTL + l.burst as real / l.rps) / 2.0;
      HalfWay(l.rps, l.burst as real, again);
      SlowRefillShows(l, TokensBy(l), again);
    }
  }

  /** The derived burst refills within the idle time exactly for rates of at least one per idle time. */
  lemma DefaultBurstRefillsWhileIdle(rps: real)
    requires rps > 0.0
    ensures BurstFor(rps, 0) as real <= rps * IDLE_TTL <==> rps >= 1.0 / IDLE_TTL
  {
    var x := 2.0 * rps;
    assert (Ceil(x) - 1) as real < x <= Ceil(x) as real;
    if rps >= 1.0 / IDLE_TTL {
      assert x <= 1.0 ==> Ceil(x) <= 1;
    }
  }

  // Rate

  /** What burst and rate allow in a window. */
  function Allowance(l: Limits, t: real, t': real): real { l.burst as real + l.rps * (t' - t) }

  lemma WindowIsBoundedOn(l: Limits, clock: real -> real, forgets: bool, pre: seq<Call>, window: seq<Call>,
                          key: string, t: real, t': real)
    requires Counts(l, clock) && TokenClock.Ordered(pre + window) && window != []
    requires TokenClock.LastTime(pre) <= t <= window[0].at && window[|window| - 1].at <= t' && 0.0 <= t
    requires forgets ==> TokenClock.Kept(FlowOf(l, clock), true, Scaled(clock, pre), Scaled(clock, window), key)
    ensures Admitted(l, forgets, pre + window, key) as real
         <= Admitted(l, forgets, pre, key) as real + (l.burst as real + (clock(t') - clock(t)))
  {
    var f, pre', window' := FlowOf(l, clock), Scaled(clock, pre), Scaled(clock, window);
    assert Tells(l, clock, t, window[0].at) && Tells(l, clock, window[|window| - 1].at, t') && Tells(l, clock, 0.0, t);
    TokenClock.SplitLast(pre, window);
    AdmittedScales(l, clock, forgets, pre, key);
    AdmittedScales(l, clock, forgets, pre + window, key);
    ScaledConcat(clock, pre, window);
    ScaledIsOrdered(l, clock, pre + window, t');
    ScaledIsOrdered(l, clock, pre, t);
    if !forgets { TokenClock.RememberingKeepsAll(f, pre', window', key); }
    TokenClock.WindowIsBounded(f, forgets, pre', window', key, clock(t), clock(t'));
  }

  /** The sweep that the next call starts does not remove the key. */
  predicate KeptBy(l: Limits, calls: seq<Call>, now: real, key: string) {
    key in After(l, true, calls).meters ==> key in Sweep(After(l, true, calls), now).meters
  }

  /** No sweep in the window removes the key. */
  predicate Kept(l: Limits, pre: seq<Call>, window: seq<Call>, key: string) {
    window != [] ==>
      var init, c := window[..|window| - 1], window[|window| - 1];
      Kept(l, pre, init, key) && KeptBy(l, pre + init, c.at, key)
  }

  lemma KeptByScales(l: Limits, clock: real -> real, calls: seq<Call>, now: real, key: string)
    requires Counts(l, clock) && TokenClock.Ordered(calls) && TokenClock.LastTime(calls) <= now
    requires KeptBy(l, calls, now, key)
    ensures TokenClock.KeptBy(FlowOf(l, clock), true, Scaled(clock, calls), clock(now), key)
  {
    AfterScales(l, clock, true, calls, now);
    SweepScales(l, clock, After(l, true, calls), now);
  }

  lemma {:induction false} KeptScales(l: Limits, clock: real -> real, pre: seq<Call>, window: seq<Call>, key: string)
    requires Counts(l, clock) && TokenClock.Ordered(pre + window) && Kept(l, pre, window, key)
    ensures TokenClock.Kept(FlowOf(l, clock), true, Scaled(clock, pre), Scaled(clock, window), key)
    decreases |window|
  {
    if window != [] {
      var init, c := window[..|window| - 1], window[|window| - 1];
      TokenClock.SplitLast(pre, window);
      KeptScales(l, clock, pre, init, key);
      KeptByScales(l, clock, pre + init, c.at, key);
      ScaledConcat(clock, pre, init);
      assert Scaled(clock, window)[..|window| - 1] == Scaled(clock, init);
    }
  }

  lemma AllowanceIsGained(l: Limits, t: real, t': real)
    ensures Allowance(l, t, t') == l.burst as real + (TokensBy(l)(t') - TokensBy(l)(t))
  {
    TokensBetween(l, t, t');
  }

  lemma KeptWindowIsBoundedOn(l: Limits, clock: real -> real, forgets: bool, pre: seq<Call>, window: seq<Call>,
                              key: string, t: real, t': real, bound: real)
    requires Counts(l, clock) && TokenClock.Ordered(pre + window) && window != []
    requires TokenClock.LastTime(pre) <= t <= window[0].at && window[|window| - 1].at <= t' && 0.0 <= t
    requires forgets ==> Kept(l, pre, window, key)
    requires bound == l.burst as real + (clock(t') - clock(t))
    ensures Admitted(l, forgets, pre + window, key) as real <= Admitted(l, forgets, pre, key) as real + bound
  {
    if forgets { KeptScales(l, clock, pre, window, key); }
    WindowIsBoundedOn(l, clock, forgets, pre, window, key, t, t');
  }

  /** A key that no sweep removes in the window passes at most burst + rate * T times in it. */
  lemma WindowIsBounded(l: Limits, forgets: bool, pre: seq<Call>, window: seq<Call>, key: string, t: real, t': real)
    requires l.Valid() && TokenClock.Ordered(pre + window) && window != []
    requires TokenClock.LastTime(pre) <= t <= window[0].at && window[|window| - 1].at <= t' && 0.0 <= t
    requires forgets ==> Kept(l, pre, window, key)
    ensures Admitted(l, forgets, pre + window, key) as real
         <= Admitted(l, forgets, pre, key) as real + Allowance(l, t, t')
  {
    AllowanceIsGained(l, t, t');
    TokensCount(l);
    KeptWindowIsBoundedOn(l, TokensBy(l), forgets, pre, window, key, t, t', Allowance(l, t, t'));
  }

  /** With a burst that refills within the idle time the bound holds for every key, whatever the sweeps remove. */
  lemma WindowIsBoundedAnyway(l: Limits, forgets: bool, pre: seq<Call>, window: seq<Call>, key: string, t: real,
                              t': real)
    requires l.Valid() && l.burst as real <= l.rps * IDLE_TTL && TokenClock.Ordered(pre + window) && window != []
    requires TokenClock.LastTime(pre) <= t <= window[0].at && window[|window| - 1].at <= t' && 0.0 <= t
    ensures Admitted(l, forgets, pre + window, key) as real
         <= Admitted(l, forgets, pre, key) as real + Allowance(l, t, t')
  {
    WindowIsBounded(l, false, pre, window, key, t, t');
    if forgets {
      ForgettingIsInvisibleExactly(l);
      TokenClock.SplitLast(pre, window);
      SameAnswersSameAdmissions(l, pre, key);
      SameAnswersSameAdmissions(l, pre + window, key);
    }
  }

  // Refusals

  /** The announced number of seconds is enough for one token, and one second less is not. */
  lemma RetryAfterIsTight(l: Limits, level: real, d: real)
    requires l.Valid() && level < 1.0
    ensures d >= RetryAfter(l, level) as real ==> level + l.rps * d >= 1.0
    ensures RetryAfter(l, level) > 1 ==> level + l.rps * (RetryAfter(l, level) - 1) as real < 1.0
  {
    var wait := (1.0 - level) / l.rps;
    assert l.rps * wait == 1.0 - level;
    assert (Ceil(wait) - 1) as real < wait <= Ceil(wait) as real;
    ProductsKeepOrder(l.rps, wait, d, 0.0);
    ProductsKeepOrder(l.rps, wait, (Ceil(wait) - 1) as real, 0.0);
  }

  lemma OrderedParts(first: seq<Call>, between: seq<Call>, again: Call)
    requires TokenClock.Ordered(first + between + [again]) && first != []
    ensures TokenClock.Ordered(first + between) && TokenClock.Ordered(first)
    ensures TokenClock.LastTime(first) <= again.at && TokenClock.LastTime(first + between) <= again.at
    ensures 0.0 <= again.at
  {
    var all := first + between + [again];
    assert all[|all| - 1] == again;
    assert forall i :: 0 <= i < |first + between| ==> (first + between)[i] == all[i];
    assert forall i :: 0 <= i < |first| ==> first[i] == all[i];
  }

  /** A level that has been found short stays short by as much until the clock has made up for it. */
  lemma WaitingIsEnough(f: TokenClock.Flow, forgets: bool, calls: seq<Call>, c: Call, t: real)
    requires f.Valid() && TokenClock.Ordered(calls + [c]) && c.at <= t
    requires var level := TokenClock.LevelFound(f, forgets, calls, c.key, c.at);
               level < 1.0 && level + (t - c.at) >= 1.0
    ensures TokenClock.LevelAfter(f, forgets, calls + [c], c.key, t) >= 1.0
  {
    TokenClock.CallMovesLevel(f, forgets, calls, c, c.key);
    TokenClock.Unsnoc(calls, c);
    TokenClock.LevelLater(f, forgets, calls + [c], c.key, c.at, t);
  }

  lemma SilenceIsEnough(f: TokenClock.Flow, forgets: bool, calls: seq<Call>, c: Call, between: seq<Call>, t: real)
    requires f.Valid() && TokenClock.Ordered(calls + [c] + between) && TokenClock.Ordered(calls + [c])
    requires TokenClock.LastTime(calls + [c] + between) <= t && c.at <= t
    requires forall b :: b in between ==> b.key != c.key
    requires var level := TokenClock.LevelFound(f, forgets, calls, c.key, c.at);
               level < 1.0 && level + (t - c.at) >= 1.0
    ensures TokenClock.LevelFound(f, forgets, calls + [c] + between, c.key, t) >= 1.0
  {
    TokenClock.Unsnoc(calls, c);
    WaitingIsEnough(f, forgets, calls, c, t);
    TokenClock.OthersOnlyRaise(f, forgets, calls + [c], between, c.key, t);
    TokenClock.FoundIsNoLess(f, forgets, calls + [c] + between, c.key, t);
  }

  lemma SilentCallerPassesOn(l: Limits, clock: real -> real, forgets: bool, calls: seq<Call>, c: Call,
                             between: seq<Call>, t: real)
    requires Counts(l, clock) && TokenClock.Ordered(calls + [c] + between) && TokenClock.Ordered(calls + [c])
    requires TokenClock.LastTime(calls + [c] + between) <= t && c.at <= t
    requires forall b :: b in between ==> b.key != c.key
    requires var level := LevelFound(l, forgets, calls, c.key, c.at);
               level < 1.0 && level + (clock(t) - clock(c.at)) >= 1.0
    ensures LevelFound(l, forgets, calls + [c] + between, c.key, t) >= 1.0
  {
    var c' := TokenClock.Call(c.key, clock(c.at));
    assert Tells(l, clock, c.at, t);
    TokenClock.Unsnoc(calls, c);
    FoundScales(l, clock, forgets, calls, c.key, c.at);
    FoundScales(l, clock, forgets, calls + [c] + between, c.key, t);
    ScaledConcat(clock, calls + [c], between);
    assert Scaled(clock, calls + [c]) == Scaled(clock, calls) + [c'];
    ScaledIsOrdered(l, clock, calls + [c] + between, t);
    ScaledIsOrdered(l, clock, calls + [c], t);
    SilenceIsEnough(FlowOf(l, clock), forgets, Scaled(clock, calls), c', Scaled(clock, between), clock(t));
  }

  /**
   * A caller that stays silent for the announced number of seconds passes then, whatever other
   * keys do meanwhile and whether or not its own is forgotten.
   */
  lemma SilentCallerPasses(l: Limits, forgets: bool, calls: seq<Call>, c: Call, between: seq<Call>, again: Call)
    requires l.Valid() && TokenClock.Ordered(calls + [c] + between + [again]) && again.key == c.key
    requires forall b :: b in between ==> b.key != c.key
    requires var answer := AnswerTo(l, forgets, calls, c);
               answer.Refuse? && again.at >= c.at + answer.retryAfter as real
    ensures AnswerTo(l, forgets, calls + [c] + between, again) == Pass
  {
    OrderedParts(calls + [c], between, again);
    TokensCount(l);
    RetryAfterIsTight(l, LevelFound(l, forgets, calls, c.key, c.at), again.at - c.at);
    ProductsKeepOrder(l.rps, c.at, again.at, 0.0);
    SilentCallerPassesOn(l, TokensBy(l), forgets, calls, c, between, again.at);
  }

  lemma RefusalIsForgottenOn(l: Limits, clock: real -> real, calls: seq<Call>, c: Call, later: seq<Call>, d: Call)
    requires Counts(l, clock) && TokenClock.Ordered(calls + [c] + later) && TokenClock.Ordered(calls + [c])
    requires TokenClock.Ordered(calls + later) && TokenClock.LastTime(calls + later) <= d.at
    requires TokenClock.LastTime(calls + [c] + later) <= d.at && c.at <= d.at && 0.0 <= d.at
    requires LevelFound(l, false, calls, c.key, c.at) < 1.0
    ensures LevelFound(l, false, calls + [c] + later, d.key, d.at) == LevelFound(l, false, calls + later, d.key, d.at)
  {
    var c' := TokenClock.Call(c.key, clock(c.at));
    assert Tells(l, clock, c.at, d.at);
    TokenClock.Unsnoc(calls, c);
    FoundScales(l, clock, false, calls, c.key, c.at);
    FoundScales(l, clock, false, calls + [c] + later, d.key, d.at);
    FoundScales(l, clock, false, calls + later, d.key, d.at);
    ScaledConcat(clock, calls + [c], later);
    ScaledConcat(clock, calls, later);
    assert Scaled(clock, calls + [c]) == Scaled(clock, calls) + [c'];
    ScaledIsOrdered(l, clock, calls + [c] + later, d.at);
    ScaledIsOrdered(l, clock, calls + [c], d.at);
    ScaledIsOrdered(l, clock, calls + later, d.at);
    TokenClock.RefusalLeavesNoTrace(FlowOf(l, clock), Scaled(clock, calls), c', Scaled(clock, later), d.key,
      clock(d.at));
  }

  /** A refusal spends nothing: without forgetting, leaving it out changes no later answer to anyone. */
  lemma RefusalSpendsNothing(l: Limits, calls: seq<Call>, c: Call, later: seq<Call>, d: Call)
    requires l.Valid() && TokenClock.Ordered(calls + [c] + later + [d]) && AnswerTo(l, false, calls, c).Refuse?
    ensures AnswerTo(l, false, calls + [c] + later, d) == AnswerTo(l, false, calls + later, d)
  {
    OrderedParts(calls + [c], later, d);
    SkippedIsOrdered(calls, c, later, d);
    TokensCount(l);
    RefusalIsForgottenOn(l, TokensBy(l), calls, c, later, d);
  }

  lemma SkippedIsOrdered(calls: seq<Call>, c: Call, later: seq<Call>, d: Call)
    requires TokenClock.Ordered(calls + [c] + later + [d])
    ensures TokenClock.Ordered(calls + later) && TokenClock.LastTime(calls + later) <= d.at && c.at <= d.at
  {
    var all, some := calls + [c] + later + [d], calls + later;
    assert all[|calls|] == c && all[|all| - 1] == d;
    assert forall i :: 0 <= i < |calls| ==> some[i] == all[i];
    assert forall i :: |calls| <= i < |some| ==> some[i] == all[i + 1];
  }

  // Memory

  /** After every call, each remembered key has called within the idle time and one sweep interval. */
  lemma RememberedKeysAreRecent(l: Limits, calls: seq<Call>, key: string)
    requires l.Valid() && TokenClock.Ordered(calls) && calls != [] && key in After(l, true, calls).meters
    ensures exists i :: 0 <= i < |calls| && calls[i].key == key
              && calls[|calls| - 1].at - calls[i].at < IDLE_TTL + SWEEP_INTERVAL
  {
    SweptIsRecent(l, calls);
    RememberedSince(l, calls, key);
  }

  predicate Recent(tbl: Table, now: real) {
    && now - tbl.lastSweep < SWEEP_INTERVAL && tbl.lastSweep <= now
    && forall k :: k in tbl.meters ==> tbl.lastSweep - tbl.meters[k].last <= IDLE_TTL
  }

  lemma {:induction false} SweptIsRecent(l: Limits, calls: seq<Call>)
    requires l.Valid() && TokenClock.Ordered(calls) && calls != []
    ensures Recent(After(l, true, calls), calls[|calls| - 1].at)
    decreases |calls|
  {
    var init, c := calls[..|calls| - 1], calls[|calls| - 1];
    if init != [] { SweptIsRecent(l, init); }
  }

  lemma {:induction false} RememberedSince(l: Limits, calls: seq<Call>, key: string)
    requires key in After(l, true, calls).meters
    ensures exists i :: 0 <= i < |calls| && calls[i].key == key && calls[i].at == After(l, true, calls).meters[key].last
    decreases |calls|
  {
    var init, c := calls[..|calls| - 1], calls[|calls| - 1];
    if c.key == key {
      assert calls[|calls| - 1].key == key;
    } else {
      RememberedSince(l, init, key);
      var i :| 0 <= i < |init| && init[i].key == key && init[i].at == After(l, true, init).meters[key].last;
      assert calls[i] == init[i];
    }
  }
}
