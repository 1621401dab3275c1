/**
 * What holds of the rate limiter that forgets idle keys exactly when the burst refills within the
 * idle time: refusals spend nothing, and every window is bounded by burst and rate.
 */
module RateLimitExactness {
  import opened Domain
  import opened RateLimit
  import opened RateLimitTheorems
  import TokenClock

  // Refusals

  /** Leaving this refused call out changes no later answer of the limiter that forgets. */
  ghost predicate LeavesNoTrace(l: Limits, calls: seq<Call>, c: Call, later: seq<Call>, d: Call)
    requires l.Valid()
  {
    TokenClock.Ordered(calls + [c] + later + [d]) && AnswerTo(l, true, calls, c).Refuse? ==>
      AnswerTo(l, true, calls + [c] + later, d) == AnswerTo(l, true, calls + later, d)
  }

  ghost predicate RefusalsSpendNothing(l: Limits)
    requires l.Valid()
  {
    forall calls, c, later, d :: LeavesNoTrace(l, calls, c, later, d)
  }

  lemma FastRefillLeavesNoTrace(l: Limits, calls: seq<Call>, c: Call, later: seq<Call>, d: Call)
    requires l.Valid() && l.burst as real <= l.rps * IDLE_TTL
    ensures LeavesNoTrace(l, calls, c, later, d)
  {
    if TokenClock.Ordered(calls + [c] + later + [d]) && AnswerTo(l, true, calls, c).Refuse? {
      ForgettingIsInvisibleExactly(l);
      OrderedParts(calls + [c], later, d);
      SkippedIsOrdered(calls, c, later, d);
      assert AnswerTo(l, true, calls, c) == AnswerTo(l, false, calls, c);
      assert AnswerTo(l, true, calls + [c] + later, d) == AnswerTo(l, false, calls + [c] + later, d);
      SkippedWithLast(calls, c, later, d);
      assert AnswerTo(l, true, calls + later, d) == AnswerTo(l, false, calls + later, d);
      RefusalSpendsNothing(l, calls, c, later, d);
    }
  }

  lemma SkippedWithLast(calls: seq<Call>, c: Call, later: seq<Call>, d: Call)
    requires TokenClock.Ordered(calls + [c] + later + [d])
    ensures TokenClock.Ordered(calls + later + [d])
  {
    var all, some := calls + [c] + later + [d], calls + later + [d];
    assert forall i :: 0 <= i < |calls| ==> some[i] == all[i];
    assert forall i :: |calls| <= i < |some| ==> some[i] == all[i + 1];
  }

  /** The calls of the counterexample, in seconds: a burst at once, one too early, a burst after the idle time. */
  function Spent(l: Limits): seq<Call> { TokenClock.Repeat(TokenClock.Call("", 0.0), l.burst) }

  function TooEarly(soon: real): Call { TokenClock.Call("", soon) }

  function Again(soon: real): Call { TokenClock.Call("", IDLE_TTL + soon) }

  lemma ScaledRefusal(l: Limits, clock: real -> real, soon: real)
    requires clock(0.0) == 0.0 && clock(IDLE_TTL + soon) == clock(IDLE_TTL) + clock(soon)
    ensures var f, n := FlowOf(l, clock), if l.burst > 0 then l.burst - 1 else 0;
      && Scaled(clock, Spent(l)) == TokenClock.Spent(f)
      && Scaled(clock, Spent(l) + [TooEarly(soon)]) == TokenClock.Spent(f) + [TokenClock.TooEarly(clock(soon))]
      && Scaled(clock, TokenClock.Repeat(Again(soon), n)) == TokenClock.Repeat(TokenClock.Again(f, clock(soon)), n)
  {
    RepeatScales(clock, TokenClock.Call("", 0.0), l.burst);
    RepeatScales(clock, Again(soon), if l.burst > 0 then l.burst - 1 else 0);
    ScaledConcat(clock, Spent(l), [TooEarly(soon)]);
    assert Scaled(clock, [TooEarly(soon)]) == [TokenClock.TooEarly(clock(soon))];
  }

  lemma SecondsAreOrdered(l: Limits, soon: real)
    requires l.Valid() && soon > 0.0
    ensures TokenClock.Ordered(Spent(l) + [TooEarly(soon)] + TokenClock.Repeat(Again(soon), l.burst - 1) +
              [Again(soon)])
  {
    TokenClock.RepeatIsConstant(TokenClock.Call("", 0.0), l.burst);
    TokenClock.RepeatIsConstant(Again(soon), l.burst - 1);
  }

  /** Before a token has flowed in, and while the burst is still out of reach after the idle time. */
  ghost predicate SoonEnough(burst: real, clock: real -> real, soon: real) {
    && soon > 0.0 && 0.0 < clock(soon) < 1.0 && clock(soon) <= clock(IDLE_TTL)
    && clock(IDLE_TTL + soon) == clock(IDLE_TTL) + clock(soon) < burst
  }

  ghost predicate Early(l: Limits, clock: real -> real, soon: real) {
    Counts(l, clock) && SoonEnough(l.burst as real, clock, soon)
  }

  lemma EarlyCallIsRefused(l: Limits, clock: real -> real, soon: real)
    requires Early(l, clock, soon)
    ensures AnswerTo(l, true, Spent(l), TooEarly(soon)).Refuse?
  {
    SecondsAreOrdered(l, soon);
    OrderedParts(Spent(l) + [TooEarly(soon)], TokenClock.Repeat(Again(soon), l.burst - 1), Again(soon));
    TokenClock.Unsnoc(Spent(l), TooEarly(soon));
    ScaledRefusal(l, clock, soon);
    FoundScales(l, clock, true, Spent(l), "", soon);
    TokenClock.EarlyIsRefused(FlowOf(l, clock), clock(soon));
  }

  lemma LaterCallIsRefused(l: Limits, clock: real -> real, soon: real)
    requires Early(l, clock, soon)
    ensures AnswerTo(l, true, Spent(l) + [TooEarly(soon)] + TokenClock.Repeat(Again(soon), l.burst - 1),
              Again(soon)).Refuse?
  {
    var calls, later := Spent(l) + [TooEarly(soon)], TokenClock.Repeat(Again(soon), l.burst - 1);
    SecondsAreOrdered(l, soon);
    OrderedParts(calls, later, Again(soon));
    ScaledRefusal(l, clock, soon);
    ScaledConcat(clock, calls, later);
    FoundScales(l, clock, true, calls + later, "", Again(soon).at);
    TokenClock.WithRefusalOneIsMissing(FlowOf(l, clock), clock(soon));
  }

  lemma LaterCallWouldPass(l: Limits, clock: real -> real, soon: real)
    requires Early(l, clock, soon)
    ensures AnswerTo(l, true, Spent(l) + TokenClock.Repeat(Again(soon), l.burst - 1), Again(soon)) == Pass
  {
    var calls, later := Spent(l), TokenClock.Repeat(Again(soon), l.burst - 1);
    SecondsAreOrdered(l, soon);
    SkippedIsOrdered(calls, TooEarly(soon), later, Again(soon));
    ScaledRefusal(l, clock, soon);
    ScaledConcat(clock, calls, later);
    FoundScales(l, clock, true, calls + later, "", Again(soon).at);
    TokenClock.WithoutRefusalAllPass(FlowOf(l, clock), clock(soon));
  }

  lemma SoonFlowsLittle(rps: real, idle: real, x: real) returns (soon: real, flow: real)
    requires rps > 0.0 && x > 0.0 && idle == rps * IDLE_TTL
    ensures soon > 0.0 && flow == rps * soon && 0.0 < flow <= x && flow <= idle
    ensures rps * (IDLE_TTL + soon) == idle + flow
  {
    var q := x / rps;
    assert rps * q == x && q > 0.0;
    soon := Lesser(q, IDLE_TTL);
    flow := rps * soon;
    ProductsKeepOrder(rps, soon, q, 0.0);
    ProductsKeepOrder(rps, 0.0, soon, 0.0);
    ProductsKeepOrder(rps, soon, IDLE_TTL, 0.0);
  }

  lemma LittleIsEnough(burst: real, clock: real -> real, soon: real, flow: real, idle: real)
    requires soon > 0.0 && burst > idle && 0.0 < flow <= Lesser(burst - idle, 1.0) / 2.0 && flow <= idle
    requires clock(soon) == flow && clock(IDLE_TTL) == idle && clock(IDLE_TTL + soon) == idle + flow
    ensures SoonEnough(burst, clock, soon)
  {
  }

  /** There is a moment soon enough after the burst for the early call. */
  lemma SoonIsEarly(l: Limits) returns (soon: real)
    requires l.Valid() && l.burst as real > l.rps * IDLE_TTL
    ensures Early(l, TokensBy(l), soon)
  {
    var idle, flow := l.rps * IDLE_TTL, 0.0;
    soon, flow := SoonFlowsLittle(l.rps, idle, Lesser(l.burst as real - idle, 1.0) / 2.0);
    assert SoonEnough(l.burst as real, TokensBy(l), soon) by {
      TokensAt(l, soon);
      LittleIsEnough(l.burst as real, TokensBy(l), soon, flow, idle);
    }
    assert Counts(l, TokensBy(l)) by { TokensCount(l); }
  }

  lemma TokensAt(l: Limits, soon: real)
    ensures TokensBy(l)(soon) == l.rps * soon && TokensBy(l)(IDLE_TTL) == l.rps * IDLE_TTL
    ensures TokensBy(l)(IDLE_TTL + soon) == l.rps * (IDLE_TTL + soon)
  {
  }

  /**
   * The input, for every limiter whose burst takes longer to refill than the idle time: the refused
   * call keeps the key from being forgotten, and the caller from the full bucket it would get.
   */
  lemma RefusalCanSpend(l: Limits) returns (calls: seq<Call>, c: Call, later: seq<Call>, d: Call)
    requires l.Valid() && l.burst as real > l.rps * IDLE_TTL
    ensures TokenClock.Ordered(calls + [c] + later + [d]) && AnswerTo(l, true, calls, c).Refuse?
    ensures AnswerTo(l, true, calls + [c] + later, d).Refuse? && AnswerTo(l, true, calls + later, d) == Pass
  {
    var soon := SoonIsEarly(l);
    SecondsAreOrdered(l, soon);
    EarlyCallIsRefused(l, TokensBy(l), soon);
    LaterCallIsRefused(l, TokensBy(l), soon);
    LaterCallWouldPass(l, TokensBy(l), soon);
    calls, c, later, d := Spent(l), TooEarly(soon), TokenClock.Repeat(Again(soon), l.burst - 1), Again(soon);
  }

  /** Refusals spend nothing exactly when the burst refills within the idle time. */
  lemma RefusalsSpendNothingExactly(l: Limits)
    requires l.Valid()
    ensures RefusalsSpendNothing(l) <==> l.burst as real <= l.rps * IDLE_TTL
  {
    if l.burst as real <= l.rps * IDLE_TTL {
      forall calls, c, later, d ensures LeavesNoTrace(l, calls, c, later, d) {
        FastRefillLeavesNoTrace(l, calls, c, later, d);
      }
    } else {
      var calls, c, later, d := RefusalCanSpend(l);
      assert !LeavesNoTrace(l, calls, c, later, d);
    }
  }

  // Windows

  /** The calls of a window from t to t', and those before it. */
  predicate IsWindow(pre: seq<Call>, window: seq<Call>, t: real, t': real) {
    && TokenClock.Ordered(pre + window) && window != []
    && TokenClock.LastTime(pre) <= t <= window[0].at && window[|window| - 1].at <= t' && 0.0 <= t
  }

  predicate AtMost(l: Limits, pre: seq<Call>, window: seq<Call>, key: string, bound: real)
    requires l.Valid()
  {
    Admitted(l, true, pre + window, key) as real <= Admitted(l, true, pre, key) as real + bound
  }

  /** In this window the limiter that forgets passes at most burst + rate * T calls of the key. */
  ghost predicate WindowHolds(l: Limits, pre: seq<Call>, window: seq<Call>, key: string, t: real, t': real)
    requires l.Valid()
  {
    IsWindow(pre, window, t, t') ==> AtMost(l, pre, window, key, Allowance(l, t, t'))
  }

  ghost predicate AllWindowsHold(l: Limits)
    requires l.Valid()
  {
    forall pre, window, key, t, t' :: WindowHolds(l, pre, window, key, t, t')
  }

  lemma ProbeBreaksWindow(l: Limits, clock: real -> real, again: real)
    requires Counts(l, clock) && again > 0.0 && clock(IDLE_TTL) < clock(again)
    ensures var probe := TokenClock.Probe(FlowOf(l, clock), again);
      && IsWindow([], probe, 0.0, again)
      && Admitted(l, true, [] + probe, "") == 2 * l.burst && Admitted(l, true, [], "") == 0
  {
    var f := FlowOf(l, clock);
    var probe := TokenClock.Probe(f, again);
    assert [] + probe == probe;
    ProbeIsOrdered(f, again);
    ProbeScales(l, clock, again);
    AdmittedScales(l, clock, true, probe, "");
    TokenClock.ForgettingPassesBoth(f, clock(again));
    TokenClock.RepeatIsConstant(TokenClock.Call("", 0.0), f.burst);
    TokenClock.RepeatIsConstant(TokenClock.Call("", again), f.burst);
  }

  /** A burst that takes longer to refill can be had twice in a window too short for it. */
  lemma SlowRefillBreaksWindow(l: Limits) returns (window: seq<Call>, again: real)
    requires l.Valid() && l.burst as real > l.rps * IDLE_TTL
    ensures !WindowHolds(l, [], window, "", 0.0, again)
  {
    again := (IDLE_TTL + l.burst as real / l.rps) / 2.0;
    HalfWay(l.rps, l.burst as real, again);
    assert Counts(l, TokensBy(l)) && TokensBy(l)(IDLE_TTL) < TokensBy(l)(again) by { TokensCount(l); }
    assert Allowance(l, 0.0, again) < 2.0 * l.burst as real by { AllowanceIsShort(l, again); }
    window := ProbeExceeds(l, TokensBy(l), again, Allowance(l, 0.0, again));
  }

  lemma ProbeExceeds(l: Limits, clock: real -> real, again: real, bound: real) returns (window: seq<Call>)
    requires Counts(l, clock) && again > 0.0 && clock(IDLE_TTL) < clock(again) && bound < 2.0 * l.burst as real
    ensures IsWindow([], window, 0.0, again) && !AtMost(l, [], window, "", bound)
  {
    window := TokenClock.Probe(FlowOf(l, clock), again);
    ProbeBreaksWindow(l, clock, again);
    TwoBurstsAreTooMany(l, window, bound);
  }

  lemma AllowanceIsShort(l: Limits, again: real)
    requires l.rps * again < l.burst as real
    ensures Allowance(l, 0.0, again) < 2.0 * l.burst as real
  {
    assert l.rps * (again - 0.0) == l.rps * again;
  }

  lemma TwoBurstsAreTooMany(l: Limits, window: seq<Call>, bound: real)
    requires l.Valid() && bound < 2.0 * l.burst as real
    requires Admitted(l, true, [] + window, "") == 2 * l.burst && Admitted(l, true, [], "") == 0
    ensures !AtMost(l, [], window, "", bound)
  {
  }

  /** Every window is bounded by burst and rate exactly when the burst refills within the idle time. */
  lemma WindowsAreBoundedExactly(l: Limits)
    requires l.Valid()
    ensures AllWindowsHold(l) <==> l.burst as real <= l.rps * IDLE_TTL
  {
    if l.burst as real <= l.rps * IDLE_TTL {
      forall pre, window, key, t, t' ensures WindowHolds(l, pre, window, key, t, t') {
        FastRefillBoundsWindow(l, pre, window, key, t, t');
      }
    } else {
      var window, again := SlowRefillBreaksWindow(l);
    }
  }

  lemma FastRefillBoundsWindow(l: Limits, pre: seq<Call>, window: seq<Call>, key: string, t: real, t': real)
    requires l.Valid() && l.burst as real <= l.rps * IDLE_TTL
    ensures WindowHolds(l, pre, window, key, t, t')
  {
    if IsWindow(pre, window, t, t') {
      WindowIsBoundedAnyway(l, true, pre, window, key, t, t');
    }
  }

  /** How often a sweep in the window has removed the key. */
  function Evictions(l: Limits, pre: seq<Call>, window: seq<Call>, key: string): nat {
    if window == [] then 0
    else
      var init, c := window[..|window| - 1], window[|window| - 1];
      Evictions(l, pre, init, key) + if KeptBy(l, pre + init, c.at, key) then 0 else 1
  }

  lemma KeptByScalesBack(l: Limits, clock: real -> real, calls: seq<Call>, now: real, key: string)
    requires Counts(l, clock) && TokenClock.Ordered(calls) && TokenClock.LastTime(calls) <= now
    ensures KeptBy(l, calls, now, key) <==>
              TokenClock.KeptBy(FlowOf(l, clock), true, Scaled(clock, calls), clock(now), key)
  {
    AfterScales(l, clock, true, calls, now);
    SweepScales(l, clock, After(l, true, calls), now);
  }

  lemma {:induction false} EvictionsScale(l: Limits, clock: real -> real, pre: seq<Call>, window: seq<Call>,
                                          key: string)
    requires Counts(l, clock) && TokenClock.Ordered(pre + window)
    ensures Evictions(l, pre, window, key) ==
      TokenClock.Evictions(FlowOf(l, clock), Scaled(clock, pre), Scaled(clock, window), key)
    decreases |window|
  {
    if window != [] {
      var init, c := window[..|window| - 1], window[|window| - 1];
      TokenClock.SplitLast(pre, window);
      EvictionsScale(l, clock, pre, init, key);
      KeptByScalesBack(l, clock, pre + init, c.at, key);
      ScaledConcat(clock, pre, init);
      assert Scaled(clock, window)[..|window| - 1] == Scaled(clock, init);
    }
  }

  lemma EvictionsBoundOn(l: Limits, clock: real -> real, pre: seq<Call>, window: seq<Call>, key: string,
                            t: real, t': real, bound: real)
    requires Counts(l, clock) && IsWindow(pre, window, t, t') && bound == l.burst as real + (clock(t') - clock(t))
    ensures Admitted(l, true, pre + window, key) as real
         <= Admitted(l, true, pre, key) as real + bound + (l.burst * Evictions(l, pre, window, key)) as real
  {
    var f, pre', window' := FlowOf(l, clock), Scaled(clock, pre), Scaled(clock, window);
    assert Tells(l, clock, t, window[0].at) && Tells(l, clock, window[|window| - 1].at, t') && Tells(l, clock, 0.0, t);
    TokenClock.SplitLast(pre, window);
    AdmittedScales(l, clock, true, pre, key);
    AdmittedScales(l, clock, true, pre + window, key);
    ScaledConcat(clock, pre, window);
    ScaledIsOrdered(l, clock, pre + window, t');
    ScaledIsOrdered(l, clock, pre, t);
    EvictionsScale(l, clock, pre, window, key);
    TokenClock.BurstPerEviction(f, pre', window', key);
    TokenClock.WindowIsBoundedByEvictions(f, pre', window', key, clock(t), clock(t'));
  }

  /**
   * For every limiter, every key and every window of length T: at most burst + rate * T calls pass,
   * and a burst more for every time a sweep has removed the key.
   */
  lemma WindowIsBoundedByEvictions(l: Limits, pre: seq<Call>, window: seq<Call>, key: string, t: real, t': real)
    requires l.Valid() && IsWindow(pre, window, t, t')
    ensures Admitted(l, true, pre + window, key) as real
         <= Admitted(l, true, pre, key) as real + Allowance(l, t, t') +
           (l.burst * Evictions(l, pre, window, key)) as real
  {
    AllowanceIsGained(l, t, t');
    TokensCount(l);
    EvictionsBoundOn(l, TokensBy(l), pre, window, key, t, t', Allowance(l, t, t'));
  }
}
