/**
 * Properties of the retry/fallback orchestration, stated on the trace of
 * provider calls and sleeps that `Orchestrator.AttemptsFrom` (and so
 * `Orchestrator.GenerateStory` and the method `GenerateStoryGemini`)
 * produces. Each property of a whole trace is a predicate on event
 * sequences; a concatenation lemma shows that it survives putting one
 * attempt in front of the later ones, and the recursive lemma on
 * `AttemptsFrom` only has to apply it.
 */
module OrchestratorProperties {
  import opened Wrappers
  import opened Text
  import opened Prompts
  import opened Providers
  import opened Orchestrator

  /** The events of the attempts from `a` on. */
  function TraceFrom(a: int, st: Setup): seq<Event>
    requires 1 <= a <= st.maxRetries && st.templates != []
  {
    AttemptsFrom(a, st).trace
  }

  function Last(t: seq<Event>): Event
    requires t != []
  {
    t[|t| - 1]
  }

  /** The story the primary provider's response to a call event is
      accepted with, if any; other events have none. */
  function Verdict(st: Setup, e: Event): Option<String> {
    if e.PrimaryCall? then st.accept(e.attempt, e.model, e.prompt) else None
  }

  /** The events of one attempt's sweep, when it does not end the run, and
      the sleep after it. */
  function FailedAttempt(a: int, st: Setup): seq<Event>
    requires 1 <= a && st.templates != []
  {
    SweepModels(a, TemplateFor(st, a), st.models, st.accept).calls + [Sleep(BackoffDelay(st.backoff, a))]
  }

  /** How the trace from attempt `a` is put together. */
  lemma TraceFromSteps(a: int, st: Setup)
    requires 1 <= a <= st.maxRetries && st.templates != []
    ensures var sweep := SweepModels(a, TemplateFor(st, a), st.models, st.accept);
      && (sweep.story.Some? ==> TraceFrom(a, st) == sweep.calls && AttemptsFrom(a, st).result == Story(sweep.story.value))
      && (sweep.story.None? && a == st.maxRetries ==>
            && TraceFrom(a, st) == sweep.calls + Fallbacks(st.neutral, st.openai, st.hf).trace
            && AttemptsFrom(a, st).result == Fallbacks(st.neutral, st.openai, st.hf).result)
      && (sweep.story.None? && a < st.maxRetries ==>
            && TraceFrom(a, st) == FailedAttempt(a, st) + TraceFrom(a + 1, st)
            && AttemptsFrom(a, st).result == AttemptsFrom(a + 1, st).result)
  {
  }

  // ------------------------------------------------------------ schedule

  /** Every primary call in `t` is made on an attempt from `lo` to `hi`, to
      one of the candidate models, with that attempt's template. */
  ghost predicate CallsWithin(t: seq<Event>, lo: int, hi: int, st: Setup)
    requires lo >= 1 && st.templates != []
  {
    forall i | 0 <= i < |t| && t[i].PrimaryCall? ::
      && lo <= t[i].attempt <= hi
      && t[i].model in st.models
      && t[i].prompt == TemplateFor(st, t[i].attempt)
  }

  /** The attempt numbers of the primary calls in `t` never go back. */
  ghost predicate AttemptsNonDecreasing(t: seq<Event>) {
    forall i, j | 0 <= i < j < |t| && t[i].PrimaryCall? && t[j].PrimaryCall? :: t[i].attempt <= t[j].attempt
  }

  lemma SweepCallsWithin(a: int, st: Setup)
    requires a >= 1 && st.templates != []
    ensures var calls := SweepModels(a, TemplateFor(st, a), st.models, st.accept).calls;
      CallsWithin(calls, a, a, st) && AttemptsNonDecreasing(calls)
      && CallsWithin(calls + [Sleep(BackoffDelay(st.backoff, a))], a, a, st)
      && AttemptsNonDecreasing(calls + [Sleep(BackoffDelay(st.backoff, a))])
  {
    SweepModelsShape(a, TemplateFor(st, a), st.models, st.accept);
  }

  lemma FallbacksHaveNoCalls(neutral: String, openai: Fallback, hf: Fallback)
    ensures forall i | 0 <= i < |Fallbacks(neutral, openai, hf).trace| ::
      Fallbacks(neutral, openai, hf).trace[i].IsFallback()
      && Fallbacks(neutral, openai, hf).trace[i].prompt == neutral
  {
  }

  lemma {:induction false} ScheduleConcat(h: seq<Event>, r: seq<Event>, a: int, hi: int, st: Setup)
    requires 1 <= a <= hi && st.templates != []
    requires CallsWithin(h, a, a, st) && AttemptsNonDecreasing(h)
    requires CallsWithin(r, a + 1, hi, st) && AttemptsNonDecreasing(r)
    ensures CallsWithin(h + r, a, hi, st) && AttemptsNonDecreasing(h + r)
  {
    var t := h + r;
    forall i | 0 <= i < |t| && t[i].PrimaryCall?
      ensures a <= t[i].attempt <= hi && t[i].model in st.models && t[i].prompt == TemplateFor(st, t[i].attempt)
    {
      if i >= |h| {
        assert t[i] == r[i - |h|];
      }
    }
    forall i, j | 0 <= i < j < |t| && t[i].PrimaryCall? && t[j].PrimaryCall?
      ensures t[i].attempt <= t[j].attempt
    {
      if j < |h| {
        assert t[i] == h[i] && t[j] == h[j];
      } else if i < |h| {
        assert t[i] == h[i] && t[j] == r[j - |h|];
      } else {
        assert t[i] == r[i - |h|] && t[j] == r[j - |h|];
      }
    }
  }

  /** Every primary call is made on an attempt from `a` to `maxRetries`, to a
      candidate model, with that attempt's template; attempts never go back. */
  lemma {:induction false} CallsFollowSchedule(a: int, st: Setup)
    requires 1 <= a <= st.maxRetries && st.templates != []
    ensures CallsWithin(TraceFrom(a, st), a, st.maxRetries, st)
    ensures AttemptsNonDecreasing(TraceFrom(a, st))
    decreases st.maxRetries - a
  {
    var sweep := SweepModels(a, TemplateFor(st, a), st.models, st.accept);
    TraceFromSteps(a, st);
    SweepCallsWithin(a, st);
    if sweep.story.None? && a == st.maxRetries {
      var fb := Fallbacks(st.neutral, st.openai, st.hf).trace;
      FallbacksHaveNoCalls(st.neutral, st.openai, st.hf);
      assert CallsWithin(fb, a + 1, st.maxRetries, st);
      ScheduleConcat(sweep.calls, fb, a, st.maxRetries, st);
    } else if sweep.story.None? {
      CallsFollowSchedule(a + 1, st);
      ScheduleConcat(FailedAttempt(a, st), TraceFrom(a + 1, st), a, st.maxRetries, st);
    }
  }

  /** Each attempt's events start with a call to the first model. */
  lemma FirstEvent(a: int, st: Setup)
    requires 1 <= a <= st.maxRetries && st.templates != [] && |st.models| > 0
    ensures |TraceFrom(a, st)| > 0 && TraceFrom(a, st)[0] == PrimaryCall(a, st.models[0], TemplateFor(st, a))
  {
    SweepModelsShape(a, TemplateFor(st, a), st.models, st.accept);
    TraceFromSteps(a, st);
  }

  // -------------------------------------------------------------- sleeps

  /** Every sleep in `t` comes right after the call to the last model on
      an attempt b from `lo` to `maxRetries - 1`, lasts `backoff * 2^(b-1)`
      seconds, and is followed by the call to the first model on attempt
      b + 1. */
  ghost predicate SleepsBetweenAttempts(t: seq<Event>, lo: int, st: Setup)
    requires lo >= 1 && st.templates != [] && |st.models| > 0
  {
    forall i {:trigger t[i].Sleep?} | 0 <= i < |t| && t[i].Sleep? ::
      && 0 < i < |t| - 1
      && t[i - 1].PrimaryCall?
      && lo <= t[i - 1].attempt < st.maxRetries
      && t[i - 1].model == st.models[|st.models| - 1]
      && t[i].seconds == BackoffDelay(st.backoff, t[i - 1].attempt)
      && t[i + 1] == PrimaryCall(t[i - 1].attempt + 1, st.models[0], TemplateFor(st, t[i - 1].attempt + 1))
  }

  ghost predicate NoSleeps(t: seq<Event>) {
    forall i | 0 <= i < |t| :: !t[i].Sleep?
  }

  lemma SweepHasNoSleeps(a: int, st: Setup)
    requires a >= 1 && st.templates != []
    ensures NoSleeps(SweepModels(a, TemplateFor(st, a), st.models, st.accept).calls)
  {
    SweepModelsShape(a, TemplateFor(st, a), st.models, st.accept);
  }

  lemma {:induction false} NoSleepsConcat(h: seq<Event>, r: seq<Event>)
    requires NoSleeps(h) && NoSleeps(r)
    ensures NoSleeps(h + r)
  {
    forall i | 0 <= i < |h + r| ensures !(h + r)[i].Sleep? {
      if i >= |h| {
        assert (h + r)[i] == r[i - |h|];
      }
    }
  }

  lemma {:induction false} SleepConcat(calls: seq<Event>, r: seq<Event>, a: int, st: Setup)
    requires 1 <= a < st.maxRetries && st.templates != [] && |st.models| > 0
    requires NoSleeps(calls) && |calls| == |st.models|
    requires calls[|calls| - 1] == PrimaryCall(a, st.models[|st.models| - 1], TemplateFor(st, a))
    requires |r| > 0 && r[0] == PrimaryCall(a + 1, st.models[0], TemplateFor(st, a + 1))
    requires SleepsBetweenAttempts(r, a + 1, st)
    ensures SleepsBetweenAttempts(calls + [Sleep(BackoffDelay(st.backoff, a))] + r, a, st)
  {
    var h := calls + [Sleep(BackoffDelay(st.backoff, a))];
    var t := h + r;
    forall i | 0 <= i < |t| && t[i].Sleep?
      ensures 0 < i < |t| - 1 && t[i - 1].PrimaryCall? && a <= t[i - 1].attempt < st.maxRetries
      ensures t[i - 1].model == st.models[|st.models| - 1]
      ensures t[i].seconds == BackoffDelay(st.backoff, t[i - 1].attempt)
      ensures t[i + 1] == PrimaryCall(t[i - 1].attempt + 1, st.models[0], TemplateFor(st, t[i - 1].attempt + 1))
    {
      if i == |calls| {
        assert t[i - 1] == calls[|calls| - 1];
        assert t[i + 1] == r[0];
      } else if i > |calls| {
        var j := i - |h|;
        assert t[i] == r[j];
        assert t[i + 1] == r[j + 1];
        assert j > 0 ==> t[i - 1] == r[j - 1];
      }
    }
  }

  /** Sleeps happen only between attempts: each one comes right after the
      last model of a failed attempt b < maxRetries, lasts
      `backoff * 2^(b-1)` seconds, and is followed by the first call of
      attempt b + 1. In particular nothing sleeps after the final attempt. */
  lemma {:induction false} SleepsSeparateAttempts(a: int, st: Setup)
    requires 1 <= a <= st.maxRetries && st.templates != [] && |st.models| > 0
    ensures SleepsBetweenAttempts(TraceFrom(a, st), a, st)
    decreases st.maxRetries - a
  {
    var sweep := SweepModels(a, TemplateFor(st, a), st.models, st.accept);
    TraceFromSteps(a, st);
    SweepHasNoSleeps(a, st);
    if sweep.story.Some? {
      assert NoSleeps(TraceFrom(a, st));
    } else if a == st.maxRetries {
      FallbacksHaveNoCalls(st.neutral, st.openai, st.hf);
      NoSleepsConcat(sweep.calls, Fallbacks(st.neutral, st.openai, st.hf).trace);
    } else {
      SweepModelsShape(a, TemplateFor(st, a), st.models, st.accept);
      SleepsSeparateAttempts(a + 1, st);
      FirstEvent(a + 1, st);
      SleepConcat(sweep.calls, TraceFrom(a + 1, st), a, st);
    }
  }

  // --------------------------------------------------------- acceptance

  /** Any accepted primary call in `t` is its last event, and `result` is
      the story it was accepted with. */
  ghost predicate EndsAtAcceptance(t: seq<Event>, result: Generation, st: Setup) {
    forall i | 0 <= i < |t| && Verdict(st, t[i]).Some? ::
      i == |t| - 1 && result == Story(Verdict(st, t[i]).value)
  }

  /** No event of `t` is an accepted primary call. */
  ghost predicate NoneAccepted(t: seq<Event>, st: Setup) {
    forall i | 0 <= i < |t| :: Verdict(st, t[i]).None?
  }

  lemma {:induction false} AcceptanceConcat(h: seq<Event>, r: seq<Event>, result: Generation, st: Setup)
    requires NoneAccepted(h, st) && EndsAtAcceptance(r, result, st)
    ensures EndsAtAcceptance(h + r, result, st)
  {
    forall i | 0 <= i < |h + r| && Verdict(st, (h + r)[i]).Some?
      ensures i == |h + r| - 1 && result == Story(Verdict(st, (h + r)[i]).value)
    {
      if i >= |h| {
        assert (h + r)[i] == r[i - |h|];
      }
    }
  }

  lemma SweepAcceptance(a: int, st: Setup)
    requires a >= 1 && st.templates != []
    ensures var sweep := SweepModels(a, TemplateFor(st, a), st.models, st.accept);
      && (sweep.story.Some? ==> EndsAtAcceptance(sweep.calls, Story(sweep.story.value), st))
      && (sweep.story.None? ==> NoneAccepted(sweep.calls + [Sleep(BackoffDelay(st.backoff, a))], st))
      && (sweep.story.None? ==> NoneAccepted(sweep.calls, st))
  {
    SweepModelsShape(a, TemplateFor(st, a), st.models, st.accept);
  }

  /** The first accepted primary response ends the run at once: nothing is
      called and nobody sleeps after it, and its story is the result. */
  lemma {:induction false} AcceptedCallEndsRun(a: int, st: Setup)
    requires 1 <= a <= st.maxRetries && st.templates != []
    ensures EndsAtAcceptance(TraceFrom(a, st), AttemptsFrom(a, st).result, st)
    decreases st.maxRetries - a
  {
    var sweep := SweepModels(a, TemplateFor(st, a), st.models, st.accept);
    TraceFromSteps(a, st);
    SweepAcceptance(a, st);
    if sweep.story.None? && a == st.maxRetries {
      var fb := Fallbacks(st.neutral, st.openai, st.hf).trace;
      FallbacksHaveNoCalls(st.neutral, st.openai, st.hf);
      assert EndsAtAcceptance(fb, AttemptsFrom(a, st).result, st);
      AcceptanceConcat(sweep.calls, fb, AttemptsFrom(a, st).result, st);
    } else if sweep.story.None? {
      AcceptedCallEndsRun(a + 1, st);
      AcceptanceConcat(FailedAttempt(a, st), TraceFrom(a + 1, st), AttemptsFrom(a, st).result, st);
    }
  }

  // ------------------------------------------------- exhaustion, success

  /** No primary call from attempt `a` on is accepted. */
  ghost predicate PrimaryExhausted(a: int, st: Setup)
    requires a >= 1 && st.templates != []
  {
    forall b, k | a <= b <= st.maxRetries && 0 <= k < |st.models| ::
      st.accept(b, st.models[k], TemplateFor(st, b)).None?
  }

  /** Every candidate model called once on attempt `b`, in order. */
  function AllModelCalls(st: Setup, b: int): (calls: seq<Event>)
    requires b >= 1 && st.templates != []
  {
    seq(|st.models|, k requires 0 <= k < |st.models| => PrimaryCall(b, st.models[k], TemplateFor(st, b)))
  }

  /** The events of attempts `a` to `maxRetries` when each of them fails:
      every model on every attempt, with the backoff sleep between attempts. */
  function ExhaustedSchedule(a: int, st: Setup): seq<Event>
    requires 1 <= a <= st.maxRetries && st.templates != []
    decreases st.maxRetries - a
  {
    if a == st.maxRetries then AllModelCalls(st, a)
    else AllModelCalls(st, a) + [Sleep(BackoffDelay(st.backoff, a))] + ExhaustedSchedule(a + 1, st)
  }

  /** When no primary call is accepted, the run makes every call of the
      schedule and then hands over to the secondary providers. */
  lemma {:induction false} ExhaustionRunsEveryCall(a: int, st: Setup)
    requires 1 <= a <= st.maxRetries && st.templates != []
    requires PrimaryExhausted(a, st)
    ensures AttemptsFrom(a, st) == Then(ExhaustedSchedule(a, st), Fallbacks(st.neutral, st.openai, st.hf))
    decreases st.maxRetries - a
  {
    var prompt := TemplateFor(st, a);
    var sweep := SweepModels(a, prompt, st.models, st.accept);
    SweepModelsShape(a, prompt, st.models, st.accept);
    assert sweep.story.None?;
    assert sweep.calls == AllModelCalls(st, a);
    if a < st.maxRetries {
      ExhaustionRunsEveryCall(a + 1, st);
    }
  }

  /** No event of `t` is a secondary provider call. */
  ghost predicate NoFallbackCalls(t: seq<Event>) {
    forall i | 0 <= i < |t| :: !t[i].IsFallback()
  }

  lemma {:induction false} NoFallbackConcat(h: seq<Event>, r: seq<Event>)
    requires NoFallbackCalls(h) && NoFallbackCalls(r)
    ensures NoFallbackCalls(h + r)
  {
    forall i | 0 <= i < |h + r| ensures !(h + r)[i].IsFallback() {
      if i >= |h| {
        assert (h + r)[i] == r[i - |h|];
      }
    }
  }

  /** When some primary call is accepted, the run ends on an accepted call,
      its story is the result, and no secondary provider is called. */
  lemma {:induction false} SuccessEndsOnPrimaryCall(a: int, st: Setup)
    requires 1 <= a <= st.maxRetries && st.templates != []
    requires !PrimaryExhausted(a, st)
    ensures |TraceFrom(a, st)| > 0
    ensures Verdict(st, Last(TraceFrom(a, st))).Some?
    ensures AttemptsFrom(a, st).result == Story(Verdict(st, Last(TraceFrom(a, st))).value)
    ensures NoFallbackCalls(TraceFrom(a, st))
    decreases st.maxRetries - a
  {
    var sweep := SweepModels(a, TemplateFor(st, a), st.models, st.accept);
    TraceFromSteps(a, st);
    if sweep.story.None? {
      AcceptedLater(a, st);
      SuccessEndsOnPrimaryCall(a + 1, st);
      SweepHasNoFallbacks(a, st);
      NoFallbackConcat(FailedAttempt(a, st), TraceFrom(a + 1, st));
      assert Last(TraceFrom(a, st)) == Last(TraceFrom(a + 1, st));
    } else {
      SweepModelsShape(a, TemplateFor(st, a), st.models, st.accept);
      assert Last(TraceFrom(a, st)) == sweep.calls[|sweep.calls| - 1];
    }
  }

  /** An attempt whose sweep fails leaves the accepted call to a later one. */
  lemma AcceptedLater(a: int, st: Setup)
    requires 1 <= a <= st.maxRetries && st.templates != []
    requires !PrimaryExhausted(a, st)
    requires SweepModels(a, TemplateFor(st, a), st.models, st.accept).story.None?
    ensures a < st.maxRetries && !PrimaryExhausted(a + 1, st)
  {
    SweepModelsShape(a, TemplateFor(st, a), st.models, st.accept);
    var b, k :| a <= b <= st.maxRetries && 0 <= k < |st.models|
      && st.accept(b, st.models[k], TemplateFor(st, b)).Some?;
    assert b != a;
  }

  lemma SweepHasNoFallbacks(a: int, st: Setup)
    requires a >= 1 && st.templates != []
    ensures NoFallbackCalls(FailedAttempt(a, st))
  {
    SweepModelsShape(a, TemplateFor(st, a), st.models, st.accept);
  }

  // ---------------------------------------------------------- call count

  /** The primary events of a trace, in order. */
  function PrimaryCalls(t: seq<Event>): seq<Event>
    decreases |t|
  {
    if t == [] then []
    else (if t[0].PrimaryCall? then [t[0]] else []) + PrimaryCalls(t[1..])
  }

  lemma {:induction false} PrimaryCallsAppend(s: seq<Event>, t: seq<Event>)
    ensures PrimaryCalls(s + t) == PrimaryCalls(s) + PrimaryCalls(t)
    decreases |s|
  {
    if s == [] {
      assert s + t == t;
    } else {
      assert (s + t)[0] == s[0];
      assert (s + t)[1..] == s[1..] + t;
      PrimaryCallsAppend(s[1..], t);
    }
  }

  lemma {:induction false} PrimaryCallsOfCalls(t: seq<Event>)
    requires forall i | 0 <= i < |t| :: t[i].PrimaryCall?
    ensures PrimaryCalls(t) == t
    decreases |t|
  {
    if t != [] {
      PrimaryCallsOfCalls(t[1..]);
    }
  }

  lemma PrimaryCallsOfFallbacks(neutral: String, openai: Fallback, hf: Fallback)
    ensures PrimaryCalls(Fallbacks(neutral, openai, hf).trace) == []
  {
    var t := Fallbacks(neutral, openai, hf).trace;
    assert PrimaryCalls(t[1..]) == [] by {
      if |t| == 2 {
        assert t[1..][1..] == [];
      }
    }
  }

  /** A sweep's events are all primary calls, at most one per model. */
  lemma SweepPrimaryCalls(attempt: int, prompt: String, models: seq<String>, accept: Verdicts)
    ensures |PrimaryCalls(SweepModels(attempt, prompt, models, accept).calls)| <= |models|
  {
    SweepModelsShape(attempt, prompt, models, accept);
    PrimaryCallsOfCalls(SweepModels(attempt, prompt, models, accept).calls);
  }

  lemma BoundStep(x: int, y: int, n: int, m: int)
    requires x <= m && y <= n * m
    ensures x + y <= (n + 1) * m
  {
    assert (n + 1) * m == n * m + m;
  }

  /** The primary calls of a final attempt that fails are its sweep's. */
  lemma PrimaryCallsOfFinalAttempt(a: int, st: Setup)
    requires a == st.maxRetries >= 1 && st.templates != []
    requires SweepModels(a, TemplateFor(st, a), st.models, st.accept).story.None?
    ensures |PrimaryCalls(TraceFrom(a, st))| == |PrimaryCalls(SweepModels(a, TemplateFor(st, a), st.models, st.accept).calls)|
  {
    var sweep := SweepModels(a, TemplateFor(st, a), st.models, st.accept);
    TraceFromSteps(a, st);
    PrimaryCallsAppend(sweep.calls, Fallbacks(st.neutral, st.openai, st.hf).trace);
    PrimaryCallsOfFallbacks(st.neutral, st.openai, st.hf);
  }

  /** The primary calls of an earlier attempt that fails are its sweep's
      followed by those of the attempts after it. */
  lemma PrimaryCallsOfFailedAttempt(a: int, st: Setup)
    requires 1 <= a < st.maxRetries && st.templates != []
    requires SweepModels(a, TemplateFor(st, a), st.models, st.accept).story.None?
    ensures |PrimaryCalls(TraceFrom(a, st))|
      == |PrimaryCalls(SweepModels(a, TemplateFor(st, a), st.models, st.accept).calls)| + |PrimaryCalls(TraceFrom(a + 1, st))|
  {
    var sweep := SweepModels(a, TemplateFor(st, a), st.models, st.accept);
    TraceFromSteps(a, st);
    var sleep := [Sleep(BackoffDelay(st.backoff, a))];
    var rest := TraceFrom(a + 1, st);
    assert TraceFrom(a, st) == sweep.calls + (sleep + rest);
    PrimaryCallsAppend(sweep.calls, sleep + rest);
    PrimaryCallsAppend(sleep, rest);
    assert PrimaryCalls(sleep) == [];
  }

  /** At most `|models|` primary calls per attempt. */
  lemma {:induction false} PrimaryCallBound(a: int, st: Setup)
    requires 1 <= a <= st.maxRetries && st.templates != []
    ensures |PrimaryCalls(TraceFrom(a, st))| <= (st.maxRetries - a + 1) * |st.models|
    decreases st.maxRetries - a
  {
    var sweep := SweepModels(a, TemplateFor(st, a), st.models, st.accept);
    var n, m := st.maxRetries - a, |st.models|;
    SweepPrimaryCalls(a, TemplateFor(st, a), st.models, st.accept);
    if sweep.story.Some? {
      TraceFromSteps(a, st);
      BoundStep(|PrimaryCalls(sweep.calls)|, 0, n, m);
    } else if a == st.maxRetries {
      PrimaryCallsOfFinalAttempt(a, st);
      BoundStep(|PrimaryCalls(sweep.calls)|, 0, n, m);
    } else {
      PrimaryCallsOfFailedAttempt(a, st);
      PrimaryCallBound(a + 1, st);
      BoundStep(|PrimaryCalls(sweep.calls)|, |PrimaryCalls(TraceFrom(a + 1, st))|, n, m);
    }
  }

  // ------------------------------------------------------- error text

  /** Error text never steers the loop: two primary providers whose
      responses are accepted with the same stories give the same sweep,
      whatever else their responses or exceptions hold. */
  lemma {:induction false} SweepDependsOnlyOnAcceptance(attempt: int, prompt: String, models: seq<String>, p: Oracle, q: Oracle)
    requires forall b, m, text :: AcceptedStory(p(b, m, text)) == AcceptedStory(q(b, m, text))
    ensures SweepModels(attempt, prompt, models, Acceptance(p)) == SweepModels(attempt, prompt, models, Acceptance(q))
    decreases |models|
  {
    if models != [] {
      SweepDependsOnlyOnAcceptance(attempt, prompt, models[1..], p, q);
    }
  }
}
