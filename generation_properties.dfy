/**
 * Properties of `generate_story_gemini` as a whole, stated on
 * `Orchestrator.GenerateStory` (which the method `GenerateStoryGemini` is
 * proved to compute): the call budget, when the secondary providers run and
 * with what, how a story is accepted, and the schedule with the defaults
 * the view uses.
 */
module GenerationProperties {
  import opened Wrappers
  import opened Text
  import opened Prompts
  import opened Providers
  import opened Orchestrator
  import opened OrchestratorProperties

  /** Whether the retry loop runs at all. */
  predicate Starts(googleKey: Option<String>, maxRetries: int) {
    Configured(googleKey) && maxRetries >= 1
  }

  /** Without a key, or with fewer than one retry, nothing is called and
      nothing sleeps; otherwise at most `max_retries * 3` primary calls are
      made. */
  lemma PrimaryCallBudget(
    prompt: String, maxRetries: int, backoff: nat, modelName: String,
    googleKey: Option<String>, primary: Oracle, openai: Fallback, hf: Fallback)
    ensures !Starts(googleKey, maxRetries) ==>
      GenerateStory(prompt, maxRetries, backoff, modelName, googleKey, primary, openai, hf).trace == []
    ensures Starts(googleKey, maxRetries) ==>
      |PrimaryCalls(GenerateStory(prompt, maxRetries, backoff, modelName, googleKey, primary, openai, hf).trace)| <= maxRetries * 3
  {
    if Starts(googleKey, maxRetries) {
      PrimaryCallBound(1, SetupFor(prompt, maxRetries, backoff, modelName, primary, openai, hf));
    }
  }

  /** The error cases: a missing key and a retry count below one fail
      before any call, with their own messages; any other failure comes
      after both secondary providers were called. */
  lemma FailureMessages(
    prompt: String, maxRetries: int, backoff: nat, modelName: String,
    googleKey: Option<String>, primary: Oracle, openai: Fallback, hf: Fallback)
    ensures var r := GenerateStory(prompt, maxRetries, backoff, modelName, googleKey, primary, openai, hf);
      && (!Configured(googleKey) <==> r.result == Failed(MissingKeyMessage))
      && (Configured(googleKey) && maxRetries < 1 <==> r.result == Failed(RetriesExceededMessage))
      && (r.result.Failed? && Starts(googleKey, maxRetries) ==>
            && r.result == Failed(ExhaustedMessage)
            && |r.trace| >= 2
            && r.trace[|r.trace| - 2] == OpenAIFallbackCall(Neutralized(prompt))
            && r.trace[|r.trace| - 1] == HuggingFaceFallbackCall(Neutralized(prompt)))
  {
    if Starts(googleKey, maxRetries) {
      var st := SetupFor(prompt, maxRetries, backoff, modelName, primary, openai, hf);
      if PrimaryExhausted(1, st) {
        ExhaustionRunsEveryCall(1, st);
      } else {
        SuccessEndsOnPrimaryCall(1, st);
      }
    }
  }

  /** The secondary providers are called exactly when the loop ran and no
      primary call on any attempt was accepted; both get the neutralised
      prompt, not a template. When some call was accepted, its story is the
      result: it comes from the last event, a primary call whose response
      passed the quality gate. */
  lemma FallbacksOnlyAfterExhaustion(
    prompt: String, maxRetries: int, backoff: nat, modelName: String,
    googleKey: Option<String>, primary: Oracle, openai: Fallback, hf: Fallback)
    requires Starts(googleKey, maxRetries)
    ensures var r := GenerateStory(prompt, maxRetries, backoff, modelName, googleKey, primary, openai, hf);
      var st := SetupFor(prompt, maxRetries, backoff, modelName, primary, openai, hf);
      && (PrimaryExhausted(1, st) ==>
            && r.trace == ExhaustedSchedule(1, st) + Fallbacks(Neutralized(prompt), openai, hf).trace
            && r.result == Fallbacks(Neutralized(prompt), openai, hf).result)
      && (!PrimaryExhausted(1, st) ==>
            && NoFallbackCalls(r.trace)
            && r.trace != []
            && Last(r.trace).PrimaryCall?
            && AcceptedStory(primary(Last(r.trace).attempt, Last(r.trace).model, Last(r.trace).prompt)).Some?
            && r.result == Story(AcceptedStory(primary(Last(r.trace).attempt, Last(r.trace).model, Last(r.trace).prompt)).value))
  {
    var st := SetupFor(prompt, maxRetries, backoff, modelName, primary, openai, hf);
    if PrimaryExhausted(1, st) {
      ExhaustionRunsEveryCall(1, st);
    } else {
      SuccessEndsOnPrimaryCall(1, st);
    }
  }

  /** The calls to every model on attempt `b`, in order. */
  function ThreeCalls(b: int, ms: seq<String>, text: String): seq<Event>
    requires |ms| == 3
  {
    [PrimaryCall(b, ms[0], text), PrimaryCall(b, ms[1], text), PrimaryCall(b, ms[2], text)]
  }

  lemma ExhaustedScheduleOfThree(st: Setup)
    requires st.maxRetries == 3 && st.backoff == 1 && |st.models| == 3 && st.templates != []
    ensures ExhaustedSchedule(1, st)
      == ThreeCalls(1, st.models, TemplateFor(st, 1)) + [Sleep(1)]
       + ThreeCalls(2, st.models, TemplateFor(st, 2)) + [Sleep(2)]
       + ThreeCalls(3, st.models, TemplateFor(st, 3))
  {
    assert BackoffDelay(1, 1) == 1 && BackoffDelay(1, 2) == 2;
    assert AllModelCalls(st, 1) == ThreeCalls(1, st.models, TemplateFor(st, 1));
    assert AllModelCalls(st, 2) == ThreeCalls(2, st.models, TemplateFor(st, 2));
    assert AllModelCalls(st, 3) == ThreeCalls(3, st.models, TemplateFor(st, 3));
    var c1, c2, c3 := AllModelCalls(st, 1), AllModelCalls(st, 2), AllModelCalls(st, 3);
    assert ExhaustedSchedule(3, st) == c3;
    assert ExhaustedSchedule(2, st) == c2 + [Sleep(2)] + c3;
    assert ExhaustedSchedule(1, st) == c1 + [Sleep(1)] + (c2 + [Sleep(2)] + c3);
  }

  /** With the defaults the view uses (three attempts, backoff factor 1)
      and every primary call rejected: the three models on the first,
      second and third template in turn, sleeps of 1 and 2 seconds between
      the attempts, none after the last, then the secondary providers on the
      neutralised prompt. */
  lemma DefaultScheduleWhenAllRejected(
    prompt: String, modelName: String, googleKey: Option<String>,
    primary: Oracle, openai: Fallback, hf: Fallback)
    requires Configured(googleKey)
    requires forall b, m, text :: AcceptedStory(primary(b, m, text)).None?
    ensures GenerateStory(prompt, DefaultMaxRetries, DefaultBackoffFactor, modelName, googleKey, primary, openai, hf).trace
      == ThreeCalls(1, CandidateModels(modelName), SafePromptTemplates(prompt)[0]) + [Sleep(1)]
       + ThreeCalls(2, CandidateModels(modelName), SafePromptTemplates(prompt)[1]) + [Sleep(2)]
       + ThreeCalls(3, CandidateModels(modelName), SafePromptTemplates(prompt)[2])
       + Fallbacks(Neutralized(prompt), openai, hf).trace
  {
    var st := SetupFor(prompt, DefaultMaxRetries, DefaultBackoffFactor, modelName, primary, openai, hf);
    assert PrimaryExhausted(1, st);
    ExhaustionRunsEveryCall(1, st);
    ExhaustedScheduleOfThree(st);
  }

  /** With the default three attempts the fourth, most general template is
      never sent: every primary call uses one of the first three. */
  lemma LastTemplateUnusedByDefault(
    prompt: String, backoff: nat, modelName: String, googleKey: Option<String>,
    primary: Oracle, openai: Fallback, hf: Fallback)
    ensures var t := GenerateStory(prompt, DefaultMaxRetries, backoff, modelName, googleKey, primary, openai, hf).trace;
      forall i | 0 <= i < |t| && t[i].PrimaryCall? :: t[i].prompt != SafePromptTemplates(prompt)[3]
  {
    if Configured(googleKey) {
      var st := SetupFor(prompt, DefaultMaxRetries, backoff, modelName, primary, openai, hf);
      CallsFollowSchedule(1, st);
      var t := TraceFrom(1, st);
      forall i | 0 <= i < |t| && t[i].PrimaryCall? ensures t[i].prompt != SafePromptTemplates(prompt)[3] {
        var k := TemplateIndex(t[i].attempt, 4);
        TemplatesDistinct(prompt, k, 3);
      }
    }
  }

  /** Every story the function returns is non-empty: a primary story is
      longer than 50 characters, and a secondary one is truthy. */
  lemma StoriesAreNonEmpty(
    prompt: String, maxRetries: int, backoff: nat, modelName: String,
    googleKey: Option<String>, primary: Oracle, openai: Fallback, hf: Fallback)
    ensures var r := GenerateStory(prompt, maxRetries, backoff, modelName, googleKey, primary, openai, hf);
      r.result.Story? ==> r.result.text != []
  {
    if Starts(googleKey, maxRetries) {
      FallbacksOnlyAfterExhaustion(prompt, maxRetries, backoff, modelName, googleKey, primary, openai, hf);
    }
  }
}
