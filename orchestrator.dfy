/**
 * `generate_story_gemini`: attempts over prompt templates, candidate models
 * within each attempt, exponential backoff between attempts, and the
 * secondary providers after the final attempt. Provider calls and sleeps
 * are recorded, in order, in a trace of events; the specification
 * functions below compute the result and the trace from the inputs, and the
 * method with the source's nested loops is proved to produce exactly them.
 */
module Orchestrator {
  import opened Wrappers
  import opened Text
  import opened Prompts
  import opened Providers

  /** What the orchestrator does that the outside world can observe. */
  datatype Event =
    | PrimaryCall(attempt: int, model: String, prompt: String)
    | Sleep(seconds: nat)
    | OpenAIFallbackCall(prompt: String)
    | HuggingFaceFallbackCall(prompt: String)
  {
    predicate IsFallback() {
      OpenAIFallbackCall? || HuggingFaceFallbackCall?
    }
  }

  /** Python's `(story, None)` or `(None, error)`. */
  datatype Generation = Story(text: String) | Failed(error: String)

  /** A result together with the events that led to it. */
  datatype Run = Run(result: Generation, trace: seq<Event>)

  /** `run`, preceded by the events `prefix`. */
  function Then(prefix: seq<Event>, run: Run): Run {
    Run(run.result, prefix + run.trace)
  }

  /** The outcome of trying the candidate models in turn within one attempt:
      the accepted story if any, and the calls made. */
  datatype Sweep = Sweep(story: Option<String>, calls: seq<Event>)

  function Prepend(calls: seq<Event>, sweep: Sweep): Sweep {
    Sweep(sweep.story, calls + sweep.calls)
  }

  const MissingKeyMessage := "GOOGLE_API_KEY environment variable not set"
  const ExhaustedMessage := "All AI providers failed due to safety filters or technical issues"
  const RetriesExceededMessage := "Maximum retries exceeded"

  const DefaultMaxRetries := 3
  const DefaultBackoffFactor := 1
  const DefaultModel := "gemini-1.5-flash"

  /** The models tried on each attempt: the requested one first, then the
      two fixed alternatives (the requested one may repeat one of them). */
  function CandidateModels(modelName: String): (models: seq<String>)
    ensures |models| == 3 && models[0] == modelName
  {
    [modelName, "gemini-1.5-pro", "gemini-1.0-pro"]
  }

  /** `min(attempt - 1, count - 1)`: the template used on an attempt. */
  function TemplateIndex(attempt: int, count: int): (k: int)
    requires 1 <= attempt && 1 <= count
    ensures 0 <= k < count && k <= attempt - 1
    ensures attempt <= count ==> k == attempt - 1
    ensures attempt >= count ==> k == count - 1
  {
    if attempt - 1 < count - 1 then attempt - 1 else count - 1
  }

  /** Later attempts never use an earlier template. */
  lemma TemplateIndexMonotone(a: int, b: int, count: int)
    requires 1 <= a <= b && 1 <= count
    ensures TemplateIndex(a, count) <= TemplateIndex(b, count)
  {
  }

  /** 2 to the power `n`. */
  function Pow2(n: nat): nat {
    if n == 0 then 1 else 2 * Pow2(n - 1)
  }

  /** `backoff_factor * 2 ** (attempt - 1)` seconds: the factor itself
      after the first attempt, and no wait at all with a zero factor. */
  function BackoffDelay(backoff: nat, attempt: int): (d: nat)
    requires attempt >= 1
    ensures attempt == 1 ==> d == backoff
    ensures backoff == 0 ==> d == 0
  {
    backoff * Pow2(attempt - 1)
  }

  /** Each further attempt waits twice as long as the one before. */
  lemma BackoffDoubles(backoff: nat, attempt: int)
    requires attempt > 1
    ensures BackoffDelay(backoff, attempt) == 2 * BackoffDelay(backoff, attempt - 1)
  {
    assert Pow2(attempt - 1) == 2 * Pow2(attempt - 2);
  }

  /** Which story, if any, the quality gate accepts from the primary call
      made on an attempt to a model with a prompt text. */
  type Verdicts = (int, String, String) -> Option<String>

  /** The verdicts of a primary provider: each call's outcome goes through
      `AcceptedStory`. */
  function Acceptance(primary: Oracle): Verdicts {
    (attempt, model, prompt) => AcceptedStory(primary(attempt, model, prompt))
  }

  /** The inputs that stay fixed during one generation: the prompt
      templates and the neutralised prompt computed from the user's prompt,
      and the parameters and providers. */
  datatype Setup = Setup(
    templates: seq<String>,
    neutral: String,
    maxRetries: int,
    backoff: nat,
    models: seq<String>,
    accept: Verdicts,
    openai: Fallback,
    hf: Fallback)

  /** The prompt text sent on an attempt. */
  function TemplateFor(st: Setup, attempt: int): String
    requires attempt >= 1 && st.templates != []
  {
    st.templates[TemplateIndex(attempt, |st.templates|)]
  }

  /** One attempt's inner loop: the models are called in order until one
      yields an accepted story. */
  function SweepModels(attempt: int, prompt: String, models: seq<String>, accept: Verdicts): Sweep
    decreases |models|
  {
    if models == [] then Sweep(None, [])
    else
      var call := PrimaryCall(attempt, models[0], prompt);
      var story := accept(attempt, models[0], prompt);
      if story.Some? then Sweep(story, [call])
      else Prepend([call], SweepModels(attempt, prompt, models[1..], accept))
  }

  /** What one sweep does, stated without recursion: it calls a prefix of
      the models in order, every call but the last is rejected, and it
      stops at the first accepted story or after the last model. */
  lemma {:induction false} SweepModelsShape(attempt: int, prompt: String, models: seq<String>, accept: Verdicts)
    ensures |SweepModels(attempt, prompt, models, accept).calls| <= |models|
    ensures forall k | 0 <= k < |SweepModels(attempt, prompt, models, accept).calls| ::
      SweepModels(attempt, prompt, models, accept).calls[k] == PrimaryCall(attempt, models[k], prompt)
    ensures forall k | 0 <= k < |SweepModels(attempt, prompt, models, accept).calls| - 1 ::
      accept(attempt, models[k], prompt).None?
    ensures SweepModels(attempt, prompt, models, accept).story.None? ==>
      && |SweepModels(attempt, prompt, models, accept).calls| == |models|
      && forall k | 0 <= k < |models| :: accept(attempt, models[k], prompt).None?
    ensures SweepModels(attempt, prompt, models, accept).story.Some? ==>
      var n := |SweepModels(attempt, prompt, models, accept).calls|;
      n > 0 && SweepModels(attempt, prompt, models, accept).story == accept(attempt, models[n - 1], prompt)
    decreases |models|
  {
    if models != [] && accept(attempt, models[0], prompt).None? {
      SweepModelsShape(attempt, prompt, models[1..], accept);
    }
  }

  /** The secondary providers, each given the neutralised prompt: the first
      truthy story wins, otherwise the generation has failed. */
  function Fallbacks(neutral: String, openai: Fallback, hf: Fallback): Run {
    var first := openai(neutral);
    if Truthy(first.story) then Run(Story(first.story.value), [OpenAIFallbackCall(neutral)])
    else
      var second := hf(neutral);
      var calls := [OpenAIFallbackCall(neutral), HuggingFaceFallbackCall(neutral)];
      if Truthy(second.story) then Run(Story(second.story.value), calls)
      else Run(Failed(ExhaustedMessage), calls)
  }

  /** The outer loop from `attempt` on. */
  function AttemptsFrom(attempt: int, st: Setup): Run
    requires 1 <= attempt <= st.maxRetries && st.templates != []
    decreases st.maxRetries - attempt
  {
    var sweep := SweepModels(attempt, TemplateFor(st, attempt), st.models, st.accept);
    if sweep.story.Some? then Run(Story(sweep.story.value), sweep.calls)
    else if attempt == st.maxRetries then Then(sweep.calls, Fallbacks(st.neutral, st.openai, st.hf))
    else Then(sweep.calls + [Sleep(BackoffDelay(st.backoff, attempt))], AttemptsFrom(attempt + 1, st))
  }

  function SetupFor(
    prompt: String, maxRetries: int, backoff: nat, modelName: String,
    primary: Oracle, openai: Fallback, hf: Fallback): Setup
  {
    Setup(SafePromptTemplates(prompt), Neutralized(prompt), maxRetries, backoff, CandidateModels(modelName), Acceptance(primary), openai, hf)
  }

  /** The result and trace of `generate_story_gemini`. */
  function GenerateStory(
    prompt: String, maxRetries: int, backoff: nat, modelName: String,
    googleKey: Option<String>, primary: Oracle, openai: Fallback, hf: Fallback): Run
  {
    if !Configured(googleKey) then Run(Failed(MissingKeyMessage), [])
    else if maxRetries < 1 then Run(Failed(RetriesExceededMessage), [])
    else AttemptsFrom(1, SetupFor(prompt, maxRetries, backoff, modelName, primary, openai, hf))
  }

  /** The inner loop of `generate_story_gemini`: call the models in order
      with the attempt's prompt, and stop at the first accepted story (where
      the source returns it at once). Every exception is swallowed. */
  method TryCandidateModels(attempt: int, currentPrompt: String, models: seq<String>, primary: Oracle)
    returns (story: Option<String>, calls: seq<Event>)
    ensures Sweep(story, calls) == SweepModels(attempt, currentPrompt, models, Acceptance(primary))
  {
    calls := [];
    for i := 0 to |models|
      invariant SweepModels(attempt, currentPrompt, models, Acceptance(primary))
        == Prepend(calls, SweepModels(attempt, currentPrompt, models[i..], Acceptance(primary)))
    {
      var modelToTry := models[i];
      assert models[i..][1..] == models[i + 1..];
      calls := calls + [PrimaryCall(attempt, modelToTry, currentPrompt)];
      match primary(attempt, modelToTry, currentPrompt)
      case Returned(response) =>
        var extracted := ExtractStory(response);
        if extracted.Some? && extracted.value != [] && |extracted.value| > MinimumStoryLength {
          return extracted, calls;
        }
      case Raised(errorDetails) =>
        // the keyword tests only choose between two `continue`s
        if MentionsSafetyFilter(errorDetails) {
          continue;
        }
        if MentionsNotFound(errorDetails) {
          continue;
        }
    }
    assert models[|models|..] == [];
    story := None;
  }

  /** The final attempt's tail: the OpenAI fallback, then the Hugging Face
      fallback, each on a freshly neutralised prompt. */
  method TryAlternativeProviders(prompt: String, openai: Fallback, hf: Fallback)
    returns (result: Generation, calls: seq<Event>)
    ensures Run(result, calls) == Fallbacks(Neutralized(prompt), openai, hf)
  {
    var neutral := NeutralizePrompt(prompt);
    calls := [OpenAIFallbackCall(neutral)];
    var reply := openai(neutral);
    if Truthy(reply.story) {
      return Story(reply.story.value), calls;
    }
    neutral := NeutralizePrompt(prompt);
    calls := calls + [HuggingFaceFallbackCall(neutral)];
    reply := hf(neutral);
    if Truthy(reply.story) {
      return Story(reply.story.value), calls;
    }
    return Failed(ExhaustedMessage), calls;
  }

  /** The retry loop of `generate_story_gemini`, over the templates computed
      from `prompt`: each attempt sweeps the models with its template, sleeps
      before the next attempt, and hands over to the secondary providers
      after the last one. */
  method RetryAttempts(
    prompt: String, safeTemplates: seq<String>, maxRetries: int, backoffFactor: nat,
    geminiModels: seq<String>, primary: Oracle, openai: Fallback, hf: Fallback)
    returns (result: Generation, trace: seq<Event>)
    requires safeTemplates != [] && 1 <= maxRetries
    ensures Run(result, trace)
      == AttemptsFrom(1, Setup(safeTemplates, Neutralized(prompt), maxRetries, backoffFactor, geminiModels, Acceptance(primary), openai, hf))
  {
    ghost var st := Setup(safeTemplates, Neutralized(prompt), maxRetries, backoffFactor, geminiModels, Acceptance(primary), openai, hf);
    trace := [];
    var attempt := 1;
    while attempt <= maxRetries
      invariant 1 <= attempt <= maxRetries
      invariant AttemptsFrom(1, st) == Then(trace, AttemptsFrom(attempt, st))
      decreases maxRetries - attempt
    {
      var currentPrompt := safeTemplates[TemplateIndex(attempt, |safeTemplates|)];
      var story, calls := TryCandidateModels(attempt, currentPrompt, geminiModels, primary);
      ghost var before := trace;
      trace := trace + calls;
      if story.Some? {
        return Story(story.value), trace;
      }
      if attempt == maxRetries {
        var fallbackResult, fallbackCalls := TryAlternativeProviders(prompt, openai, hf);
        return fallbackResult, trace + fallbackCalls;
      }
      var sleepTime := BackoffDelay(backoffFactor, attempt);
      ghost var next := AttemptsFrom(attempt + 1, st);
      assert AttemptsFrom(attempt, st) == Then(calls + [Sleep(sleepTime)], next);
      assert before + ((calls + [Sleep(sleepTime)]) + next.trace) == (trace + [Sleep(sleepTime)]) + next.trace;
      trace := trace + [Sleep(sleepTime)];
      attempt := attempt + 1;
    }
    // the loop only ends through its returns
    assert false;
  }

  /** `generate_story_gemini`, with the providers passed in and the calls and
      sleeps recorded in `trace`. */
  method GenerateStoryGemini(
    prompt: String, maxRetries: int, backoffFactor: nat, modelName: String,
    googleKey: Option<String>, primary: Oracle, openai: Fallback, hf: Fallback)
    returns (result: Generation, trace: seq<Event>)
    ensures Run(result, trace) == GenerateStory(prompt, maxRetries, backoffFactor, modelName, googleKey, primary, openai, hf)
  {
    if !Configured(googleKey) {
      return Failed(MissingKeyMessage), [];
    }
    if maxRetries < 1 {
      // the retry loop runs no attempt
      return Failed(RetriesExceededMessage), [];
    }
    var safeTemplates := SafePromptTemplates(prompt);
    var geminiModels := CandidateModels(modelName);
    result, trace := RetryAttempts(prompt, safeTemplates, maxRetries, backoffFactor, geminiModels, primary, openai, hf);
  }
}
