/**
 * What a client of `StoryGenerateView.post` observes: which status each
 * outcome gets, what a success echoes back, and the responses for the
 * situations the view's own wording anticipates (a missing key, every
 * provider failing, a first call that succeeds).
 */
module ViewProperties {
  import opened Wrappers
  import opened Text
  import opened Prompts
  import opened Providers
  import opened Orchestrator
  import opened OrchestratorProperties
  import opened GenerationProperties
  import opened StoryView

  /** A model outside the list is answered with 400 before any provider is
      called, and only such a model gets that answer. */
  lemma InvalidModelRejected(request: RequestData, env: Environment, primary: Oracle, post: HttpPost)
    ensures var x := HandlePost(request, env, primary, post);
      (RequestModel(request) !in ValidModels <==> x.response.body.InvalidModel?)
      && (RequestModel(request) !in ValidModels ==>
            x.response == Response(HttpBadRequest, InvalidModel(InvalidModelMessage)) && x.trace == [])
  {
  }

  /** The status tells the outcomes apart: 200 carries a story, 400 a
      failure whose message names a safety keyword, 500 any other
      failure. */
  lemma StatusClassification(prompt: String, modelName: String, generation: Generation)
    ensures var r := Respond(prompt, modelName, generation);
      && (r.status == HttpOk <==> generation.Story?)
      && (r.status == HttpBadRequest <==> generation.Failed? && MentionsSafetyFilter(generation.error))
      && (r.status == HttpInternalServerError <==> generation.Failed? && !MentionsSafetyFilter(generation.error))
      && (r.status == HttpOk || r.status == HttpBadRequest || r.status == HttpInternalServerError)
  {
  }

  /** A successful response echoes the requested model (whichever provider
      wrote the story) and the prompt as sent (not its neutralised form),
      and carries guidance exactly when the story is shorter than 100
      characters. */
  lemma SuccessEchoesRequest(request: RequestData, env: Environment, primary: Oracle, post: HttpPost)
    ensures var x := HandlePost(request, env, primary, post);
      x.response.status == HttpOk ==>
        && x.response.body.Generated?
        && x.response.body.story != []
        && x.response.body.modelUsed == RequestModel(request)
        && x.response.body.prompt == RequestPrompt(request)
        && (x.response.body.storyGuidance.Some? <==> |x.response.body.story| < ShortStoryLength)
  {
    StoriesAreNonEmpty(RequestPrompt(request), DefaultMaxRetries, DefaultBackoffFactor, RequestModel(request),
      env.googleKey, primary, OpenAIFallback(), HuggingFaceFallback(env, post));
  }

  /** A string holding "safety" at index `i` names a safety filter. */
  lemma MentionsSafetyAt(s: String, i: nat)
    requires i + 6 <= |s| && s[i..i + 6] == "safety"
    ensures MentionsSafetyFilter(s)
  {
    var k := "safety";
    forall j | 0 <= j < 6 ensures Lower(s)[i + j] == k[j] {
      assert s[i + j] == s[i..i + 6][j];
    }
    assert Lower(s)[i..i + 6] == k;
    assert OccursAt(Lower(s), k, i);
    assert k in SafetyKeywords;
  }

  /** A string with no 'f' and no 'c', in either case, names none of the
      keywords: "safety" and "filter" need an 'f', "blocked" a 'c'. */
  lemma MentionsNoSafetyWithout(s: String)
    requires 'f' !in s && 'F' !in s && 'c' !in s && 'C' !in s
    ensures !MentionsSafetyFilter(s)
  {
    LowerAbsent(s, 'f');
    LowerAbsent(s, 'c');
    NotContainsWithoutChar(Lower(s), "safety", 2);
    NotContainsWithoutChar(Lower(s), "blocked", 3);
    NotContainsWithoutChar(Lower(s), "filter", 0);
  }

  lemma SafetyInExhaustedMessage()
    ensures 37 <= |ExhaustedMessage| && ExhaustedMessage[31..37] == "safety"
  {
    var e := ExhaustedMessage;
    assert e[31] == 's' && e[32] == 'a' && e[33] == 'f' && e[34] == 'e' && e[35] == 't' && e[36] == 'y';
  }

  lemma MissingKeyMessageLacksF()
    ensures 'f' !in MissingKeyMessage && 'F' !in MissingKeyMessage
  {
  }

  lemma MissingKeyMessageLacksC()
    ensures 'c' !in MissingKeyMessage && 'C' !in MissingKeyMessage
  {
  }

  /** The exhaustion message names a safety filter, so the view reports
      exhaustion as a safety block. */
  lemma ExhaustedMessageMentionsSafety()
    ensures MentionsSafetyFilter(ExhaustedMessage)
  {
    SafetyInExhaustedMessage();
    MentionsSafetyAt(ExhaustedMessage, 31);
  }

  /** The missing-key message names none of the keywords, so the view
      reports a missing key as a server error. */
  lemma MissingKeyMessageMentionsNoSafety()
    ensures !MentionsSafetyFilter(MissingKeyMessage)
  {
    MissingKeyMessageLacksF();
    MissingKeyMessageLacksC();
    MentionsNoSafetyWithout(MissingKeyMessage);
  }

  /** The OpenAI fallback never produces a story, so after it the Hugging
      Face fallback always runs, on the same neutralised prompt, and decides
      the outcome. */
  lemma OpenAIFallbackNeverWins(neutral: String, hf: Fallback)
    ensures Fallbacks(neutral, OpenAIFallback(), hf).trace == [OpenAIFallbackCall(neutral), HuggingFaceFallbackCall(neutral)]
    ensures Fallbacks(neutral, OpenAIFallback(), hf).result
      == (if Truthy(hf(neutral).story) then Story(hf(neutral).story.value) else Failed(ExhaustedMessage))
  {
    assert !Truthy(TryOpenAIFallback(neutral).story);
  }

  /** For a valid model, the view answers 500 exactly when the Google key
      is missing: with a key the generation either succeeds or ends with
      the exhaustion message, which is answered with 400. */
  lemma ServerErrorIffKeyMissing(request: RequestData, env: Environment, primary: Oracle, post: HttpPost)
    requires RequestModel(request) in ValidModels
    ensures var x := HandlePost(request, env, primary, post);
      (x.response.status == HttpInternalServerError <==> !Configured(env.googleKey))
      && (!Configured(env.googleKey) ==>
            && x.trace == []
            && x.response.body == GenerationFailed("Generation failed: " + MissingKeyMessage, PromptGuidance(), FailureSuggestions))
  {
    FailureMessages(RequestPrompt(request), DefaultMaxRetries, DefaultBackoffFactor, RequestModel(request),
      env.googleKey, primary, OpenAIFallback(), HuggingFaceFallback(env, post));
    ExhaustedMessageMentionsSafety();
    MissingKeyMessageMentionsNoSafety();
  }

  /** With the view's defaults, a key, every primary call rejected and no
      story from the Hugging Face fallback: the exhaustion failure after
      the nine primary calls and both fallbacks. */
  lemma ExhaustedWhenEveryProviderFails(
    prompt: String, modelName: String, googleKey: Option<String>, primary: Oracle, hf: Fallback)
    requires Configured(googleKey)
    requires forall b, m, text :: AcceptedStory(primary(b, m, text)).None?
    requires !Truthy(hf(Neutralized(prompt)).story)
    ensures var r := GenerateStory(prompt, DefaultMaxRetries, DefaultBackoffFactor, modelName, googleKey, primary, OpenAIFallback(), hf);
      var ms := CandidateModels(modelName);
      && r.result == Failed(ExhaustedMessage)
      && r.trace
         == ThreeCalls(1, ms, SafePromptTemplates(prompt)[0]) + [Sleep(1)]
          + ThreeCalls(2, ms, SafePromptTemplates(prompt)[1]) + [Sleep(2)]
          + ThreeCalls(3, ms, SafePromptTemplates(prompt)[2])
          + [OpenAIFallbackCall(Neutralized(prompt)), HuggingFaceFallbackCall(Neutralized(prompt))]
  {
    var st := SetupFor(prompt, DefaultMaxRetries, DefaultBackoffFactor, modelName, primary, OpenAIFallback(), hf);
    assert PrimaryExhausted(1, st);
    DefaultScheduleWhenAllRejected(prompt, modelName, googleKey, primary, OpenAIFallback(), hf);
    FallbacksOnlyAfterExhaustion(prompt, DefaultMaxRetries, DefaultBackoffFactor, modelName, googleKey, primary, OpenAIFallback(), hf);
    OpenAIFallbackNeverWins(Neutralized(prompt), hf);
  }

  /** With a key, a valid model, every primary call rejected and no story
      from Hugging Face: nine primary calls over three templates with sleeps
      of 1 and 2 seconds, both fallbacks on the neutralised prompt, and a
      400 safety-block answer. */
  lemma BlockedWhenEveryProviderFails(request: RequestData, env: Environment, primary: Oracle, post: HttpPost)
    requires RequestModel(request) in ValidModels && Configured(env.googleKey)
    requires forall b, m, text :: AcceptedStory(primary(b, m, text)).None?
    requires !Truthy(TryHuggingFaceFallback(Neutralized(RequestPrompt(request)), env.huggingFaceKey, post).story)
    ensures var x := HandlePost(request, env, primary, post);
      var prompt := RequestPrompt(request);
      var ms := CandidateModels(RequestModel(request));
      && x.response == Response(HttpBadRequest, SafetyBlocked(SafetyBlockedError, SafetyBlockedMessage, PromptGuidance(), true))
      && x.trace
         == ThreeCalls(1, ms, SafePromptTemplates(prompt)[0]) + [Sleep(1)]
          + ThreeCalls(2, ms, SafePromptTemplates(prompt)[1]) + [Sleep(2)]
          + ThreeCalls(3, ms, SafePromptTemplates(prompt)[2])
          + [OpenAIFallbackCall(Neutralized(prompt)), HuggingFaceFallbackCall(Neutralized(prompt))]
  {
    ExhaustedWhenEveryProviderFails(RequestPrompt(request), RequestModel(request), env.googleKey, primary,
      HuggingFaceFallback(env, post));
    ExhaustedMessageMentionsSafety();
  }

  /** When the first call, to the requested model with the first template,
      is accepted, that is the only event and its story is answered with
      200. */
  lemma ImmediateSuccess(request: RequestData, env: Environment, primary: Oracle, post: HttpPost)
    requires RequestModel(request) in ValidModels && Configured(env.googleKey)
    requires AcceptedStory(primary(1, RequestModel(request), SafePromptTemplates(RequestPrompt(request))[0])).Some?
    ensures var x := HandlePost(request, env, primary, post);
      var story := AcceptedStory(primary(1, RequestModel(request), SafePromptTemplates(RequestPrompt(request))[0])).value;
      && x.trace == [PrimaryCall(1, RequestModel(request), SafePromptTemplates(RequestPrompt(request))[0])]
      && x.response.status == HttpOk
      && x.response.body.story == story
  {
  }
}
