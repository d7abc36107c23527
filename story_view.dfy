/**
 * `StoryGenerateView.post` (the second definition, which is the one bound to
 * the name): validate the requested model, run `generate_story_gemini` with
 * its default retry settings, and turn the outcome into an HTTP response
 * with guidance for the user.
 */
module StoryView {
  import opened Wrappers
  import opened Text
  import opened Providers
  import opened Orchestrator

  /** The request fields the view reads; None when the key is absent. */
  datatype RequestData = RequestData(prompt: Option<String>, model: Option<String>)

  /** The environment variables the story path reads. */
  datatype Environment = Environment(googleKey: Option<String>, huggingFaceKey: Option<String>)

  /** The dictionary `get_prompt_guidance` returns. */
  datatype Guidance = Guidance(goodExamples: seq<String>, avoid: seq<String>, tips: seq<String>)

  /** The response bodies the view produces, one per branch. */
  datatype Body =
    | InvalidModel(error: String)
    | SafetyBlocked(error: String, message: String, guidance: Guidance, alternativeProvidersTried: bool)
    | GenerationFailed(error: String, guidance: Guidance, suggestions: seq<String>)
    | Generated(story: String, modelUsed: String, prompt: String, storyGuidance: Option<Guidance>)

  datatype Response = Response(status: int, body: Body)

  const HttpOk := 200
  const HttpBadRequest := 400
  const HttpInternalServerError := 500

  const DefaultPrompt := "Generate an interesting story."

  /** The models a request may name. */
  const ValidModels: seq<String> := ["gemini-1.5-flash", "gemini-1.5-pro", "gemini-1.0-pro"]

  /** The error for a model outside `ValidModels`: the list as Python
      prints it. */
  const InvalidModelMessage :=
    "Invalid model. Available models: ['gemini-1.5-flash', 'gemini-1.5-pro', 'gemini-1.0-pro']"

  const SafetyBlockedError := "Content generation was blocked by safety filters."
  const SafetyBlockedMessage := "Please try rephrasing your prompt to be more general and neutral."
  const FailureSuggestions: seq<String> := [
    "Try using a different model",
    "Make your prompt shorter and more specific",
    "Check your API configuration"]

  /** Stories shorter than this come with guidance. */
  const ShortStoryLength := 100

  /** Example prompts the guidance offers. */
  const GoodExamples: seq<String> := [
    "Write a story about a skilled craftsperson who creates beautiful pottery",
    "Tell a tale of an artisan who preserves traditional weaving techniques",
    "Create a story about a woodworker who teaches their craft to young apprentices"]

  /** What the guidance tells the user to avoid. */
  const ThingsToAvoid: seq<String> := [
    "Specific cultural or ethnic identifiers",
    "Religious references",
    "Political content",
    "References to specific regions that might be sensitive"]

  /** The guidance's tips. */
  const Tips: seq<String> := [
    "Focus on universal themes like craftsmanship and dedication",
    "Use general terms like 'traditional' instead of specific cultural references",
    "Emphasize the creative process and artistic journey",
    "Keep prompts positive and uplifting"]

  /** `get_prompt_guidance`: three example prompts, four things to avoid and
      four tips. */
  function PromptGuidance(): (g: Guidance)
    ensures |g.goodExamples| == 3 && |g.avoid| == 4 && |g.tips| == 4
  {
    Guidance(GoodExamples, ThingsToAvoid, Tips)
  }

  /** The secondary providers as the view's environment configures them:
      `try_openai_fallback` fails whatever the environment, and
      `try_huggingface_fallback` reads the Hugging Face key. */
  function OpenAIFallback(): Fallback {
    TryOpenAIFallback
  }

  function HuggingFaceFallback(env: Environment, post: HttpPost): Fallback {
    prompt => TryHuggingFaceFallback(prompt, env.huggingFaceKey, post)
  }

  /** The response for a generation outcome, given the request's prompt
      and model. */
  function Respond(prompt: String, modelName: String, generation: Generation): (r: Response)
    ensures r.status == HttpOk <==> generation.Story?
    ensures generation.Story? ==>
      && r.body.Generated?
      && r.body.story == generation.text
      && r.body.modelUsed == modelName
      && r.body.prompt == prompt
      && (r.body.storyGuidance.Some? <==> |generation.text| < ShortStoryLength)
    ensures generation.Failed? ==>
      && (r.status == HttpBadRequest <==> MentionsSafetyFilter(generation.error))
      && (r.status == HttpBadRequest || r.status == HttpInternalServerError)
    ensures generation.Story? && r.body.storyGuidance.Some? ==> r.body.storyGuidance.value == PromptGuidance()
    ensures generation.Failed? && MentionsSafetyFilter(generation.error) ==>
      r.body == SafetyBlocked(SafetyBlockedError, SafetyBlockedMessage, PromptGuidance(), true)
    ensures generation.Failed? && !MentionsSafetyFilter(generation.error) ==>
      && r.body.GenerationFailed?
      && r.body.error == "Generation failed: " + generation.error
      && r.body.guidance == PromptGuidance()
      && r.body.suggestions == FailureSuggestions
  {
    match generation
    case Failed(error) =>
      if MentionsSafetyFilter(error) then
        Response(HttpBadRequest, SafetyBlocked(SafetyBlockedError, SafetyBlockedMessage, PromptGuidance(), true))
      else
        Response(HttpInternalServerError, GenerationFailed("Generation failed: " + error, PromptGuidance(), FailureSuggestions))
    case Story(story) =>
      var guidance := if |story| < ShortStoryLength then Some(PromptGuidance()) else None;
      Response(HttpOk, Generated(story, modelName, prompt, guidance))
  }

  /** The prompt and model a request names, with the defaults for absent
      keys. */
  function RequestPrompt(request: RequestData): String {
    request.prompt.GetOr(DefaultPrompt)
  }

  function RequestModel(request: RequestData): String {
    request.model.GetOr(DefaultModel)
  }

  /** The response of the view, and the provider calls and sleeps behind
      it. */
  function HandlePost(request: RequestData, env: Environment, primary: Oracle, post: HttpPost): Exchange {
    var prompt := RequestPrompt(request);
    var modelName := RequestModel(request);
    if modelName !in ValidModels then Exchange(Response(HttpBadRequest, InvalidModel(InvalidModelMessage)), [])
    else
      var run := GenerateStory(prompt, DefaultMaxRetries, DefaultBackoffFactor, modelName, env.googleKey,
        primary, OpenAIFallback(), HuggingFaceFallback(env, post));
      Exchange(Respond(prompt, modelName, run.result), run.trace)
  }

  /** A response together with the events that led to it. */
  datatype Exchange = Exchange(response: Response, trace: seq<Event>)

  /** `StoryGenerateView.post`. */
  method Post(request: RequestData, env: Environment, primary: Oracle, post: HttpPost)
    returns (response: Response, trace: seq<Event>)
    ensures Exchange(response, trace) == HandlePost(request, env, primary, post)
  {
    var prompt := request.prompt.GetOr(DefaultPrompt);
    var modelName := request.model.GetOr(DefaultModel);
    if modelName !in ValidModels {
      return Response(HttpBadRequest, InvalidModel(InvalidModelMessage)), [];
    }
    var result;
    result, trace := GenerateStoryGemini(prompt, DefaultMaxRetries, DefaultBackoffFactor, modelName, env.googleKey,
      primary, OpenAIFallback(), HuggingFaceFallback(env, post));
    response := Respond(prompt, modelName, result);
  }
}
