# Story generation in the Indus AI backend, modelled in Dafny

The backend's one piece of real logic is the story-generation path in
`indus_ai_backend/api/views.py`. It has four parts:

1. **`neutralize_prompt`** rewrites sensitive terms in the user's prompt
   through an ordered replacement table, then strips the result.
2. **`get_safe_prompt_template`** wraps the neutralised prompt in four fixed
   preambles.
3. **`generate_story_gemini`** runs the attempts. Each attempt tries three
   Gemini models with the attempt's template, and a story must pass a quality
   gate. Between attempts it sleeps with exponential backoff. After the last
   attempt it asks two secondary providers, OpenAI and then Hugging Face.
4. **`StoryGenerateView.post`** (the second definition, which is the one in
   force) validates the model and turns the outcome into an HTTP response with
   guidance.

The providers are parameters:

- The primary provider is an oracle from (attempt, model, prompt text) to
  "raised with a message" or "returned a response".
- Each secondary provider is a function from the prompt to a `(story, error)`
  pair.
- The Hugging Face endpoint is a function from (key, inputs) to an HTTP reply.

Every provider call and every sleep is recorded, in order, in a trace of
events. The imperative parts are methods with the source's loops:
`NeutralizePrompt`, `TryCandidateModels` (the inner loop), `RetryAttempts`
(the outer loop), `GenerateStoryGemini` and `Post`. Each is proved to compute
exactly what a specification function computes:

- `Neutralized` for `NeutralizePrompt`
- `SweepModels` for `TryCandidateModels`
- `AttemptsFrom` for `RetryAttempts`
- `GenerateStory` for `GenerateStoryGemini`
- `HandlePost` for `Post`

The properties are lemmas about those specification functions.

Modules, one file each:

- `Wrappers`: `Option`.
- `Text`: `str.replace`, `str.strip`, `str.lower` and `in` on strings.
- `Prompts`: the neutraliser and the templates.
- `Providers`: story extraction, the quality gate, the keyword tests and the
  two fallbacks.
- `Orchestrator`: the retry loop.
- `OrchestratorProperties` and `GenerationProperties`: the loop's properties.
- `StoryView` and `ViewProperties`: the view and its properties.

Three behaviours of the code deserve note. The model follows the code in each
case:

- **The OpenAI fallback never produces a story.** The module never imports
  `openai`, so the first statement of `try_openai_fallback` raises NameError.
  The handler then returns no story (views.py:169, 187-189).
  `Providers.TryOpenAIFallback` models exactly that. The Hugging Face fallback
  therefore always runs when the Gemini attempts are exhausted.
- **Exhaustion is reported as a safety block (400), not as a server error
  (500).** The exhaustion message contains the word "safety" (views.py:301),
  and the view's keyword test matches it (views.py:353). With a key
  configured, no failure reaches the 500 branch. Only the missing-key error
  does.
- **`model_used` is the model the request named** (views.py:373), even when
  a fallback model or a secondary provider wrote the story.

The keyword tests in the inner loop (views.py:279-284) only choose between two
`continue` statements. Every exception leads to the next model either way.

## Model

| member | source | states |
|---|---|---|
| Text.Strip | indus_ai_backend/api/views.py:154 | `str.strip()`: the result is the slice of the input left after removing leading and trailing whitespace; only whitespace is removed, and the result neither starts nor ends with whitespace |
| Text.Lower | indus_ai_backend/api/views.py:279 | `str.lower()`, character by character: each character is lowered by the modelled mappings, so the length is kept (the one mapping that changes length is listed under Left out) |
| Text.LowerIdempotent | indus_ai_backend/api/views.py:279 | lower-casing an already lower-cased string changes nothing |
| Text.ReplaceAll | indus_ai_backend/api/views.py:152 | `s.replace(pat, rep)` (left-to-right, non-overlapping): replacing a non-empty pattern by itself is the identity, and a replacement of the same length keeps the length |
| Text.DecimalString | indus_ai_backend/api/views.py:211 | `str(status)` in the f-string: non-empty, a leading '-' exactly for negative numbers, then decimal digits without a leading zero that denote the number's absolute value |
| Text.ReplaceAllEliminates | indus_ai_backend/api/views.py:152 | after `s.replace(pat, rep)`, where neither string's first character occurs in the other, `pat` no longer occurs anywhere in the result |
| Text.ReplaceAllAbsent | indus_ai_backend/api/views.py:152 | `s.replace(pat, rep)` leaves a string without `pat` unchanged |
| Prompts.NeutralizePrompt | indus_ai_backend/api/views.py:138-154 | the loop's result is the table applied entry by entry, in declaration order, each entry to the previous output, and then stripped; it neither starts nor ends with whitespace |
| Prompts.ApplyReplacementsAppend | indus_ai_backend/api/views.py:150-152 | applying a table in two consecutive parts is the same as applying it whole |
| Prompts.PhraseEntryNeverFires | indus_ai_backend/api/views.py:140-152 | once "Indian" has become "South Asian", "Indian" no longer occurs, so the "traditional Indian" entry changes nothing |
| Prompts.NeutralizedWithoutPhraseEntry | indus_ai_backend/api/views.py:140-154 | the neutraliser gives the same result with the "traditional Indian" entry deleted from the table |
| Prompts.SafePromptTemplates | indus_ai_backend/api/views.py:156-164 | exactly four templates; template i is the i-th fixed preamble followed by the neutralised prompt |
| Prompts.TemplatesDistinct | indus_ai_backend/api/views.py:158-163 | any two of the four templates differ, whatever the prompt |
| Providers.ExtractStory | indus_ai_backend/api/views.py:259-268 | a non-empty `text` field gives its stripped text; otherwise there is a story exactly when the first candidate has a non-empty parts list, and it is that list's first part, stripped; either way it has no surrounding whitespace |
| Providers.AcceptedStory | indus_ai_backend/api/views.py:270-272 | a primary call yields a story exactly when it returned a response, a story could be extracted and that story is longer than 50 characters |
| Providers.TextFieldPreferred | indus_ai_backend/api/views.py:261-268 | when `text` is non-empty, the candidates have no influence on the extracted or the accepted story |
| Providers.MentionsSafetyFilter | indus_ai_backend/api/views.py:353 | the keyword test `any(keyword in text.lower() ...)`; a message shorter than the shortest keyword never matches |
| Providers.MentionsSafetyFilterIgnoresCase | indus_ai_backend/api/views.py:353 | the keyword test gives the same answer on a message and on its lower-cased form |
| Providers.MentionsNotFound | indus_ai_backend/api/views.py:283 | the test `"not found" in text.lower()`; it needs at least nine characters |
| Providers.TryOpenAIFallback | indus_ai_backend/api/views.py:166-189 | no truthy story, and an error message, for every prompt |
| Providers.TryHuggingFaceFallback | indus_ai_backend/api/views.py:191-215 | a story exactly when the key is set and the POST answers 200 with a non-empty JSON list; the story is then the first element's stripped `generated_text` (empty when that field is absent) and there is no error; every other outcome gives an error |
| Orchestrator.CandidateModels | indus_ai_backend/api/views.py:239 | three models, the requested one first |
| Orchestrator.TemplateIndex | indus_ai_backend/api/views.py:243 | the template index is within the template list and at most attempt - 1; it is exactly attempt - 1 while attempts do not outnumber the templates, and the last template's index from then on |
| Orchestrator.TemplateIndexMonotone | indus_ai_backend/api/views.py:241-243 | a later attempt never uses an earlier template |
| Orchestrator.BackoffDelay | indus_ai_backend/api/views.py:303 | the wait after the first attempt is the backoff factor itself, and a zero factor never waits |
| Orchestrator.BackoffDoubles | indus_ai_backend/api/views.py:303 | each further attempt waits twice as long as the one before |
| Orchestrator.SweepModelsShape | indus_ai_backend/api/views.py:245-284 | one attempt calls a prefix of the models in order with the attempt's template; every call but the last was rejected; it stops at the first accepted story, or after every model when none is accepted |
| Orchestrator.TryCandidateModels | indus_ai_backend/api/views.py:245-284 | the inner loop returns exactly the sweep's story and calls: the first accepted story, with every exception swallowed |
| Orchestrator.TryAlternativeProviders | indus_ai_backend/api/views.py:286-301 | OpenAI first, then Hugging Face only if OpenAI gave no truthy story, both on the neutralised prompt; otherwise the fixed exhaustion message |
| Orchestrator.RetryAttempts | indus_ai_backend/api/views.py:241-305 | the outer loop returns exactly the result and trace of the attempts specification, from attempt 1 |
| Orchestrator.GenerateStoryGemini | indus_ai_backend/api/views.py:217-307 | the method's result and trace equal the generation specification: a missing key, or fewer than one retry, fails at once; otherwise the attempts run |
| OrchestratorProperties.CallsFollowSchedule | indus_ai_backend/api/views.py:241-245 | every primary call is made on an attempt from the first to `max_retries`, to a candidate model, with that attempt's template; attempt numbers never go back along the trace |
| OrchestratorProperties.SleepsSeparateAttempts | indus_ai_backend/api/views.py:286-305 | every sleep comes right after the last model of a failed attempt k < `max_retries`, lasts `backoff_factor * 2^(k-1)` seconds and is followed by attempt k+1's first call; nothing sleeps after the final attempt |
| OrchestratorProperties.AcceptedCallEndsRun | indus_ai_backend/api/views.py:270-272 | an accepted primary call is the last event of the trace, and its story is the result |
| OrchestratorProperties.ExhaustionRunsEveryCall | indus_ai_backend/api/views.py:241-301 | when no primary call is accepted, every model is called on every attempt, with the backoff sleeps between attempts, and then the secondary providers decide |
| OrchestratorProperties.SuccessEndsOnPrimaryCall | indus_ai_backend/api/views.py:270-298 | when some primary call is accepted, the trace ends with it, its story is the result and no secondary provider is called |
| OrchestratorProperties.PrimaryCallBound | indus_ai_backend/api/views.py:239-284 | from attempt a on, at most (`max_retries` - a + 1) × (number of models) primary calls |
| OrchestratorProperties.SweepDependsOnlyOnAcceptance | indus_ai_backend/api/views.py:274-284 | two primary providers whose calls are accepted with the same stories give the same sweep; exception texts never steer the loop |
| GenerationProperties.PrimaryCallBudget | indus_ai_backend/api/views.py:217-307 | with no key or `max_retries < 1`, no call and no sleep; otherwise at most `max_retries × 3` primary calls |
| GenerationProperties.FailureMessages | indus_ai_backend/api/views.py:219-307 | fails with the missing-key message exactly when the key is missing; fails with "Maximum retries exceeded" exactly when a key is set and `max_retries < 1`; any other failure is the exhaustion message, after calls to OpenAI and then Hugging Face with the neutralised prompt |
| GenerationProperties.FallbacksOnlyAfterExhaustion | indus_ai_backend/api/views.py:286-301 | the secondary providers run exactly when no primary call on any attempt was accepted, after the full schedule; otherwise the result is the story of the trace's last event, an accepted primary call, and no fallback was called |
| GenerationProperties.ExhaustedScheduleOfThree | indus_ai_backend/api/views.py:241-305 | with three attempts and backoff factor 1, the exhausted schedule is three models on templates 1, 2 and 3, with sleeps of 1 and 2 seconds between them |
| GenerationProperties.DefaultScheduleWhenAllRejected | indus_ai_backend/api/views.py:217-305 | with the default arguments and every primary call rejected, the trace is that schedule followed by the secondary providers' calls |
| GenerationProperties.LastTemplateUnusedByDefault | indus_ai_backend/api/views.py:241-243 | with the default `max_retries = 3`, the fourth template is never sent |
| GenerationProperties.StoriesAreNonEmpty | indus_ai_backend/api/views.py:270-298 | every returned story is non-empty |
| StoryView.PromptGuidance | indus_ai_backend/api/views.py:309-329 | three example prompts, four things to avoid and four tips |
| StoryView.Respond | indus_ai_backend/api/views.py:349-376 | 200 exactly for a story, echoing the story, the requested model and the prompt, with `get_prompt_guidance()` exactly when the story is under 100 characters; for an error containing a safety keyword, 400 with the safety-block error and message, the guidance and `alternative_providers_tried` true; for any other error, 500 with "Generation failed: " and the error, the guidance and the three suggestions |
| StoryView.Post | indus_ai_backend/api/views.py:331-376 | the view's response and the provider calls and sleeps behind it are exactly those of the view's specification |
| ViewProperties.InvalidModelRejected | indus_ai_backend/api/views.py:337-345 | a model outside the allow-list, and only such a model, gets the 400 invalid-model answer, before any provider call |
| ViewProperties.StatusClassification | indus_ai_backend/api/views.py:349-376 | 200 exactly for a story; 400 exactly for an error naming "safety", "blocked" or "filter" in any case; 500 exactly for any other error |
| ViewProperties.SuccessEchoesRequest | indus_ai_backend/api/views.py:371-376 | a 200 answer carries a non-empty story, the requested model as `model_used` and the prompt as sent; it carries guidance exactly when the story is shorter than 100 characters |
| ViewProperties.MentionsNoSafetyWithout | indus_ai_backend/api/views.py:353 | text without 'f' and without 'c', in either case, names none of the three keywords |
| ViewProperties.ExhaustedMessageMentionsSafety | indus_ai_backend/api/views.py:301 | the exhaustion message passes the safety-keyword test |
| ViewProperties.MissingKeyMessageMentionsNoSafety | indus_ai_backend/api/views.py:221 | the missing-key message does not pass the safety-keyword test |
| ViewProperties.OpenAIFallbackNeverWins | indus_ai_backend/api/views.py:290-301 | with the OpenAI fallback as written, both fallbacks are always called on the same prompt, and Hugging Face alone decides the outcome |
| ViewProperties.ServerErrorIffKeyMissing | indus_ai_backend/api/views.py:347-369 | for a valid model the answer is 500 exactly when the Google key is missing; no provider is then called and the error is "Generation failed: " and the missing-key message |
| ViewProperties.ExhaustedWhenEveryProviderFails | indus_ai_backend/api/views.py:217-301 | with the view's arguments, every primary call rejected and no Hugging Face story: nine primary calls over three templates, sleeps of 1 and 2 seconds, both fallbacks, then the exhaustion message |
| ViewProperties.BlockedWhenEveryProviderFails | indus_ai_backend/api/views.py:331-359 | in that situation the client receives the 400 safety-block answer with guidance and `alternative_providers_tried` |
| ViewProperties.ImmediateSuccess | indus_ai_backend/api/views.py:347-376 | when the first call is accepted, it is the only event and its story is answered with 200 |

## Left out

- The Firestore CRUD views, the template views and the first
  `StoryGenerateView`, which the second definition overrides. They pass data
  through to a document store or a template with no logic of their own.
  `urls.py` (routing) and `firestore_client.py` (client construction) are not
  part of this model either.
- Provider I/O: `genai.configure`, `generate_content`, the call after the
  NameError in `try_openai_fallback`, and `requests.post`. Each provider is a
  parameter. The safety settings and generation configuration only parametrise
  the real call, so they are left out.
- Logging has no effect on results and is left out. `time.sleep` is recorded
  as a `Sleep` event with its duration; its wall-clock effect is left out.
- Environment reads: the Google and Hugging Face keys are parameters.
  `OPENAI_API_KEY` is read (the right-hand side of the assignment at
  views.py:169 is evaluated first), but the read has no effect, because the
  assignment then raises NameError. It is not modelled.
- The `max_tokens` argument of `try_openai_fallback` is never used, because
  the function fails before the call.
- Orchestrator.BackoffDelay: the backoff factor is a natural number, as every
  caller passes one. A fractional factor is not modelled.
- Text.Lower: only A-Z and KELVIN SIGN (to 'k') are lowered; every other
  character is kept. Python also lowers LATIN CAPITAL LETTER I WITH DOT ABOVE
  (U+0130) to an ASCII 'i' followed by COMBINING DOT ABOVE, which lengthens
  the string; the model keeps U+0130 as it is. No keyword test changes
  through this: the combining dot always follows that 'i', and "filter", the
  only keyword with an 'i', needs an 'l' there. Other cased characters are
  lowered by Python to non-ASCII characters, which no keyword contains.
- Request fields are strings or absent. JSON numbers, lists and objects as
  `prompt` or `model` are not modelled.
- Providers.TryHuggingFaceFallback: a list element that is not a JSON object
  (where `.get` raises), and a non-string `generated_text`, are not modelled.
- A `response.text` that raises on access (as the Gemini client does for
  blocked responses) is the oracle's "raised" outcome. The model does not
  separate the raise from the call.
- The primary provider is a function of (attempt, model, prompt text), so
  two calls with the same arguments get the same outcome. When the request
  names "gemini-1.5-pro" or "gemini-1.0-pro", views.py:239 lists that model
  twice and each attempt calls it twice with the same template; a real call
  sampled at temperature 0.7 may answer differently the second time, which
  the model does not capture. No proved property depends on the two outcomes
  being equal.
- The exception messages of real failures (`str(e)`) are parameters. The
  model does not fix their wording.
- The HTTP response objects are modelled as a status and a body datatype.
  Serialisation is left out.
