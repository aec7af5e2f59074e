# Email assistant: prompt builder and generation endpoint

This project models the server side of a small email-writing web application.
The repository's endpoint, `pages/api/generate-email.js`, takes a user's
unstructured thoughts, a tone and an optional email being replied to. It
builds one instruction prompt from them and forwards it to one of three hosted
language models (OpenAI, Anthropic or Cohere), chosen by configuration. It
then answers with the generated email body or with an error.

The model is written as pure functions over values, because that is how the
source works. There are no loops and no in-place updates. Each request is one
evaluation of a chain of early returns.

- `JsStrings` (js_strings.dfy) holds the JavaScript behaviour the endpoint
  relies on. It has optional strings and their truthiness, `a || b`,
  `String.prototype.trim` (ECMAScript WhiteSpace and LineTerminator code
  points), the decimal rendering of an integer in a template literal, and
  substring predicates.
- `Prompt` (prompt.dfy) is `createPrompt`. It has the six-entry tone table and
  its `'professional'` fallback. The template literal is split into its fixed
  pieces and the values spliced between them.
- `PromptAsWritten` (prompt.dfy) is the tone lookup as the code writes it,
  including the prototype chain (see Findings).
- `Providers` (providers.dfy) holds the three `generateWith*` adapters, which
  behave the same way. An adapter checks its key, sends one request, turns a
  non-OK status into `"<Name> API error: <status> - <text>"`, and trims the
  generated text. The network is a parameter: a function from the request an
  adapter makes (provider, key, prompt) to what comes back. That can be a
  rejection, or a status with the response text and the extracted
  generated-text field. Each of those two reads can also be an error message:
  for a response text that cannot be read, or a body without that field.
- `Handler` (handler.dfy) is `handler`. It maps a request and the
  configuration (provider setting and the three keys, each possibly unset) to
  a status, a JSON body, the adapters invoked and the requests sent.

The code rejects any falsy field: an absent field, `null` or `''` gets 400,
while white space alone passes. The model does the same.

The prompt, the adapters and the handler are built on the table-only tone
lookup, `Prompt.ToneDescription`. The lookup as the code writes it differs
for names inherited from `Object.prototype` (see Findings and Left out).

## Model

| member | source | states |
|---|---|---|
| `JsStrings.OrElse` | pages/api/generate-email.js:15 | `a \|\| b` on an optional string is one of its operands, and it is truthy exactly when an operand is, so `AI_PROVIDER \|\| 'anthropic'` is never empty |
| `JsStrings.Trim` | pages/api/generate-email.js:83 | the result has no white space at either end and is the middle of the input between an all-white-space prefix and suffix |
| `JsStrings.TrimOfPadded` | pages/api/generate-email.js:119 | trim is determined by those properties: white space + untrimmable middle + white space trims to exactly the middle |
| `JsStrings.TrimIdempotent` | pages/api/generate-email.js:151 | trimming the trimmed text changes nothing |
| `JsStrings.TrimOfTrimmed` | pages/api/generate-email.js:151 | text with no white space at its ends is returned unchanged |
| `JsStrings.NatToString` | pages/api/generate-email.js:79 | `${response.status}` is a non-empty digit string with no leading zero unless the status is 0 |
| `JsStrings.DecimalRoundTrip` | pages/api/generate-email.js:79 | reading the rendered status back as a decimal number gives the status |
| `Prompt.ToneDescription` | pages/api/generate-email.js:155-164 | a known tone gets its table entry, any other tone the literal `'professional'`; the description is never empty |
| `Prompt.KnownTones` | pages/api/generate-email.js:155-162 | the table's tones are exactly professional, warm, concise, formal, casual and persuasive |
| `Prompt.DescriptionIdentifiesTone` | pages/api/generate-email.js:155-164 | the description is the fallback exactly for unknown tones, and no two known tones share a description |
| `Prompt.CreatePrompt` | pages/api/generate-email.js:154-182 | the prompt opens with the tone sentence (label and description) and ends with the fixed closing instruction |
| `Prompt.PromptContainsThoughts` | pages/api/generate-email.js:168 | the prompt contains `"What I want to communicate: "` followed by the thoughts verbatim |
| `Prompt.PromptNamesToneTwice` | pages/api/generate-email.js:166-175 | the raw tone label is in the opening sentence and in instruction 3 |
| `Prompt.PromptContextSlot` | pages/api/generate-email.js:170 | after the thoughts' paragraph the prompt starts with `"Context - I'm replying to this email: "` exactly when the reply context is truthy, then holds the context verbatim; otherwise that line is empty |
| `Prompt.ContextOnlyInsertsItsLine` | pages/api/generate-email.js:166-179 | a truthy reply context only inserts its line into the prompt built without one; a falsy one leaves that prompt unchanged |
| `PromptAsWritten.InheritedMember` | pages/api/generate-email.js:164 | each name an object literal inherits from `Object.prototype` renders as a non-empty, so truthy, text |
| `PromptAsWritten.ToneDescriptionAsWritten` | pages/api/generate-email.js:155-164 | the lookup as written: a table tone gets its entry, an inherited name its rendered member, any other tone `'professional'`; never empty |
| `PromptAsWritten.AsWrittenAgreesOffThePrototype` | pages/api/generate-email.js:164 | the as-written lookup equals the table-only lookup except on inherited names, where it never falls back |
| `PromptAsWritten.ConstructorToneEscapesFallback` | pages/api/generate-email.js:164 | the unknown tone `constructor` gets the rendering of `Object` instead of `'professional'` |
| `Providers.Generate` | pages/api/generate-email.js:46-152 | a request goes out, at most once, exactly when the key is truthy, and it carries `createPrompt`'s output; a missing key throws `"<Name> API key not configured"`; a rejected request, an unreadable response text on a non-OK status or an unreadable text field throws its own message unchanged; a non-OK status with readable text throws the status-error message; a result is trimmed |
| `Providers.KeyMissingMessage` | pages/api/generate-email.js:48-50 | the missing-key message begins with the provider's name and `" API "` and ends with `"key not configured"` |
| `Providers.KeyMissingIsNotUpstreamError` | pages/api/generate-email.js:88-90 | a missing-key message never reads back as a status-error message |
| `Providers.UpstreamError.Message` | pages/api/generate-email.js:113-116 | the status-error message begins with `"<Name> API error: "`, holds the rendered status followed by `" - "` and the response text, and ends with them |
| `Providers.UpstreamErrorRoundTrip` | pages/api/generate-email.js:77-80 | `"<Name> API error: <status> - <text>"` reads back to the same provider, status and text |
| `Providers.GenerateSucceedsOnOkResponse` | pages/api/generate-email.js:113-119 | an adapter succeeds exactly when the key is set and the response is OK with a readable text field, and it returns that field with only its surrounding white space removed |
| `Providers.GenerateReportsStatus` | pages/api/generate-email.js:145-148 | a non-OK status throws the status-error message for that provider, status and text, which reads back; if `response.text()` fails, its error is thrown instead |
| `Providers.AdaptersSendTheSamePrompt` | pages/api/generate-email.js:52-128 | any two adapters with keys send the same prompt, `createPrompt`'s output, for the same inputs |
| `Handler.SelectProvider` | pages/api/generate-email.js:25-33 | the selected provider is the one whose setting equals `AI_PROVIDER \|\| 'anthropic'`; when none matches, the error is `'Invalid AI provider configured'` |
| `Handler.SettingSelectsItsProvider` | pages/api/generate-email.js:15 | `openai`, `anthropic` and `cohere` each select their own provider; an unset or empty setting selects Anthropic |
| `Handler.Handle` | pages/api/generate-email.js:3-44 | the status is 200, 400, 405 or 500; 200 carries an email with no white space at its ends, 500 carries `'Failed to generate email'` and details; at most one adapter runs, and none for 400 or 405 |
| `Handler.NonPostIsNotAllowed` | pages/api/generate-email.js:4-6 | 405 exactly for a non-POST method, with `'Method not allowed'`, and no adapter runs |
| `Handler.MissingFieldIsRejected` | pages/api/generate-email.js:10-12 | 400 exactly for a POST whose thoughts or tone is absent or empty, with `'Missing required fields'`, and no adapter runs |
| `Handler.WhiteSpaceThoughtsPass` | pages/api/generate-email.js:10 | thoughts made only of white space are not rejected |
| `Handler.SelectedAdapterRunsOnce` | pages/api/generate-email.js:25-30 | an accepted request runs the selected provider's adapter and no other, exactly once; every request sent goes to that provider with the prompt built from the request |
| `Handler.InvalidProviderFails` | pages/api/generate-email.js:31-42 | an unknown provider setting gives 500 with details `'Invalid AI provider configured'` and runs no adapter |
| `Handler.AdapterOutcomeIsForwarded` | pages/api/generate-email.js:35-42 | the adapter's text becomes a 200 email, and its thrown message becomes the 500 details verbatim |
| `Handler.MissingKeyFails` | pages/api/generate-email.js:48-50 | a missing key for the selected provider gives 500 with `"<Name> API key not configured"` and sends nothing |
| `Handler.UpstreamStatusFails` | pages/api/generate-email.js:36-42 | a non-OK upstream status gives 500 whose details are the status-error message, which reads back to provider, status and text; if the upstream text cannot be read, the details are that read's error |
| `Handler.SuccessIsTheTrimmedText` | pages/api/generate-email.js:35 | 200 exactly when an accepted request reaches a configured provider that answers OK with a readable text field; the email is that field trimmed |

## Left out

- pages/index.js is not part of this model. It is the React page: form state, styling, clipboard copy, a timed reset and the browser-side `fetch`.
- The outbound HTTPS calls are not modelled. Their URLs, headers and JSON request bodies (model names, `max_tokens`, `temperature`, stop sequences, system message) are network I/O. The `Network` parameter stands for them.
- Environment variables are not read. `AI_PROVIDER` and the three API keys are fields of `Config`.
- The `console.log` and `console.error` calls are left out. They are logging with no effect on the response.
- Parsing the providers' JSON responses is left out. So is the `TypeError` when `choices[0]`, `content[0]` or `generations[0]` is missing. Both appear only as the `Err(message)` the network can return in place of the generated text.
- `async`/`await` is left out. Each request is one sequential evaluation.
- Request fields that are not strings are left out: numbers, booleans, objects and arrays, with their own truthiness and template-literal rendering. An absent field and `null` are both `None`.
- A missing `req.body` is left out. Destructuring it throws outside the `try`, and the framework would then answer.
- JavaScript strings are UTF-16 and Dafny's `char` is a Unicode scalar value. Every character `trim` removes is a single UTF-16 unit, so trimming is the same, but lone surrogates cannot be represented.
- `Prompt.CreatePrompt`, and through it `Providers.Generate` and `Handler.Handle`, use the corrected table-only tone lookup. For a tone that names an inherited `Object.prototype` member (`constructor`, `toString`, `__proto__`, …) the code sends that member's rendering as the description, for instance `… tone (function Object() { [native code] }). …`, where the model sends `… tone (professional). …`. The as-written lookup is `PromptAsWritten.ToneDescriptionAsWritten`; the prompt and handler are not also modelled on top of it.
- `PromptAsWritten.InheritedMember`: the rendered texts of inherited functions are V8's (`function name() { [native code] }`). Other engines may render them differently, but they are non-empty in all of them.

## Findings

| source | as written | input that shows it | evidently intended | confidence | as-written member | corrected member |
|---|---|---|---|---|---|---|
| pages/api/generate-email.js:164 | `toneDescriptions[tone] \|\| 'professional'` also finds members inherited from `Object.prototype`, which are truthy | tone `"constructor"` (likewise `"toString"`, `"__proto__"`, …) gets `function Object() { [native code] }` as its description | every tone outside the six gets the `'professional'` fallback | not executed | `PromptAsWritten.ConstructorToneEscapesFallback` | `Prompt.ToneDescription` |
