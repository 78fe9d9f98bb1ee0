# Provider registry and Gemini adapter of raycast-g4f, in Dafny

This project models the chat-provider core of the raycast-g4f extension in Dafny.

**The provider registry** (`src/api/providers.jsx`, module `Providers`) covers:

- the static table of 18 providers (`providers_info`);
- the dropdown list of user-facing names (`chat_providers`);
- the capability lists;
- the resolution of a selection key, which falls back to the default key from the preferences;
- `provider_options`, which turns the user's creativity setting into a temperature with `Math.max(0.0, parseFloat(c)).toFixed(1)`.

Module `JsNumber` models the JavaScript number operations this relies on. Finite numbers are exact reals, and there are separate NaN and ±Infinity values.

**The Google Gemini adapter** (`src/api/Providers/google_gemini.jsx`) has two parts.

`GeminiFormatChat` (module `GeminiChat`):

- turns each chat message into a Gemini message with role `user` or `model`;
- turns files into `{ filePath, buffer }` uploads and hands them to the library's parts builder;
- then pops the last message off as the query.

`getGoogleGeminiResponse` (module `GeminiResponse`):

- splits the comma-separated key preference and trims each key (module `JsString` models `split` and `trim`);
- tries the keys in order. A key whose `ask` throws is skipped, and the first answer ends the call.
- In stream mode it hands the running response to the stream callback after every chunk and returns `undefined`.
- An error while setting up a key (creating the client, formatting the chat, creating the chat) abandons the loop and restarts the whole call while `max_retries` is positive. Its default is 3. Otherwise the error is rethrown.

Both operations are written the way the source works: as methods with loops over mutable state.

- The stream callback is a `StreamSink` object whose `updates` field records every call.
- Each method is proved against a specification function:
  - `FormatChat` for the formatter;
  - `KeyLoop` and `UpdatesOfFirst` for the key loop;
  - `Response` for the whole call.
- The lemmas then prove what the source promises about those functions.
- `Response` recurses through `Retrying`, which is the retry protocol on its own, for any pass over the keys.

The Gemini library, the file system and the preferences are supplied as parameters:

- `Backend` holds whether `new Gemini` succeeds, the formatter's `Environment`, whether `createChat` succeeds, and what `ask` delivers, with a stream handler (line 40) or without one (line 43).
- `Environment` holds `fs.readFileSync` and `messageToParts`.
- A `Client` value names the key, its position and the retries left. The library may behave differently for every key on every attempt.

Where the code and its comment at `google_gemini.jsx:51` disagree, the model follows the code:

- **Every `ask` fails.** The comment says a few retries are allowed "if all API keys fail". But when all keys are set up and every `ask` fails, the loop simply ends, and the function returns `undefined` without retrying (`EveryAskFailingReturnsNothing`).
- **Setup errors.** Only errors from setting up a key (lines 22-30) reach the outer `catch` and cause a retry. Errors from `ask` are swallowed per key (lines 46-48).
- **Missing key preference.** Reading and splitting the key preference (lines 17-18) happens before the `try`. An unset preference (`undefined.split`) therefore throws at once without a retry (`MissingKeyPreference`).

## Model

| member | source | states |
|---|---|---|
| Providers.ChatKeysAreRegistered | src/api/providers.jsx:39-80 | every dropdown entry selects a key of `providers_info` |
| Providers.RegisteredKeysAreListed | src/api/providers.jsx:39-80 | every key of `providers_info` is offered by some dropdown entry |
| Providers.ChatKeysAreDistinct | src/api/providers.jsx:61-80 | no key is offered twice in the dropdown |
| Providers.ChatProvidersMatchRegistry | src/api/providers.jsx:39-80 | the dropdown and the registry both have exactly 18 keys |
| Providers.OnlyGpt4IsNotStreamed | src/api/providers.jsx:39-58 | `GPT4` is registered and is the only entry whose `stream` is false |
| Providers.CapabilityLists | src/api/providers.jsx:87-105 | Gemini is the only adapter with file uploads and the only one with custom stream handling; DeepInfra is the only one with function calling |
| Providers.OnlyGoogleGeminiTakesFiles | src/api/providers.jsx:39-87 | `GoogleGemini` is the only registry entry whose adapter supports files |
| Providers.GetProviderString | src/api/providers.jsx:112-115 | a registered selection is kept; an absent, empty or unknown one gives the default key; the result is registered iff the selection or the default is |
| Providers.ResolvedKeyIsStable | src/api/providers.jsx:112-115 | with a registered default, the resolved key is registered and resolves to itself |
| Providers.GetProviderInfo | src/api/providers.jsx:119-121 | the registry entry of the selection when it is registered, otherwise that of the default key, and `undefined` when the default has no own entry either |
| Providers.CreativityTemperature | src/api/providers.jsx:96-98 | the temperature text is non-empty and never starts with a minus sign |
| Providers.ProviderOptions | src/api/providers.jsx:93-101 | empty iff there are no chat options or the creativity is absent or empty; otherwise exactly the key `temperature`, never negative |
| Providers.TemperatureIsClampedRounding | src/api/providers.jsx:95-98 | for a creativity that parses to v, the temperature is the tenths numeral of max(0, v) rounded, and reads back within 0.05 of max(0, v) |
| Providers.NegativeCreativityIsClamped | src/api/providers.jsx:93-101 | creativity "-1" gives `{ temperature: "0.0" }` |
| Providers.CreativityIsRounded | src/api/providers.jsx:93-101 | creativity "0.73" gives `{ temperature: "0.7" }` |
| Providers.OptionsIgnoreProvider | src/api/providers.jsx:93-101 | the options are the same whichever provider is asked for |
| Providers.ParseMinusOne | src/api/providers.jsx:96 | `parseFloat("-1")` is -1 |
| Providers.ParseZeroPointSevenThree | src/api/providers.jsx:96 | `parseFloat("0.73")` is 0.73 |
| JsNumber.MaxWithZero | src/api/providers.jsx:97 | `Math.max(0.0, x)`: NaN iff x is NaN; x itself when x is a non-negative number or +Infinity; zero when x is negative or −Infinity |
| JsNumber.ParseFloat | src/api/providers.jsx:96 | definition of `parseFloat`; characterised by `IntegerNumeralValue`, `DecimalNumeralValue`, `LeadingDigitsAreRead`, `NegativeNumeral` and `TenthsRoundTrip` |
| JsNumber.ToFixed1 | src/api/providers.jsx:97 | definition of `toFixed(1)`; characterised by `FixedIsRounding` |
| JsNumber.RoundToTenths | src/api/providers.jsx:97 | the number of tenths within half a tenth of x, with ties going up |
| JsNumber.DecimalRoundTrip | src/api/providers.jsx:97 | reading back the decimal numeral of n gives n |
| JsNumber.TenthsRoundTrip | src/api/providers.jsx:97 | `parseFloat` reads a one-decimal numeral back as exactly its number of tenths |
| JsNumber.FixedIsRounding | src/api/providers.jsx:97 | `toFixed(1)` of a non-negative value prints its rounded tenths, which `parseFloat` reads back within 0.05 |
| JsNumber.DecimalNumeralValue | src/api/providers.jsx:96 | `parseFloat` reads a numeral `whole.frac` as exactly its decimal value |
| JsNumber.IntegerNumeralValue | src/api/providers.jsx:96 | `parseFloat` reads a string of digits as its value |
| JsNumber.LeadingDigitsAreRead | src/api/providers.jsx:96 | `parseFloat` reads the leading digit run and continues with what follows it |
| JsNumber.NegativeNumeral | src/api/providers.jsx:96 | a leading minus sign negates the parse of a numeral that starts with a digit |
| JsString.SplitOnComma | src/api/Providers/google_gemini.jsx:18 | `split(",")` gives one more piece than there are commas; no piece contains a comma; joining the pieces with commas gives the input back |
| JsString.SplitAtFirstComma | src/api/Providers/google_gemini.jsx:18 | the text before the first comma is the first piece, and the rest is split after it |
| JsString.SplitWithoutComma | src/api/Providers/google_gemini.jsx:18 | a string without commas splits into itself alone |
| JsString.TrimStart | src/api/Providers/google_gemini.jsx:18 | drops exactly the leading whitespace: the result is a suffix of the input, everything dropped is whitespace, and it does not start with whitespace |
| JsString.TrimEnd | src/api/Providers/google_gemini.jsx:18 | drops exactly the trailing whitespace: the result is a prefix of the input, everything dropped is whitespace, and it does not end with whitespace |
| JsString.Trim | src/api/Providers/google_gemini.jsx:18 | definition of `trim`; characterised by `TrimStart`, `TrimEnd`, `TrimKeepsMiddle` and `TrimIdempotent` |
| JsString.TrimKeepsMiddle | src/api/Providers/google_gemini.jsx:18 | `trim` gives a slice `s[lo..hi]` of the input: everything before and after it is whitespace, and neither end of it is whitespace |
| JsString.TrimmedPiece | src/api/Providers/google_gemini.jsx:18 | trimming a comma-free piece gives a comma-free key with no whitespace at either end |
| JsString.TrimIdempotent | src/api/Providers/google_gemini.jsx:18 | `trim` applied twice is `trim` applied once |
| GeminiResponse.ParseKeys | src/api/Providers/google_gemini.jsx:17-18 | there is one key more than there are commas in the preference; their contents are given by `ParsedKeyIsMiddleOfPiece`, and `ParseKeysExample` gives an instance |
| GeminiResponse.ParsedKeyIsMiddleOfPiece | src/api/Providers/google_gemini.jsx:18 | key k is the k-th comma-separated piece with exactly its leading and trailing whitespace removed: a slice of the piece with only whitespace outside it and none at its ends |
| GeminiResponse.ParseThreeKeys | src/api/Providers/google_gemini.jsx:18 | three comma-free fields joined by commas give their three trimmed values, in order |
| GeminiResponse.ParseKeysOfSpelling | src/api/Providers/google_gemini.jsx:18 | a preference spelt `a, b ,c` character by character gives the keys `a`, `b` and `c` |
| GeminiResponse.ParseKeysExample | src/api/Providers/google_gemini.jsx:18 | the preference `"a, b ,c"` gives the keys `["a", "b", "c"]` |
| GeminiResponse.ParsedKeysAreTrimmed | src/api/Providers/google_gemini.jsx:18 | every key is free of commas and neither starts nor ends with whitespace |
| GeminiChat.GeminiRole | src/api/Providers/google_gemini.jsx:70 | the role is user iff the message role is "user", and model for every other role |
| GeminiChat.MessageParts | src/api/Providers/google_gemini.jsx:78-89 | definition of one message's parts; characterised by `TextOnlyMessage`, `UploadsInFileOrder` and `FilesGoToPartsBuilder` |
| GeminiChat.FormatChat | src/api/Providers/google_gemini.jsx:65-97 | definition of the formatted chat; characterised by `FormatAllPointwise`, `FormatAllFirstError`, `HistoryAndQuery` and `EmptyChat` |
| GeminiChat.GeminiFormatChat | src/api/Providers/google_gemini.jsx:65-97 | the push loop and the final pop compute `FormatChat`: the formatted history and the query, or the first read or builder error |
| GeminiChat.FailureIsKept | src/api/Providers/google_gemini.jsx:68-92 | once a message fails to format, the whole formatting fails with that error |
| GeminiChat.ReadFailureIsKept | src/api/Providers/google_gemini.jsx:81-85 | once a file cannot be read, reading all of the message's files fails with that error |
| GeminiChat.FormatAllPointwise | src/api/Providers/google_gemini.jsx:68-92 | formatting succeeds iff every message formats; the result then has one message per input, in input order |
| GeminiChat.FormatAllFirstError | src/api/Providers/google_gemini.jsx:68-92 | a failed formatting reports the error of the first message that fails |
| GeminiChat.HistoryAndQuery | src/api/Providers/google_gemini.jsx:94-96 | for N ≥ 1 messages the history is the first N−1 formatted messages in order, and the query is the N-th |
| GeminiChat.EmptyChat | src/api/Providers/google_gemini.jsx:94-96 | an empty chat gives an empty history and an `undefined` query |
| GeminiChat.TextOnlyMessage | src/api/Providers/google_gemini.jsx:87-90 | a message with no files, or an empty file list, becomes one `{ text }` part under its role |
| GeminiChat.UploadsInFileOrder | src/api/Providers/google_gemini.jsx:81-85 | reading succeeds iff every file can be read, and then pairs each path with its bytes, in file order |
| GeminiChat.FilesGoToPartsBuilder | src/api/Providers/google_gemini.jsx:79-86 | a message with files hands its content and then its uploads in file order to the parts builder, and its parts are the builder's result or its error |
| GeminiResponse.ChatSetup | src/api/Providers/google_gemini.jsx:22-30 | definition of setting up one key; characterised by `RejectedFirstKey` and `LoopNeverMissesKeys` |
| GeminiResponse.TryKey | src/api/Providers/google_gemini.jsx:22-48 | definition of one key's turn: its setup error, its failed `ask`, or its answer; characterised by `AttemptKey` and the key-loop lemmas |
| GeminiResponse.SetUpChat | src/api/Providers/google_gemini.jsx:22-30 | creates the client, formats the chat and creates the chat, failing with the first step that fails (`ChatSetup`) |
| GeminiResponse.StreamSink.constructor | src/api/Providers/google_gemini.jsx:16 | a new stream callback has received nothing |
| GeminiResponse.StreamSink.Update | src/api/Providers/google_gemini.jsx:38 | each call is appended to the recorded updates |
| GeminiResponse.DeliverChunks | src/api/Providers/google_gemini.jsx:34-40 | the handler's response is all the chunks joined, and the sink receives the running response after every chunk |
| GeminiResponse.RunningPrefixes | src/api/Providers/google_gemini.jsx:36-39 | one sink update per chunk |
| GeminiResponse.RunningPrefixesAccumulate | src/api/Providers/google_gemini.jsx:36-39 | update k is the first k+1 chunks joined |
| GeminiResponse.StreamUpdatesGrow | src/api/Providers/google_gemini.jsx:36-40 | each update extends the previous one by the next chunk; the first update is the first chunk and the last is the whole response |
| GeminiResponse.AttemptKey | src/api/Providers/google_gemini.jsx:22-45 | one key: its result is the key's `TryKey` result; an answer returns the joined chunks; the sink receives that key's running responses |
| GeminiResponse.KeyLoop | src/api/Providers/google_gemini.jsx:21-49 | the loop tries at least the keys it starts from and no more than there are |
| GeminiResponse.DecidingKeyEndsLoop | src/api/Providers/google_gemini.jsx:21-49 | when key k is the first key from i on whose `ask` does not throw, the loop stops after key k, with its answer or its setup error |
| GeminiResponse.KeyLoopExits | src/api/Providers/google_gemini.jsx:21-49 | the loop runs out of keys iff every remaining `ask` throws, after trying them all; otherwise the last key tried decides |
| GeminiResponse.UpdatesRestartPerKey | src/api/Providers/google_gemini.jsx:34-39 | the running response starts again for every key: a key's first update is its own first chunk |
| GeminiResponse.StreamedTextIsLastUpdate | src/api/Providers/google_gemini.jsx:35-41 | when a streamed answer is non-empty, the last update the sink receives is the whole answer |
| GeminiResponse.TryKeys | src/api/Providers/google_gemini.jsx:21-49 | the `for` loop computes `KeyLoop`'s exit, and the sink receives the updates of every key tried, in order |
| GeminiResponse.GetGoogleGeminiResponse | src/api/Providers/google_gemini.jsx:16-59 | the recursive function computes `Response`: its outcome, and every update the sink receives across all attempts |
| GeminiResponse.Retrying | src/api/Providers/google_gemini.jsx:50-57 | definition of the retry protocol for any pass over the keys; characterised by `RetryingEnds`, `RetryingOfEscapes`, `RetryingReturns`, `StreamedRetryingReturnsNothing` and `RetryingStreamAndPlainAgree` |
| GeminiResponse.Response | src/api/Providers/google_gemini.jsx:16-59 | definition of a whole call; characterised by `GetGoogleGeminiResponse` and the lemmas below |
| GeminiResponse.RetryingEnds | src/api/Providers/google_gemini.jsx:50-57 | a call makes between 1 and retries+1 passes, and throws only after the pass made with no retries left, with that pass's setup error |
| GeminiResponse.RetryingOfEscapes | src/api/Providers/google_gemini.jsx:50-57 | passes that all fail to set up with the same error throw that error after retries+1 passes |
| GeminiResponse.StreamedRetryingReturnsNothing | src/api/Providers/google_gemini.jsx:35-57 | with a stream callback a call never returns text, after any number of retries |
| GeminiResponse.RetryingReturns | src/api/Providers/google_gemini.jsx:21-57 | a call that returns does so from the first pass, counting down the retries left, that does not escape with a setup error; every pass before it escaped, the attempts are those passes plus one, and the call returns that pass's answer, or `undefined` when streaming or when its keys ran out |
| GeminiResponse.RetryingStreamAndPlainAgree | src/api/Providers/google_gemini.jsx:35-57 | when every streamed pass ends alike with the plain pass made with the same retries left, streaming changes neither the number of passes nor the error thrown; without streaming there are no updates, and with streaming nothing is returned |
| GeminiResponse.AttemptsAreBounded | src/api/Providers/google_gemini.jsx:50-57 | every call makes at least 1 and at most `max_retries` + 1 attempts |
| GeminiResponse.LoopNeverMissesKeys | src/api/Providers/google_gemini.jsx:21-49 | the key loop never escapes with the missing-preference error |
| GeminiResponse.ThrowsOnlyAfterEveryRetry | src/api/Providers/google_gemini.jsx:16-58 | the missing-preference error is thrown iff no preference is set; any other error only after `max_retries` + 1 attempts, and it is the error of the last attempt's setup |
| GeminiResponse.RejectedFirstKey | src/api/Providers/google_gemini.jsx:21-22 | when no client can be created, every pass stops at the first key with its rejection and streams nothing |
| GeminiResponse.PersistentSetupFailureIsRethrown | src/api/Providers/google_gemini.jsx:50-57 | when no client can be created, the first key's error is thrown after exactly `max_retries` + 1 attempts, and nothing is streamed |
| GeminiResponse.EveryAskFailingReturnsNothing | src/api/Providers/google_gemini.jsx:21-59 | when every key is set up but every `ask` throws, the call returns `undefined` after one attempt, without retrying |
| GeminiResponse.FirstAnswerIsReturned | src/api/Providers/google_gemini.jsx:35-45 | when key k answers and every earlier key's `ask` throws, the call ends on its first attempt, returning key k's joined chunks, or `undefined` when streaming |
| GeminiResponse.StreamedCallReturnsNothing | src/api/Providers/google_gemini.jsx:35-41 | a call with a stream callback never returns text, whatever the library does |
| GeminiResponse.ReturnsAfterRetries | src/api/Providers/google_gemini.jsx:16-59 | a call that returns does so on the first attempt whose key loop does not escape; every earlier attempt's setup failed, and it returns that attempt's answer, or `undefined` when streaming or when every `ask` failed |
| GeminiResponse.KeyLoopsAlike | src/api/Providers/google_gemini.jsx:21-49 | key loops over results that agree key by key on which step failed try the same keys and end alike |
| GeminiResponse.SameAskSamePass | src/api/Providers/google_gemini.jsx:35-48 | when `ask` with a stream handler and without one fail or succeed alike for every client, a pass over the keys ends alike in both modes |
| GeminiResponse.StreamAndPlainAgree | src/api/Providers/google_gemini.jsx:35-57 | given that `ask` fails or succeeds alike with and without a stream handler, streamed and plain calls make the same number of attempts and throw the same errors; a plain call makes no sink updates, and a streamed call returns `undefined` |

## Left out

- `ChatProvidersReact` (providers.jsx:82-84) is React UI, so it is not modelled.
- `default_provider_string` (providers.jsx:107-109) reads the preferences. The default key is a parameter of `GetProviderString` and `GetProviderInfo`.
- The `GeminiAPIKeys` preference (google_gemini.jsx:17) is likewise a parameter: absent (None) or a string.
- The provider adapters other than Gemini are not part of this model, and neither are format.jsx and askAI.jsx.
- The `safetySettings` passed to `ask` (google_gemini.jsx:9-14) are constants handed to the library and are not modelled.
- Asynchrony (`await`), `node-fetch` and the `console.log` before a retry are not modelled, because they do not change the outcome.
- `ask` is an oracle of the client, the configuration, the query and whether a stream handler is passed. In plain mode its answer is the chunks joined. The two modes are unrelated in general; `StreamAndPlainAgree` holds only for a library whose streamed and plain `ask` fail or succeed alike.
- `fs.readFileSync` is a fixed function of the path. Files are not assumed to change between retries.
- JsNumber: numbers are exact reals. IEEE-754 rounding, overflow to Infinity and signed zero are not modelled.
- JsNumber.ToFixed1: prints values of 10^21 and more positionally, whereas JavaScript uses exponent form for them.
- Providers.GetProviderInfo: only the registry's own keys are modelled. A selection is kept only when it is an own key (`Object.keys`, line 113). But when the default key from the preferences is an inherited name such as `"toString"` or `"constructor"`, `providers_info[key]` (line 120) gives an `Object.prototype` member; the model gives `undefined` (None).
- Providers.GetProviderString: the selection is `Option<string>`. JavaScript's other falsy or non-string values are not modelled.
