/**
 * `getGoogleGeminiResponse`: the comma-separated API keys are tried in order; a key whose
 * `ask` fails is skipped, the first answer decides, and an error while setting up a key
 * (creating the client, formatting the chat, creating the chat) abandons the remaining
 * keys and starts the whole call again while retries are left.
 *
 * The Gemini library is an oracle (`Backend`) indexed by the client, that is by the key,
 * its position and the retries left, so that every key on every attempt may behave
 * differently. A reply is the sequence of chunks `ask` delivers and whether it then
 * completes or throws, with a stream handler or without one; a plain `ask` returns the
 * concatenation of the chunks.
 */
module GeminiResponse {
  import opened Wrappers
  import opened JsString
  import opened GeminiChat

  /** `APIKeysStr.split(",").map((x) => x.trim())`. */
  function ParseKeys(keysString: string): (keys: seq<string>)
    ensures |keys| == CountOf(keysString, ',') + 1
  {
    var pieces := SplitOnComma(keysString);
    seq(|pieces|, i requires 0 <= i < |pieces| => Trim(pieces[i]))
  }

  /** Every parsed key contains no comma, and neither starts nor ends with whitespace. */
  lemma ParsedKeysAreTrimmed(keysString: string)
    ensures forall k :: 0 <= k < |ParseKeys(keysString)| ==> ',' !in ParseKeys(keysString)[k]
    ensures forall k :: 0 <= k < |ParseKeys(keysString)| && |ParseKeys(keysString)[k]| > 0 ==>
      !IsJsWhitespace(ParseKeys(keysString)[k][0]) &&
      !IsJsWhitespace(ParseKeys(keysString)[k][|ParseKeys(keysString)[k]| - 1])
  {
    var pieces := SplitOnComma(keysString);
    var keys := ParseKeys(keysString);
    forall k | 0 <= k < |keys|
      ensures ',' !in keys[k]
      ensures |keys[k]| > 0 ==> !IsJsWhitespace(keys[k][0]) && !IsJsWhitespace(keys[k][|keys[k]| - 1])
    {
      TrimmedPiece(pieces[k]);
    }
  }

  /** Key `k` is the `k`-th comma-separated piece with exactly its leading and trailing
      whitespace removed: the slice `piece[lo..hi]` with only whitespace outside it and no
      whitespace at either end of it. */
  lemma ParsedKeyIsMiddleOfPiece(keysString: string, k: nat) returns (lo: nat, hi: nat)
    requires k < |ParseKeys(keysString)|
    ensures var piece := SplitOnComma(keysString)[k];
      && lo <= hi <= |piece|
      && ParseKeys(keysString)[k] == piece[lo..hi]
      && (forall j :: 0 <= j < lo ==> IsJsWhitespace(piece[j]))
      && (forall j :: hi <= j < |piece| ==> IsJsWhitespace(piece[j]))
      && (lo < hi ==> !IsJsWhitespace(piece[lo]) && !IsJsWhitespace(piece[hi - 1]))
  {
    KeyOfPiece(keysString, k);
    lo, hi := TrimKeepsMiddle(SplitOnComma(keysString)[k]);
  }

  /** Key `k` is piece `k` trimmed. */
  lemma KeyOfPiece(keysString: string, k: nat)
    requires k < |ParseKeys(keysString)|
    ensures k < |SplitOnComma(keysString)| && ParseKeys(keysString)[k] == Trim(SplitOnComma(keysString)[k])
  {
  }

  /** Three comma-free fields joined by commas give their three trimmed values. */
  lemma ParseThreeKeys(a: string, b: string, c: string)
    requires ',' !in a && ',' !in b && ',' !in c
    ensures ParseKeys(a + [','] + (b + [','] + c)) == [Trim(a), Trim(b), Trim(c)]
  {
    SplitAtFirstComma(a, b + [','] + c);
    SplitAtFirstComma(b, c);
    SplitWithoutComma(c);
  }

  /** A preference spelt `a, b ,c`, given character by character, is its three fields
      joined by commas. */
  lemma SpellingFields(s: string)
    requires |s| == 7 && s[1] == ',' && s[5] == ','
    ensures s == s[..1] + [','] + (s[2..5] + [','] + s[6..])
  {
  }

  /** The keys of a preference spelt `a, b ,c`, given character by character. */
  lemma ParseKeysOfSpelling(s: string)
    requires |s| == 7 && s[0] == 'a' && s[1] == ',' && s[2] == ' ' && s[3] == 'b'
    requires s[4] == ' ' && s[5] == ',' && s[6] == 'c'
    ensures ParseKeys(s) == ["a", "b", "c"]
  {
    var a, b, c := s[..1], s[2..5], s[6..];
    SpellingFields(s);
    ParseThreeKeys(a, b, c);
    TrimOfLetter(a);
    TrimOfPaddedLetter(b);
    TrimOfLetter(c);
    assert a == "a" by { assert |a| == 1 && a[0] == 'a'; }
    assert b[1..2] == "b" by { assert |b[1..2]| == 1 && b[1..2][0] == 'b'; }
    assert c == "c" by { assert |c| == 1 && c[0] == 'c'; }
  }

  /** The keys of `"a, b ,c"` are `["a", "b", "c"]`. */
  lemma ParseKeysExample(s: string)
    requires s == "a, b ,c"
    ensures ParseKeys(s) == ["a", "b", "c"]
  {
    ParseKeysOfSpelling(s);
  }

  /** The options the caller passes: the model, and the temperature (absent when no
      creativity is set). */
  datatype RequestOptions = RequestOptions(model: string, temperature: Option<string>)

  /** The temperature given to `createChat`: the configured text, or the default number. */
  datatype Temperature = Configured(text: string) | Fallback(value: real)

  const MaxOutputTokens: nat := 8192
  const DefaultTemperature: real := 0.7

  datatype ChatConfig = ChatConfig(model: string, messages: seq<GeminiMessage>, maxOutputTokens: nat, temperature: Temperature)

  /** The `createChat` configuration: `options.temperature ?? 0.7`. */
  function ChatConfigFor(options: RequestOptions, history: seq<GeminiMessage>): (config: ChatConfig)
    ensures config.model == options.model && config.messages == history
    ensures config.maxOutputTokens == 8192
    ensures options.temperature.Some? ==> config.temperature == Configured(options.temperature.value)
    ensures options.temperature.None? ==> config.temperature == Fallback(0.7)
  {
    var temperature := if options.temperature.Some? then Configured(options.temperature.value) else Fallback(DefaultTemperature);
    ChatConfig(options.model, history, MaxOutputTokens, temperature)
  }

  /** What `ask` does: the chunks it delivers, then whether it completes or throws. */
  datatype AskOutcome = AskOutcome(chunks: seq<string>, completes: bool)

  /** The Gemini library: whether `new Gemini` succeeds for a client, the environment the
      formatter uses, whether `createChat` succeeds, and what `ask` does. */
  datatype Backend = Backend(
    newClient: Client -> bool,
    env: Environment,
    createChat: (Client, ChatConfig) -> bool,
    ask: (Client, ChatConfig, Option<GeminiMessage>, bool) -> AskOutcome)

  /** The errors that escape: the key preference is not set (`undefined.split`), or a key
      could not be set up. */
  datatype GeminiError =
    | MissingKeyPreference
    | ClientRejected(apiKey: string)
    | FormatFailed(cause: FormatError)
    | CreateChatFailed(apiKey: string)

  /** How a call ends: it returns (a text, or `undefined`), or it throws. */
  datatype Outcome = Returned(value: Option<string>) | Threw(error: GeminiError)

  /** A chat that is set up: its configuration and the query to send. */
  datatype Session = Session(config: ChatConfig, query: Option<GeminiMessage>)

  /** Setting up one key: the client, the formatted chat and `createChat`. */
  function ChatSetup(backend: Backend, chat: seq<Message>, options: RequestOptions, client: Client): Result<Session, GeminiError>
  {
    if !backend.newClient(client) then Err(ClientRejected(client.apiKey))
    else
      match FormatChat(backend.env, client, chat)
      case Err(e) => Err(FormatFailed(e))
      case Ok(formatted) =>
        var config := ChatConfigFor(options, formatted.history);
        if backend.createChat(client, config) then Ok(Session(config, formatted.query))
        else Err(CreateChatFailed(client.apiKey))
  }

  /** The result of trying one key. */
  datatype KeyResult = SetupFailed(error: GeminiError) | AskFailed(chunks: seq<string>) | Answered(chunks: seq<string>)

  function TryKey(backend: Backend, chat: seq<Message>, options: RequestOptions, streaming: bool, client: Client): KeyResult
  {
    match ChatSetup(backend, chat, options, client)
    case Err(e) => SetupFailed(e)
    case Ok(session) =>
      var reply := backend.ask(client, session.config, session.query, streaming);
      if reply.completes then Answered(reply.chunks) else AskFailed(reply.chunks)
  }

  /** `chunks[0] + ... + chunks[n-1]`. */
  function Concat(chunks: seq<string>): string
  {
    if |chunks| == 0 then "" else Concat(chunks[..|chunks| - 1]) + chunks[|chunks| - 1]
  }

  /** What the stream handler passes to the sink: after each chunk, all chunks so far. */
  function RunningPrefixes(chunks: seq<string>): (updates: seq<string>)
    ensures |updates| == |chunks|
  {
    if |chunks| == 0 then [] else RunningPrefixes(chunks[..|chunks| - 1]) + [Concat(chunks)]
  }

  /** The running response after chunk `k` is the first `k + 1` chunks joined. */
  lemma {:induction false} RunningPrefixesAccumulate(chunks: seq<string>)
    ensures forall k :: 0 <= k < |chunks| ==> RunningPrefixes(chunks)[k] == Concat(chunks[..k + 1])
  {
    if |chunks| > 0 {
      var init := chunks[..|chunks| - 1];
      RunningPrefixesAccumulate(init);
      forall k | 0 <= k < |init|
        ensures RunningPrefixes(chunks)[k] == Concat(chunks[..k + 1])
      {
        assert init[..k + 1] == chunks[..k + 1];
      }
      assert chunks[..|chunks|] == chunks;
    }
  }

  /** Joining one more chunk appends it. */
  lemma ConcatStep(chunks: seq<string>, n: nat)
    requires n < |chunks|
    ensures Concat(chunks[..n + 1]) == Concat(chunks[..n]) + chunks[n]
  {
    assert chunks[..n + 1][..n] == chunks[..n];
  }

  /** Every update extends the one before it by exactly the new chunk, so each is a prefix
      of the next; the first is the first chunk and the last is the whole response. */
  lemma StreamUpdatesGrow(chunks: seq<string>)
    ensures var updates := RunningPrefixes(chunks);
      && (forall k :: 0 <= k < |chunks| - 1 ==> updates[k + 1] == updates[k] + chunks[k + 1] && updates[k] <= updates[k + 1])
      && (|chunks| > 0 ==> updates[0] == chunks[0] && updates[|chunks| - 1] == Concat(chunks))
  {
    var updates := RunningPrefixes(chunks);
    RunningPrefixesAccumulate(chunks);
    forall k | 0 <= k < |chunks| - 1
      ensures updates[k + 1] == updates[k] + chunks[k + 1] && updates[k] <= updates[k + 1]
    {
      ConcatStep(chunks, k + 1);
      PrefixOfAppend(updates[k], chunks[k + 1]);
    }
    if |chunks| > 0 {
      ConcatStep(chunks, 0);
      assert chunks[..0] == [];
      assert chunks[..|chunks|] == chunks;
    }
  }

  /** What trying key `i` of `keys` gives, on the attempt with `retriesLeft` retries left. */
  function KeyResultAt(backend: Backend, chat: seq<Message>, options: RequestOptions, streaming: bool,
                       keys: seq<string>, retriesLeft: nat, i: nat): KeyResult
    requires i < |keys|
  {
    TryKey(backend, chat, options, streaming, Client(keys[i], i, retriesLeft))
  }

  /** `results` holds what each key of `keys` gives when it is tried. */
  ghost predicate AreKeyResults(backend: Backend, chat: seq<Message>, options: RequestOptions, streaming: bool,
                                keys: seq<string>, retriesLeft: nat, results: seq<KeyResult>)
  {
    && |results| == |keys|
    && forall i {:trigger KeyResultAt(backend, chat, options, streaming, keys, retriesLeft, i)} ::
         0 <= i < |keys| ==> results[i] == KeyResultAt(backend, chat, options, streaming, keys, retriesLeft, i)
  }

  /** What each key gives when it is tried, on the attempt with `retriesLeft` retries left. */
  function KeyResults(backend: Backend, chat: seq<Message>, options: RequestOptions, streaming: bool,
                      keys: seq<string>, retriesLeft: nat): (results: seq<KeyResult>)
    ensures AreKeyResults(backend, chat, options, streaming, keys, retriesLeft, results)
  {
    seq(|keys|, i requires 0 <= i < |keys| => KeyResultAt(backend, chat, options, streaming, keys, retriesLeft, i))
  }

  /** How the key loop ends: every key's `ask` failed, a key answered, or a setup error escaped. */
  datatype LoopExit = Exhausted | Succeeded(text: string) | Escaped(error: GeminiError)

  /** How the key loop ends and how many keys it tried. */
  datatype LoopResult = LoopResult(exit: LoopExit, tried: nat)

  /** The key loop from key `i` on, given what each key gives: a failed `ask` moves on to
      the next key; an answer or a setup error ends the loop. */
  function KeyLoop(results: seq<KeyResult>, i: nat): (r: LoopResult)
    requires i <= |results|
    ensures i <= r.tried <= |results|
    decreases |results| - i
  {
    if i == |results| then LoopResult(Exhausted, i)
    else
      match results[i]
      case SetupFailed(e) => LoopResult(Escaped(e), i + 1)
      case Answered(chunks) => LoopResult(Succeeded(Concat(chunks)), i + 1)
      case AskFailed(_) => KeyLoop(results, i + 1)
  }

  /** The sink updates of one key's turn: every running response of its `ask`. */
  function KeyUpdates(result: KeyResult): seq<string>
  {
    if result.SetupFailed? then [] else RunningPrefixes(result.chunks)
  }

  /** The sink updates of the first `n` keys, in order; each key's updates start again from
      the empty response. */
  function UpdatesOfFirst(results: seq<KeyResult>, n: nat): seq<string>
    requires n <= |results|
  {
    if n == 0 then [] else UpdatesOfFirst(results, n - 1) + KeyUpdates(results[n - 1])
  }

  /** Key `k` is the first key from key `i` on whose `ask` did not fail: it answered or its
      setup failed, and every key before it, from `i` on, was skipped. */
  predicate DecidesFrom(results: seq<KeyResult>, i: nat, k: nat)
  {
    && i <= k < |results|
    && !results[k].AskFailed?
    && forall j :: i <= j < k ==> results[j].AskFailed?
  }

  /** The first key that does not fail its `ask` ends the loop: its answer is the result,
      its setup error escapes, and no later key is tried. */
  lemma {:induction false} DecidingKeyEndsLoop(results: seq<KeyResult>, i: nat, k: nat)
    requires DecidesFrom(results, i, k)
    ensures KeyLoop(results, i).tried == k + 1
    ensures results[k].Answered? ==> KeyLoop(results, i).exit == Succeeded(Concat(results[k].chunks))
    ensures results[k].SetupFailed? ==> KeyLoop(results, i).exit == Escaped(results[k].error)
    decreases k - i
  {
    if i < k {
      DecidingKeyEndsLoop(results, i + 1, k);
    }
  }

  /** The loop runs out of keys exactly when every `ask` from key `i` on fails, and otherwise
      stops at the first key that does not fail its `ask`. */
  lemma {:induction false} KeyLoopExits(results: seq<KeyResult>, i: nat)
    requires i <= |results|
    ensures KeyLoop(results, i).exit.Exhausted? <==> forall j :: i <= j < |results| ==> results[j].AskFailed?
    ensures KeyLoop(results, i).exit.Exhausted? ==> KeyLoop(results, i).tried == |results|
    ensures !KeyLoop(results, i).exit.Exhausted? ==> DecidesFrom(results, i, KeyLoop(results, i).tried - 1)
    decreases |results| - i
  {
    if i < |results| && results[i].AskFailed? {
      KeyLoopExits(results, i + 1);
    }
  }

  /** Two loop exits alike: both succeed (perhaps with different texts), or both are the
      same exhaustion or escaped error. */
  predicate ExitsAlike(a: LoopExit, b: LoopExit)
  {
    if a.Succeeded? then b.Succeeded? else a == b
  }

  /** Two results of one key alike: the same setup error, or both asks failing, or both
      answering. */
  predicate ResultsAlike(a: KeyResult, b: KeyResult)
  {
    match a
    case SetupFailed(_) => a == b
    case AskFailed(_) => b.AskFailed?
    case Answered(_) => b.Answered?
  }

  /** Key loops over results that are alike key by key try the same keys and end alike. */
  lemma {:induction false} KeyLoopsAlike(a: seq<KeyResult>, b: seq<KeyResult>, i: nat)
    requires |a| == |b| && i <= |a|
    requires forall k :: i <= k < |a| ==> ResultsAlike(a[k], b[k])
    ensures KeyLoop(a, i).tried == KeyLoop(b, i).tried
    ensures ExitsAlike(KeyLoop(a, i).exit, KeyLoop(b, i).exit)
    decreases |a| - i
  {
    if i < |a| && a[i].AskFailed? {
      KeyLoopsAlike(a, b, i + 1);
    }
  }

  /** The first update of a key's turn is its first chunk alone: the running response starts
      again from the empty string for every key. */
  lemma UpdatesRestartPerKey(results: seq<KeyResult>, n: nat)
    requires n < |results| && !results[n].SetupFailed? && |results[n].chunks| > 0
    ensures |UpdatesOfFirst(results, n + 1)| > |UpdatesOfFirst(results, n)|
    ensures UpdatesOfFirst(results, n + 1)[|UpdatesOfFirst(results, n)|] == results[n].chunks[0]
  {
    StreamUpdatesGrow(results[n].chunks);
  }

  /** When a key answers with a nonempty text, the last update the sink received is that text. */
  lemma StreamedTextIsLastUpdate(results: seq<KeyResult>)
    requires KeyLoop(results, 0).exit.Succeeded? && KeyLoop(results, 0).exit.text != ""
    ensures var updates := UpdatesOfFirst(results, KeyLoop(results, 0).tried);
      |updates| > 0 && updates[|updates| - 1] == KeyLoop(results, 0).exit.text
  {
    KeyLoopExits(results, 0);
    var k := KeyLoop(results, 0).tried - 1;
    DecidingKeyEndsLoop(results, 0, k);
    var chunks := results[k].chunks;
    assert |chunks| > 0;
    StreamUpdatesGrow(chunks);
  }

  /** A whole call: how it ends, every sink update in order, and how many calls it made. */
  datatype Trace = Trace(outcome: Outcome, updates: seq<string>, attempts: nat)

  /** How one attempt ends, given how its key loop ended and the sink updates it made:
      `retry` is what the next attempt gives, when a retry is left. */
  function AfterLoop(exit: LoopExit, updates: seq<string>, streaming: bool, retry: Option<Trace>): Trace
  {
    match exit
    case Exhausted => Trace(Returned(None), updates, 1)
    case Succeeded(text) => Trace(Returned(if streaming then None else Some(text)), updates, 1)
    case Escaped(e) =>
      match retry
      case None => Trace(Threw(e), updates, 1)
      case Some(rest) => Trace(rest.outcome, updates + rest.updates, rest.attempts + 1)
  }

  /** One pass over the keys: how the key loop ends and the sink updates it makes when the
      call streams. */
  datatype Attempt = Attempt(exit: LoopExit, updates: seq<string>)

  /** The pass made with `retriesLeft` retries left (the clients it creates carry that count). */
  function AttemptWith(backend: Backend, chat: seq<Message>, options: RequestOptions, streaming: bool,
                       keys: seq<string>, retriesLeft: nat): Attempt
  {
    var results := KeyResults(backend, chat, options, streaming, keys, retriesLeft);
    var loop := KeyLoop(results, 0);
    Attempt(loop.exit, UpdatesOfFirst(results, loop.tried))
  }

  /** `pass(r)` is the pass made with `r` retries left. */
  function Passes(backend: Backend, chat: seq<Message>, options: RequestOptions, streaming: bool, keys: seq<string>): nat -> Attempt
  {
    (r: nat) => AttemptWith(backend, chat, options, streaming, keys, r)
  }

  /** The retry protocol, whatever one pass does: a pass that escapes with a setup error
      starts the call again while retries are left, and otherwise its error is thrown. */
  function Retrying(pass: nat -> Attempt, streaming: bool, retriesLeft: nat): Trace
    decreases retriesLeft
  {
    var first := pass(retriesLeft);
    AfterLoop(first.exit, if streaming then first.updates else [], streaming,
              if retriesLeft > 0 then Some(Retrying(pass, streaming, retriesLeft - 1)) else None)
  }

  /** The whole call: a missing key preference throws at once; otherwise the keys are tried,
      and a setup error starts the call again while `maxRetries` is positive. */
  function Response(backend: Backend, chat: seq<Message>, options: RequestOptions, streaming: bool,
                    keysPreference: Option<string>, maxRetries: nat): Trace
  {
    if keysPreference.None? then Trace(Threw(MissingKeyPreference), [], 1)
    else Retrying(Passes(backend, chat, options, streaming, ParseKeys(keysPreference.value)), streaming, maxRetries)
  }

  /** A call makes at least one pass and at most `retriesLeft` further ones; it throws only
      after the pass made with no retries left, and then the error that pass escaped with. */
  lemma {:induction false} RetryingEnds(pass: nat -> Attempt, streaming: bool, retriesLeft: nat)
    ensures 1 <= Retrying(pass, streaming, retriesLeft).attempts <= retriesLeft + 1
    ensures Retrying(pass, streaming, retriesLeft).outcome.Threw? ==>
      && Retrying(pass, streaming, retriesLeft).attempts == retriesLeft + 1
      && pass(0).exit == Escaped(Retrying(pass, streaming, retriesLeft).outcome.error)
    decreases retriesLeft
  {
    if retriesLeft > 0 {
      RetryingEnds(pass, streaming, retriesLeft - 1);
    }
  }

  /** Passes that all escape with the same error and stream nothing throw it after every one. */
  lemma {:induction false} RetryingOfEscapes(pass: nat -> Attempt, streaming: bool, e: GeminiError, retriesLeft: nat)
    requires forall r: nat :: r <= retriesLeft ==> pass(r) == Attempt(Escaped(e), [])
    ensures Retrying(pass, streaming, retriesLeft) == Trace(Threw(e), [], retriesLeft + 1)
    decreases retriesLeft
  {
    if retriesLeft > 0 {
      RetryingOfEscapes(pass, streaming, e, retriesLeft - 1);
    }
  }

  /** Streaming changes only what the sink sees and whether the text is returned, when each
      streamed pass ends alike with the plain pass made with the same retries left. */
  lemma {:induction false} RetryingStreamAndPlainAgree(streamed: nat -> Attempt, plain: nat -> Attempt, retriesLeft: nat)
    requires forall r: nat :: r <= retriesLeft ==> ExitsAlike(streamed(r).exit, plain(r).exit)
    ensures Retrying(plain, false, retriesLeft).updates == []
    ensures Retrying(streamed, true, retriesLeft).attempts == Retrying(plain, false, retriesLeft).attempts
    ensures Retrying(streamed, true, retriesLeft).outcome.Threw? <==> Retrying(plain, false, retriesLeft).outcome.Threw?
    ensures Retrying(streamed, true, retriesLeft).outcome.Threw? ==>
      Retrying(streamed, true, retriesLeft).outcome == Retrying(plain, false, retriesLeft).outcome
    ensures Retrying(streamed, true, retriesLeft).outcome.Returned? ==> Retrying(streamed, true, retriesLeft).outcome == Returned(None)
    decreases retriesLeft
  {
    if retriesLeft > 0 {
      RetryingStreamAndPlainAgree(streamed, plain, retriesLeft - 1);
    }
  }

  /** A streamed call never returns text, whatever its passes do. */
  lemma {:induction false} StreamedRetryingReturnsNothing(pass: nat -> Attempt, retriesLeft: nat)
    ensures Retrying(pass, true, retriesLeft).outcome.Returned? ==> Retrying(pass, true, retriesLeft).outcome == Returned(None)
    decreases retriesLeft
  {
    if retriesLeft > 0 {
      StreamedRetryingReturnsNothing(pass, retriesLeft - 1);
    }
  }

  /** A call that returns does so from the first pass, counting down from `retriesLeft`, that
      does not escape with a setup error: every pass before it escaped, and the call returns
      that pass's answer (`undefined` when streaming or when the keys ran out). */
  lemma {:induction false} RetryingReturns(pass: nat -> Attempt, streaming: bool, retriesLeft: nat) returns (r: nat)
    requires Retrying(pass, streaming, retriesLeft).outcome.Returned?
    ensures r <= retriesLeft
    ensures Retrying(pass, streaming, retriesLeft).attempts == retriesLeft - r + 1
    ensures forall q: nat :: r < q <= retriesLeft ==> pass(q).exit.Escaped?
    ensures !pass(r).exit.Escaped?
    ensures Retrying(pass, streaming, retriesLeft).outcome ==
      Returned(if pass(r).exit.Succeeded? && !streaming then Some(pass(r).exit.text) else None)
    decreases retriesLeft
  {
    if pass(retriesLeft).exit.Escaped? {
      r := RetryingReturns(pass, streaming, retriesLeft - 1);
    } else {
      r := retriesLeft;
    }
  }

  /** The `stream_update` callback: it records every text it is given. */
  class StreamSink {
    var updates: seq<string>

    constructor()
      ensures updates == []
    {
      updates := [];
    }

    method Update(text: string)
      modifies this
      ensures updates == old(updates) + [text]
    {
      updates := updates + [text];
    }
  }

  /** Sets up the chat for one key: the client, the formatted chat and `createChat`. */
  method SetUpChat(backend: Backend, chat: seq<Message>, options: RequestOptions, client: Client)
    returns (r: Result<Session, GeminiError>)
    ensures r == ChatSetup(backend, chat, options, client)
  {
    if !backend.newClient(client) {
      return Err(ClientRejected(client.apiKey));
    }
    var formatted := GeminiFormatChat(backend.env, client, chat);
    if formatted.Err? {
      return Err(FormatFailed(formatted.error));
    }
    var config := ChatConfigFor(options, formatted.value.history);
    if !backend.createChat(client, config) {
      return Err(CreateChatFailed(client.apiKey));
    }
    r := Ok(Session(config, formatted.value.query));
  }

  /** `ask` with the stream handler: each chunk is appended to the running response and
      the whole response so far is passed to the sink. */
  method DeliverChunks(sink: StreamSink, chunks: seq<string>) returns (response: string)
    modifies sink
    ensures response == Concat(chunks)
    ensures sink.updates == old(sink.updates) + RunningPrefixes(chunks)
  {
    response := "";
    var k := 0;
    while k < |chunks|
      invariant 0 <= k <= |chunks|
      invariant response == Concat(chunks[..k])
      invariant sink.updates == old(sink.updates) + RunningPrefixes(chunks[..k])
    {
      assert chunks[..k + 1][..k] == chunks[..k];
      response := response + chunks[k];
      sink.Update(response);
      k := k + 1;
    }
    assert chunks[..|chunks|] == chunks;
  }

  /** One turn of the key loop: set up the chat for the key, then `ask`, streaming into the
      sink when there is one. */
  method AttemptKey(backend: Backend, chat: seq<Message>, options: RequestOptions, sink: StreamSink?,
                    keys: seq<string>, i: nat, retriesLeft: nat, ghost results: seq<KeyResult>)
    returns (result: KeyResult, response: string)
    requires i < |keys| && AreKeyResults(backend, chat, options, sink != null, keys, retriesLeft, results)
    modifies sink
    ensures result == results[i]
    ensures result.Answered? ==> response == Concat(result.chunks)
    ensures sink != null ==> sink.updates == old(sink.updates) + KeyUpdates(result)
  {
    var client := Client(keys[i], i, retriesLeft);
    assert results[i] == KeyResultAt(backend, chat, options, sink != null, keys, retriesLeft, i);
    var setup := SetUpChat(backend, chat, options, client);
    if setup.Err? {
      return SetupFailed(setup.error), "";
    }
    var reply := backend.ask(client, setup.value.config, setup.value.query, sink != null);
    response := "";
    if sink != null {
      response := DeliverChunks(sink, reply.chunks);
    } else if reply.completes {
      response := Concat(reply.chunks);
    }
    result := if reply.completes then Answered(reply.chunks) else AskFailed(reply.chunks);
  }

  /** The `for (const APIKey of APIKeys)` loop: a key whose `ask` fails is skipped, the first
      answer ends the loop, and a setup error escapes it. */
  method TryKeys(backend: Backend, chat: seq<Message>, options: RequestOptions, sink: StreamSink?,
                 apiKeys: seq<string>, retriesLeft: nat, ghost results: seq<KeyResult>)
    returns (exit: LoopExit)
    requires AreKeyResults(backend, chat, options, sink != null, apiKeys, retriesLeft, results)
    modifies sink
    ensures exit == KeyLoop(results, 0).exit
    ensures sink != null ==> sink.updates == old(sink.updates) + UpdatesOfFirst(results, KeyLoop(results, 0).tried)
  {
    ghost var before := if sink != null then sink.updates else [];
    var i := 0;
    while i < |apiKeys|
      invariant 0 <= i <= |apiKeys|
      invariant KeyLoop(results, 0) == KeyLoop(results, i)
      invariant sink != null ==> sink.updates == before + UpdatesOfFirst(results, i)
    {
      ghost var done := UpdatesOfFirst(results, i);
      var result, response := AttemptKey(backend, chat, options, sink, apiKeys, i, retriesLeft, results);
      AppendIsAssociative(before, done, KeyUpdates(result));
      match result
      case SetupFailed(e) =>
        return Escaped(e);
      case Answered(_) =>
        return Succeeded(response);
      case AskFailed(_) =>
        i := i + 1;
    }
    exit := Exhausted;
  }

  /** `getGoogleGeminiResponse(chat, options, stream_update, max_retries)`; `sink` is null
      when there is no `stream_update`. */
  method GetGoogleGeminiResponse(backend: Backend, chat: seq<Message>, options: RequestOptions, sink: StreamSink?,
                                 keysPreference: Option<string>, maxRetries: nat)
    returns (outcome: Outcome)
    modifies sink
    decreases maxRetries
    ensures outcome == Response(backend, chat, options, sink != null, keysPreference, maxRetries).outcome
    ensures sink != null ==>
      sink.updates == old(sink.updates) + Response(backend, chat, options, sink != null, keysPreference, maxRetries).updates
  {
    if keysPreference.None? {
      return Threw(MissingKeyPreference);
    }
    var apiKeys := ParseKeys(keysPreference.value);
    ghost var results := KeyResults(backend, chat, options, sink != null, apiKeys, maxRetries);
    ghost var first := AttemptWith(backend, chat, options, sink != null, apiKeys, maxRetries);
    ghost var updates := if sink != null then first.updates else [];
    var exit := TryKeys(backend, chat, options, sink, apiKeys, maxRetries, results);
    match exit
    case Exhausted =>
      outcome := Returned(None);
    case Succeeded(response) =>
      outcome := if sink != null then Returned(None) else Returned(Some(response));
    case Escaped(e) =>
      if maxRetries > 0 {
        ghost var rest := Response(backend, chat, options, sink != null, keysPreference, maxRetries - 1);
        outcome := GetGoogleGeminiResponse(backend, chat, options, sink, keysPreference, maxRetries - 1);
        AppendIsAssociative(old(if sink != null then sink.updates else []), updates, rest.updates);
      } else {
        outcome := Threw(e);
      }
  }

  /** Every call makes at least one attempt and at most `maxRetries` further ones. */
  lemma AttemptsAreBounded(backend: Backend, chat: seq<Message>, options: RequestOptions, streaming: bool,
                           keysPreference: Option<string>, maxRetries: nat)
    ensures 1 <= Response(backend, chat, options, streaming, keysPreference, maxRetries).attempts <= maxRetries + 1
  {
    if keysPreference.Some? {
      RetryingEnds(Passes(backend, chat, options, streaming, ParseKeys(keysPreference.value)), streaming, maxRetries);
    }
  }

  /** Trying keys never raises `MissingKeyPreference`: a key's setup fails only with the
      client, formatting or chat-creation errors. */
  lemma LoopNeverMissesKeys(backend: Backend, chat: seq<Message>, options: RequestOptions, streaming: bool,
                            keys: seq<string>, retriesLeft: nat)
    ensures AttemptWith(backend, chat, options, streaming, keys, retriesLeft).exit != Escaped(MissingKeyPreference)
  {
    var results := KeyResults(backend, chat, options, streaming, keys, retriesLeft);
    KeyLoopExits(results, 0);
    var loop := KeyLoop(results, 0);
    if loop.exit.Escaped? {
      var k := loop.tried - 1;
      DecidingKeyEndsLoop(results, 0, k);
      assert results[k] == KeyResultAt(backend, chat, options, streaming, keys, retriesLeft, k);
    }
  }

  /** With keys configured, an error reaches the caller only once every retry has been used,
      and it is the error the last pass's setup raised: never `MissingKeyPreference`, which is
      thrown exactly when no keys are configured. */
  lemma ThrowsOnlyAfterEveryRetry(backend: Backend, chat: seq<Message>, options: RequestOptions, streaming: bool,
                                  keysPreference: Option<string>, maxRetries: nat)
    ensures keysPreference.None? <==>
      Response(backend, chat, options, streaming, keysPreference, maxRetries).outcome == Threw(MissingKeyPreference)
    ensures keysPreference.Some? && Response(backend, chat, options, streaming, keysPreference, maxRetries).outcome.Threw? ==>
      && Response(backend, chat, options, streaming, keysPreference, maxRetries).attempts == maxRetries + 1
      && AttemptWith(backend, chat, options, streaming, ParseKeys(keysPreference.value), 0).exit
         == Escaped(Response(backend, chat, options, streaming, keysPreference, maxRetries).outcome.error)
  {
    if keysPreference.Some? {
      var keys := ParseKeys(keysPreference.value);
      RetryingEnds(Passes(backend, chat, options, streaming, keys), streaming, maxRetries);
      LoopNeverMissesKeys(backend, chat, options, streaming, keys, 0);
    }
  }

  /** With no client creatable, the first key is rejected on every pass, whatever retries are left. */
  lemma RejectedFirstKey(backend: Backend, chat: seq<Message>, options: RequestOptions, streaming: bool,
                         keys: seq<string>, retriesLeft: nat)
    requires |keys| > 0 && forall c :: !backend.newClient(c)
    ensures AttemptWith(backend, chat, options, streaming, keys, retriesLeft) == Attempt(Escaped(ClientRejected(keys[0])), [])
  {
    var results := KeyResults(backend, chat, options, streaming, keys, retriesLeft);
    assert results[0] == KeyResultAt(backend, chat, options, streaming, keys, retriesLeft, 0);
    assert KeyLoop(results, 0) == LoopResult(Escaped(ClientRejected(keys[0])), 1);
    assert UpdatesOfFirst(results, 1) == [];
  }

  /** When no client can be created, the first key's error is rethrown after exactly
      `maxRetries + 1` attempts, and nothing is streamed. */
  lemma PersistentSetupFailureIsRethrown(backend: Backend, chat: seq<Message>, options: RequestOptions, streaming: bool,
                                         keysPreference: Option<string>, maxRetries: nat)
    requires keysPreference.Some? && forall c :: !backend.newClient(c)
    ensures Response(backend, chat, options, streaming, keysPreference, maxRetries)
         == Trace(Threw(ClientRejected(ParseKeys(keysPreference.value)[0])), [], maxRetries + 1)
  {
    var keys := ParseKeys(keysPreference.value);
    var pass := Passes(backend, chat, options, streaming, keys);
    forall r: nat | r <= maxRetries
      ensures pass(r) == Attempt(Escaped(ClientRejected(keys[0])), [])
    {
      RejectedFirstKey(backend, chat, options, streaming, keys, r);
    }
    RetryingOfEscapes(pass, streaming, ClientRejected(keys[0]), maxRetries);
  }

  /** When every key is set up but every `ask` fails, the call returns `undefined` without
      retrying. */
  lemma EveryAskFailingReturnsNothing(backend: Backend, chat: seq<Message>, options: RequestOptions, streaming: bool,
                                      keysPreference: Option<string>, maxRetries: nat)
    requires keysPreference.Some?
    requires forall k :: 0 <= k < |ParseKeys(keysPreference.value)| ==>
      KeyResultAt(backend, chat, options, streaming, ParseKeys(keysPreference.value), maxRetries, k).AskFailed?
    ensures Response(backend, chat, options, streaming, keysPreference, maxRetries).outcome == Returned(None)
    ensures Response(backend, chat, options, streaming, keysPreference, maxRetries).attempts == 1
  {
    var keys := ParseKeys(keysPreference.value);
    var results := KeyResults(backend, chat, options, streaming, keys, maxRetries);
    forall j | 0 <= j < |results|
      ensures results[j].AskFailed?
    {
      assert results[j] == KeyResultAt(backend, chat, options, streaming, keys, maxRetries, j);
    }
    KeyLoopExits(results, 0);
  }

  /** When key `k` answers and every key before it fails its `ask`, the call ends on the first
      attempt: a plain call returns the answer, a streamed one returns `undefined`. */
  lemma FirstAnswerIsReturned(backend: Backend, chat: seq<Message>, options: RequestOptions, streaming: bool,
                              keysPreference: Option<string>, maxRetries: nat, k: nat)
    requires keysPreference.Some? && k < |ParseKeys(keysPreference.value)|
    requires KeyResultAt(backend, chat, options, streaming, ParseKeys(keysPreference.value), maxRetries, k).Answered?
    requires forall j :: 0 <= j < k ==>
      KeyResultAt(backend, chat, options, streaming, ParseKeys(keysPreference.value), maxRetries, j).AskFailed?
    ensures Response(backend, chat, options, streaming, keysPreference, maxRetries).attempts == 1
    ensures Response(backend, chat, options, streaming, keysPreference, maxRetries).outcome ==
      Returned(if streaming then None
               else Some(Concat(KeyResultAt(backend, chat, options, streaming, ParseKeys(keysPreference.value), maxRetries, k).chunks)))
  {
    var keys := ParseKeys(keysPreference.value);
    var results := KeyResults(backend, chat, options, streaming, keys, maxRetries);
    assert results[k] == KeyResultAt(backend, chat, options, streaming, keys, maxRetries, k);
    forall j | 0 <= j < k
      ensures results[j].AskFailed?
    {
      assert results[j] == KeyResultAt(backend, chat, options, streaming, keys, maxRetries, j);
    }
    DecidingKeyEndsLoop(results, 0, k);
  }

  /** With a stream callback, `getGoogleGeminiResponse` never returns text. */
  lemma StreamedCallReturnsNothing(backend: Backend, chat: seq<Message>, options: RequestOptions,
                                   keysPreference: Option<string>, maxRetries: nat)
    ensures Response(backend, chat, options, true, keysPreference, maxRetries).outcome.Returned? ==>
      Response(backend, chat, options, true, keysPreference, maxRetries).outcome == Returned(None)
  {
    if keysPreference.Some? {
      StreamedRetryingReturnsNothing(Passes(backend, chat, options, true, ParseKeys(keysPreference.value)), maxRetries);
    }
  }

  /** A call that returns does so on the first attempt, made with `r` retries left, whose key
      loop does not escape: every earlier attempt's setup failed, and the call returns that
      attempt's answer, or `undefined` when streaming or when every `ask` failed. */
  lemma ReturnsAfterRetries(backend: Backend, chat: seq<Message>, options: RequestOptions, streaming: bool,
                            keysPreference: Option<string>, maxRetries: nat) returns (r: nat)
    requires Response(backend, chat, options, streaming, keysPreference, maxRetries).outcome.Returned?
    ensures keysPreference.Some? && r <= maxRetries
    ensures Response(backend, chat, options, streaming, keysPreference, maxRetries).attempts == maxRetries - r + 1
    ensures forall q: nat :: r < q <= maxRetries ==>
      AttemptWith(backend, chat, options, streaming, ParseKeys(keysPreference.value), q).exit.Escaped?
    ensures var exit := AttemptWith(backend, chat, options, streaming, ParseKeys(keysPreference.value), r).exit;
      && !exit.Escaped?
      && Response(backend, chat, options, streaming, keysPreference, maxRetries).outcome ==
         Returned(if exit.Succeeded? && !streaming then Some(exit.text) else None)
  {
    var keys := ParseKeys(keysPreference.value);
    var pass := Passes(backend, chat, options, streaming, keys);
    assert Response(backend, chat, options, streaming, keysPreference, maxRetries) == Retrying(pass, streaming, maxRetries);
    r := RetryingReturns(pass, streaming, maxRetries);
    forall q: nat | r < q <= maxRetries
      ensures AttemptWith(backend, chat, options, streaming, keys, q).exit.Escaped?
    {
      assert pass(q) == AttemptWith(backend, chat, options, streaming, keys, q);
    }
    assert pass(r) == AttemptWith(backend, chat, options, streaming, keys, r);
  }

  /** `ask` with a stream handler (line 40) and without one (line 43) are two calls of the
      library; when they fail or succeed alike for every client, a pass over the keys tries
      the same keys and ends alike in both modes. */
  lemma SameAskSamePass(backend: Backend, chat: seq<Message>, options: RequestOptions,
                        keys: seq<string>, retriesLeft: nat)
    requires forall c, config, q :: backend.ask(c, config, q, true).completes == backend.ask(c, config, q, false).completes
    ensures ExitsAlike(AttemptWith(backend, chat, options, true, keys, retriesLeft).exit,
                       AttemptWith(backend, chat, options, false, keys, retriesLeft).exit)
  {
    var streamed := KeyResults(backend, chat, options, true, keys, retriesLeft);
    var plain := KeyResults(backend, chat, options, false, keys, retriesLeft);
    forall k | 0 <= k < |keys|
      ensures ResultsAlike(streamed[k], plain[k])
    {
      assert streamed[k] == KeyResultAt(backend, chat, options, true, keys, retriesLeft, k);
      assert plain[k] == KeyResultAt(backend, chat, options, false, keys, retriesLeft, k);
    }
    KeyLoopsAlike(streamed, plain, 0);
  }

  /** When `ask` fails or succeeds alike with and without a stream handler, streaming changes
      only how the answer is delivered: a plain call makes no updates, both make the same
      attempts and throw the same errors, and a streamed call never returns text. */
  lemma StreamAndPlainAgree(backend: Backend, chat: seq<Message>, options: RequestOptions,
                            keysPreference: Option<string>, maxRetries: nat)
    requires forall c, config, q :: backend.ask(c, config, q, true).completes == backend.ask(c, config, q, false).completes
    ensures Response(backend, chat, options, false, keysPreference, maxRetries).updates == []
    ensures Response(backend, chat, options, true, keysPreference, maxRetries).attempts
         == Response(backend, chat, options, false, keysPreference, maxRetries).attempts
    ensures Response(backend, chat, options, true, keysPreference, maxRetries).outcome.Threw?
        <==> Response(backend, chat, options, false, keysPreference, maxRetries).outcome.Threw?
    ensures Response(backend, chat, options, true, keysPreference, maxRetries).outcome.Threw? ==>
      Response(backend, chat, options, true, keysPreference, maxRetries).outcome
      == Response(backend, chat, options, false, keysPreference, maxRetries).outcome
    ensures Response(backend, chat, options, true, keysPreference, maxRetries).outcome.Returned? ==>
      Response(backend, chat, options, true, keysPreference, maxRetries).outcome == Returned(None)
  {
    if keysPreference.Some? {
      var keys := ParseKeys(keysPreference.value);
      var streamed := Passes(backend, chat, options, true, keys);
      var plain := Passes(backend, chat, options, false, keys);
      forall r: nat | r <= maxRetries
        ensures ExitsAlike(streamed(r).exit, plain(r).exit)
      {
        SameAskSamePass(backend, chat, options, keys, r);
      }
      RetryingStreamAndPlainAgree(streamed, plain, maxRetries);
    }
  }
}
