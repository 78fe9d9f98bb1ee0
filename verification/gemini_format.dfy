/**
 * The Gemini conversation formatter: every chat message becomes a Gemini message with a
 * role ("user" or "model") and a list of parts, files being read and handed to the
 * library's parts builder; the last formatted message is then split off as the query.
 * Reading a file and building parts are oracles supplied by the caller.
 */
module GeminiChat {
  import opened Wrappers

  newtype byte = x: int | 0 <= x < 256

  /** A chat message as the rest of the extension stores it: `files` is absent or a list of paths. */
  datatype Message = Message(role: string, content: string, files: Option<seq<string>>)

  /** The two roles Gemini knows. */
  datatype Role = User | Model

  /** `{ filePath, buffer }`: a path paired with the bytes read from it. */
  datatype FileUpload = FileUpload(filePath: string, buffer: seq<byte>)

  /** One element of the array handed to the parts builder: the text, or a file upload. */
  datatype PartInput = TextInput(text: string) | UploadInput(upload: FileUpload)

  /** A Gemini message part: `{ text }`, or a file the library inlined or uploaded. */
  datatype Part = TextPart(text: string) | MediaPart(mimeType: string, reference: string)

  datatype GeminiMessage = GeminiMessage(role: Role, parts: seq<Part>)

  /** One Gemini client: created for one API key (its position in the key list) on one
      attempt (the retries still left). The oracles may behave differently for each. */
  datatype Client = Client(apiKey: string, keyIndex: nat, retriesLeft: nat)

  /** What formatting needs from the outside world: reading a file (None when the read
      throws) and the library's parts builder (None when it throws). */
  datatype Environment = Environment(
    readFile: string -> Option<seq<byte>>,
    messageToParts: (seq<PartInput>, Client) -> Option<seq<Part>>)

  datatype FormatError = FileUnreadable(path: string) | PartsRejected

  /** The history to start the chat with and the query to send; the query is absent
      (`undefined`) for an empty chat. */
  datatype FormattedChat = FormattedChat(history: seq<GeminiMessage>, query: Option<GeminiMessage>)

  /** Gemini's role for a chat role: only "user" is a user, everything else is the model. */
  function GeminiRole(role: string): (r: Role)
    ensures r == User <==> role == "user"
  {
    if role == "user" then User else Model
  }

  predicate HasFiles(m: Message)
  {
    m.files.Some? && |m.files.value| > 0
  }

  /** Reads the first `n` files in order; the first one that cannot be read is the error. */
  function ReadUploads(env: Environment, files: seq<string>, n: nat): Result<seq<FileUpload>, FormatError>
    requires n <= |files|
  {
    if n == 0 then Ok([])
    else
      match ReadUploads(env, files, n - 1)
      case Err(e) => Err(e)
      case Ok(uploads) =>
        var path := files[n - 1];
        match env.readFile(path)
        case None => Err(FileUnreadable(path))
        case Some(bytes) => Ok(uploads + [FileUpload(path, bytes)])
  }

  /** The array handed to the parts builder: the content first, then one upload per file. */
  function PartsInput(content: string, uploads: seq<FileUpload>): (inputs: seq<PartInput>)
    ensures |inputs| == |uploads| + 1 && inputs[0] == TextInput(content)
    ensures forall k :: 0 <= k < |uploads| ==> inputs[k + 1] == UploadInput(uploads[k])
  {
    [TextInput(content)] + seq(|uploads|, k requires 0 <= k < |uploads| => UploadInput(uploads[k]))
  }

  /** The parts of one message: a single text part when it has no files, otherwise what the
      parts builder makes of the content and the uploads. */
  function MessageParts(env: Environment, client: Client, m: Message): Result<seq<Part>, FormatError>
  {
    if HasFiles(m) then
      match ReadUploads(env, m.files.value, |m.files.value|)
      case Err(e) => Err(e)
      case Ok(uploads) =>
        match env.messageToParts(PartsInput(m.content, uploads), client)
        case None => Err(PartsRejected)
        case Some(parts) => Ok(parts)
    else Ok([TextPart(m.content)])
  }

  function FormatMessage(env: Environment, client: Client, m: Message): Result<GeminiMessage, FormatError>
  {
    match MessageParts(env, client, m)
    case Err(e) => Err(e)
    case Ok(parts) => Ok(GeminiMessage(GeminiRole(m.role), parts))
  }

  /** The first `n` messages formatted in order; the first message that fails is the error. */
  function FormatFirst(env: Environment, client: Client, chat: seq<Message>, n: nat): Result<seq<GeminiMessage>, FormatError>
    requires n <= |chat|
  {
    if n == 0 then Ok([])
    else
      match FormatFirst(env, client, chat, n - 1)
      case Err(e) => Err(e)
      case Ok(formatted) =>
        match FormatMessage(env, client, chat[n - 1])
        case Err(e) => Err(e)
        case Ok(g) => Ok(formatted + [g])
  }

  /** The formatted chat with its last message popped off as the query. */
  function FormatChat(env: Environment, client: Client, chat: seq<Message>): Result<FormattedChat, FormatError>
  {
    match FormatFirst(env, client, chat, |chat|)
    case Err(e) => Err(e)
    case Ok(formatted) =>
      if |formatted| == 0 then Ok(FormattedChat([], None))
      else Ok(FormattedChat(formatted[..|formatted| - 1], Some(formatted[|formatted| - 1])))
  }

  /** `GeminiFormatChat`: pushes each formatted message, then pops the last one. */
  method GeminiFormatChat(env: Environment, client: Client, chat: seq<Message>)
    returns (r: Result<FormattedChat, FormatError>)
    ensures r == FormatChat(env, client, chat)
  {
    var formattedChat: seq<GeminiMessage> := [];
    for i := 0 to |chat|
      invariant FormatFirst(env, client, chat, i) == Ok(formattedChat)
    {
      var message := chat[i];
      var role := GeminiRole(message.role);
      var geminiMessageParts: seq<Part>;
      if message.files.Some? && |message.files.value| > 0 {
        var files := message.files.value;
        var arr := [TextInput(message.content)];
        ghost var uploads: seq<FileUpload> := [];
        for j := 0 to |files|
          invariant ReadUploads(env, files, j) == Ok(uploads)
          invariant arr == PartsInput(message.content, uploads)
        {
          var buffer := env.readFile(files[j]);
          if buffer.None? {
            r := Err(FileUnreadable(files[j]));
            ReadFailureIsKept(env, files, j + 1);
            FailureIsKept(env, client, chat, i + 1);
            return;
          }
          var fileUpload := FileUpload(files[j], buffer.value);
          arr := arr + [UploadInput(fileUpload)];
          uploads := uploads + [fileUpload];
        }
        var parts := env.messageToParts(arr, client);
        if parts.None? {
          r := Err(PartsRejected);
          FailureIsKept(env, client, chat, i + 1);
          return;
        }
        geminiMessageParts := parts.value;
      } else {
        geminiMessageParts := [TextPart(message.content)];
      }
      assert MessageParts(env, client, message) == Ok(geminiMessageParts);
      formattedChat := formattedChat + [GeminiMessage(role, geminiMessageParts)];
    }
    if |formattedChat| == 0 {
      r := Ok(FormattedChat([], None));
    } else {
      var lastMessage := formattedChat[|formattedChat| - 1];
      formattedChat := formattedChat[..|formattedChat| - 1];
      r := Ok(FormattedChat(formattedChat, Some(lastMessage)));
    }
  }

  /** Once the first `n` messages fail to format, the whole chat fails with the same error. */
  lemma {:induction false} FailureIsKept(env: Environment, client: Client, chat: seq<Message>, n: nat)
    requires n <= |chat| && FormatFirst(env, client, chat, n).Err?
    ensures FormatFirst(env, client, chat, |chat|) == FormatFirst(env, client, chat, n)
    decreases |chat| - n
  {
    if n < |chat| {
      FailureIsKept(env, client, chat, n + 1);
    }
  }

  /** Once the first `n` files cannot be read, reading all of them fails with the same error. */
  lemma {:induction false} ReadFailureIsKept(env: Environment, files: seq<string>, n: nat)
    requires n <= |files| && ReadUploads(env, files, n).Err?
    ensures ReadUploads(env, files, |files|) == ReadUploads(env, files, n)
    decreases |files| - n
  {
    if n < |files| {
      ReadFailureIsKept(env, files, n + 1);
    }
  }

  /** Formatting the first `n` messages succeeds exactly when each of them formats, and then
      keeps the order: the i-th formatted message is the i-th message formatted. */
  lemma {:induction false} FormatAllPointwise(env: Environment, client: Client, chat: seq<Message>, n: nat)
    requires n <= |chat|
    ensures FormatFirst(env, client, chat, n).Ok? <==> forall i :: 0 <= i < n ==> FormatMessage(env, client, chat[i]).Ok?
    ensures FormatFirst(env, client, chat, n).Ok? ==>
      var formatted := FormatFirst(env, client, chat, n).value;
      |formatted| == n && forall i :: 0 <= i < n ==> formatted[i] == FormatMessage(env, client, chat[i]).value
  {
    if n > 0 {
      FormatAllPointwise(env, client, chat, n - 1);
    }
  }

  /** Message `k` is the first of the chat that fails to format, and it fails with `e`. */
  predicate FailsFirstAt(env: Environment, client: Client, chat: seq<Message>, k: int, e: FormatError)
  {
    && 0 <= k < |chat|
    && FormatMessage(env, client, chat[k]) == Err(e)
    && forall j :: 0 <= j < k ==> FormatMessage(env, client, chat[j]).Ok?
  }

  /** A failed formatting of the first `n` messages reports the error of the first of them
      that fails. */
  lemma {:induction false} FormatAllFirstError(env: Environment, client: Client, chat: seq<Message>, n: nat)
    requires n <= |chat| && FormatFirst(env, client, chat, n).Err?
    ensures exists k :: k < n && FailsFirstAt(env, client, chat, k, FormatFirst(env, client, chat, n).error)
  {
    if FormatFirst(env, client, chat, n - 1).Err? {
      FormatAllFirstError(env, client, chat, n - 1);
      var k :| k < n - 1 && FailsFirstAt(env, client, chat, k, FormatFirst(env, client, chat, n - 1).error);
      assert FailsFirstAt(env, client, chat, k, FormatFirst(env, client, chat, n).error);
    } else {
      FormatAllPointwise(env, client, chat, n - 1);
      assert FailsFirstAt(env, client, chat, n - 1, FormatFirst(env, client, chat, n).error);
    }
  }

  /** For a chat of N >= 1 messages the history holds the first N - 1 formatted messages in
      order and the query is the N-th one formatted. */
  lemma HistoryAndQuery(env: Environment, client: Client, chat: seq<Message>)
    requires |chat| >= 1 && FormatChat(env, client, chat).Ok?
    ensures var f := FormatChat(env, client, chat).value;
      && |f.history| == |chat| - 1
      && (forall i :: 0 <= i < |chat| ==> FormatMessage(env, client, chat[i]).Ok?)
      && (forall i :: 0 <= i < |chat| - 1 ==> f.history[i] == FormatMessage(env, client, chat[i]).value)
      && f.query == Some(FormatMessage(env, client, chat[|chat| - 1]).value)
  {
    FormatAllPointwise(env, client, chat, |chat|);
  }

  /** An empty chat formats to an empty history and no query. */
  lemma EmptyChat(env: Environment, client: Client, chat: seq<Message>)
    requires |chat| == 0
    ensures FormatChat(env, client, chat) == Ok(FormattedChat([], None))
  {
  }

  /** A message with no files, or an empty files list, becomes exactly one text part with
      its content, under its Gemini role. */
  lemma TextOnlyMessage(env: Environment, client: Client, m: Message)
    requires m.files.None? || |m.files.value| == 0
    ensures FormatMessage(env, client, m) == Ok(GeminiMessage(GeminiRole(m.role), [TextPart(m.content)]))
  {
  }

  /** Reading the first `n` files succeeds exactly when each of them can be read, and then
      pairs each path, in file order, with its bytes. */
  lemma {:induction false} UploadsInFileOrder(env: Environment, files: seq<string>, n: nat)
    requires n <= |files|
    ensures ReadUploads(env, files, n).Ok? <==> forall k :: 0 <= k < n ==> env.readFile(files[k]).Some?
    ensures ReadUploads(env, files, n).Ok? ==>
      var uploads := ReadUploads(env, files, n).value;
      |uploads| == n &&
      forall k :: 0 <= k < n ==> uploads[k] == FileUpload(files[k], env.readFile(files[k]).value)
  {
    if n > 0 {
      UploadsInFileOrder(env, files, n - 1);
    }
  }

  /** A message with files hands the content and then one upload per file, in file order,
      to the parts builder, and its parts are what the builder returns. */
  lemma FilesGoToPartsBuilder(env: Environment, client: Client, m: Message)
    requires HasFiles(m)
    requires forall k :: 0 <= k < |m.files.value| ==> env.readFile(m.files.value[k]).Some?
    ensures var uploads := ReadUploads(env, m.files.value, |m.files.value|);
      && uploads.Ok?
      && |uploads.value| == |m.files.value|
      && (forall k :: 0 <= k < |m.files.value| ==>
          PartsInput(m.content, uploads.value)[k + 1] == UploadInput(FileUpload(m.files.value[k], env.readFile(m.files.value[k]).value)))
      && MessageParts(env, client, m) ==
        match env.messageToParts(PartsInput(m.content, uploads.value), client)
        case None => Err(PartsRejected)
        case Some(parts) => Ok(parts)
  {
    UploadsInFileOrder(env, m.files.value, |m.files.value|);
  }
}
