/** Validation of a received frame, prompt construction from the message and
    its attached files, the session-to-connection table, and the typed reply
    frames of the server. */
module MessageHandling {
  import opened Wrappers
  import opened Text
  import opened ServerConfig
  import opened Sessions

  /** One element of the frame's "files" list: not a JSON object, or an object
      whose "filename" and "content" keys may be missing. */
  datatype FileEntry = NotADict | FileDict(filename: Option<string>, content: Option<string>)

  /** The frame's "files" value: absent, present but not a list, or a list. */
  datatype FilesField = NoFiles | NotAList | FileList(entries: seq<FileEntry>)

  /** A decoded client frame `{message?, files?}`. */
  datatype Frame = Frame(message: Option<string>, files: FilesField)

  datatype FrameType = Error | Ack | Response

  /** A frame the server sends: `{type, message, session_id}`. */
  datatype OutFrame = OutFrame(kind: FrameType, message: string, sessionId: string)

  /** What the chat backend's `generate_response` did: returned a reply whose
      "message" is `message`, or raised. */
  datatype BackendReply = Replied(message: string) | Raised(error: string)

  /** A live client connection, known by identity only. */
  datatype Connection = Connection(handle: nat)

  /** The value of the "type" key of a sent frame. */
  function TypeTag(kind: FrameType): (tag: string)
    ensures tag in {"error", "ack", "response"}
  {
    match kind
    case Error => "error"
    case Ack => "ack"
    case Response => "response"
  }

  /** Reads a "type" value back as a frame kind; any other text is no kind. */
  function KindOf(tag: string): Option<FrameType> {
    if tag == "error" then Some(Error)
    else if tag == "ack" then Some(Ack)
    else if tag == "response" then Some(Response)
    else None
  }

  /** The type tag identifies the frame kind: reading it back gives the
      kind it was written from, and a text that is not one of the three tags
      names no kind. */
  lemma TypeTagRoundTrip(kind: FrameType, tag: string)
    ensures KindOf(TypeTag(kind)) == Some(kind)
    ensures KindOf(tag).Some? <==> tag in {"error", "ack", "response"}
    ensures KindOf(tag).Some? ==> TypeTag(KindOf(tag).value) == tag
  {
  }

  /** The JSON object a sent frame serialises. */
  function WireFields(f: OutFrame): (fields: map<string, string>)
    ensures fields.Keys == {"type", "message", "session_id"}
    ensures fields["type"] == TypeTag(f.kind) && fields["message"] == f.message
    ensures fields["session_id"] == f.sessionId
  {
    map["type" := TypeTag(f.kind), "message" := f.message, "session_id" := f.sessionId]
  }

  /** The frame `send_error` sends. */
  function ErrorFrame(message: string, sessionId: string): (f: OutFrame)
    ensures WireFields(f)["type"] == "error"
    ensures WireFields(f)["message"] == message && WireFields(f)["session_id"] == sessionId
  {
    OutFrame(Error, message, sessionId)
  }

  /** The frame `send_acknowledgement` sends. */
  function AckFrame(message: string, sessionId: string): (f: OutFrame)
    ensures WireFields(f)["type"] == "ack"
    ensures WireFields(f)["message"] == message && WireFields(f)["session_id"] == sessionId
  {
    OutFrame(Ack, message, sessionId)
  }

  /** The frame carrying the backend's reply. */
  function ResponseFrame(message: string, sessionId: string): (f: OutFrame)
    ensures WireFields(f)["type"] == "response"
    ensures WireFields(f)["message"] == message && WireFields(f)["session_id"] == sessionId
  {
    OutFrame(Response, message, sessionId)
  }

  /** The extension of a file name: the text after its last ".", or "" when
      the name has no "." at all. */
  function Extension(filename: string): string {
    var afterDot := AfterLast(filename, '.');
    if |afterDot| < |filename| then afterDot else ""
  }

  /** The extension holds no "."; it is "" for a name without "."; otherwise
      the name ends with "." followed by the extension. */
  lemma ExtensionSpec(filename: string)
    ensures '.' !in Extension(filename)
    ensures '.' !in filename ==> Extension(filename) == ""
    ensures '.' in filename ==> var ext := Extension(filename);
              |ext| < |filename| && filename[|filename| - |ext| - 1..] == "." + ext
  {
    AfterLastSpec(filename, '.');
  }

  /** The fenced block one attached file contributes to the prompt. */
  function FileBlock(filename: string, content: string): string {
    "File: " + filename + "\n```" + LanguageFor(Extension(filename)) + "\n" + content + "\n```\n\n"
  }

  /** An entry is used only when it is an object with both keys. */
  predicate IsValidEntry(e: FileEntry) {
    e.FileDict? && e.filename.Some? && e.content.Some?
  }

  /** What one entry contributes: its block when valid, nothing otherwise. */
  function EntryText(e: FileEntry): string {
    if IsValidEntry(e) then FileBlock(e.filename.value, e.content.value) else ""
  }

  /** The blocks of all valid entries, in list order. */
  function FileBlocks(entries: seq<FileEntry>): string {
    if entries == [] then "" else FileBlocks(entries[..|entries| - 1]) + EntryText(entries[|entries| - 1])
  }

  /** Whether the header and file blocks are added: "files" is a non-empty list. */
  predicate HasFiles(files: FilesField) {
    files.FileList? && files.entries != []
  }

  /** The prompt saved to history and sent to the backend. */
  function PromptOf(message: string, files: FilesField): string {
    if HasFiles(files) then message + PromptFileHeader + FileBlocks(files.entries) else message
  }

  /** The prompt built as `process_message` builds it: start from the message,
      add the header once, then one block per valid entry. */
  method FormatPrompt(message: string, files: FilesField) returns (prompt: string)
    ensures prompt == PromptOf(message, files)
  {
    prompt := message;
    if HasFiles(files) {
      var entries := files.entries;
      prompt := prompt + PromptFileHeader;
      var i := 0;
      while i < |entries|
        invariant 0 <= i <= |entries|
        invariant prompt == message + PromptFileHeader + FileBlocks(entries[..i])
      {
        var e := entries[i];
        assert entries[..i + 1][..i] == entries[..i];
        ConcatAssoc(message + PromptFileHeader, FileBlocks(entries[..i]), EntryText(e));
        if IsValidEntry(e) {
          prompt := prompt + FileBlock(e.filename.value, e.content.value);
        }
        i := i + 1;
      }
      assert entries[..i] == entries;
    }
  }

  /** Blocks of a concatenation are the concatenation of the blocks: files
      keep their order and each contributes independently. */
  lemma {:induction false} FileBlocksAppend(a: seq<FileEntry>, b: seq<FileEntry>)
    ensures FileBlocks(a + b) == FileBlocks(a) + FileBlocks(b)
    decreases |b|
  {
    if b == [] {
      assert a + b == a;
    } else {
      var b', last := b[..|b| - 1], b[|b| - 1];
      assert (a + b)[..|a + b| - 1] == a + b';
      assert (a + b)[|a + b| - 1] == last;
      FileBlocksAppend(a, b');
      ConcatAssoc(FileBlocks(a), FileBlocks(b'), EntryText(last));
    }
  }

  /** A list with no valid entry adds the header and nothing else. */
  lemma {:induction false} InvalidEntriesOnlyHeader(message: string, entries: seq<FileEntry>)
    requires entries != []
    requires forall i :: 0 <= i < |entries| ==> !IsValidEntry(entries[i])
    ensures PromptOf(message, FileList(entries)) == message + PromptFileHeader
  {
    NoValidNoBlocks(entries);
  }

  lemma {:induction false} NoValidNoBlocks(entries: seq<FileEntry>)
    requires forall i :: 0 <= i < |entries| ==> !IsValidEntry(entries[i])
    ensures FileBlocks(entries) == ""
    decreases |entries|
  {
    if entries != [] {
      NoValidNoBlocks(entries[..|entries| - 1]);
    }
  }

  /** The extension of `stem.ext` is `ext` whenever `ext` holds no dot,
      whatever dots the stem holds. */
  lemma ExtensionOfName(stem: string, ext: string)
    requires '.' !in ext
    ensures Extension(stem + "." + ext) == ext
  {
    AfterLastOfSuffix(stem, '.', ext);
  }

  /** A file named `stem.ext` (no dot in `ext`) renders as "File: name", a
      fence tagged with the table's language for `ext` (bare when `ext` is
      not in the table), its content and a closing fence. */
  lemma FenceOfName(stem: string, ext: string, content: string)
    requires '.' !in ext
    ensures var name := stem + "." + ext;
      EntryText(FileDict(Some(name), Some(content)))
      == "File: " + name + "\n```" + (if ext in LanguageExtensions then LanguageExtensions[ext] else "")
         + "\n" + content + "\n```\n\n"
  {
    ExtensionOfName(stem, ext);
  }

  /** A file name without a dot renders with a bare fence. */
  lemma BareFenceWithoutDot(name: string, content: string)
    requires '.' !in name
    ensures EntryText(FileDict(Some(name), Some(content))) == "File: " + name + "\n```\n" + content + "\n```\n\n"
  {
    ExtensionSpec(name);
    assert "" !in LanguageExtensions;
  }

  /** More files extend the prompt at its end: the prompt for the list
      `a + b` is the prompt for `a` followed by the blocks of `b`, so blocks
      keep the list's order. */
  lemma PromptAppendsFiles(message: string, a: seq<FileEntry>, b: seq<FileEntry>)
    requires a != []
    ensures PromptOf(message, FileList(a + b)) == PromptOf(message, FileList(a)) + FileBlocks(b)
  {
    FileBlocksAppend(a, b);
    ConcatAssoc(message + PromptFileHeader, FileBlocks(a), FileBlocks(b));
  }

  /** The reply frames `process_message` sends for a decoded frame, given
      whether the session is known and what the backend does with the prompt. */
  function ProcessReply(data: Frame, sessionId: string, known: bool,
                        backend: (string, string) -> BackendReply): (sent: seq<OutFrame>)
    ensures |sent| == 1
    ensures data.message.None? ==> sent[0] == ErrorFrame(ErrorMessageRequired, sessionId)
    ensures data.message.Some? && !known ==> sent[0] == ErrorFrame(ErrorInternal, sessionId)
    ensures sent[0].sessionId == sessionId
  {
    if data.message.None? then [ErrorFrame(ErrorMessageRequired, sessionId)]
    else if !known then [ErrorFrame(ErrorInternal, sessionId)]
    else match backend(sessionId, PromptOf(data.message.value, data.files))
      case Replied(m) => [ResponseFrame(m, sessionId)]
      case Raised(_) => [ErrorFrame(ErrorInternal, sessionId)]
  }

  class MessageHandler {
    const sessionManager: SessionManager
    /** Session id to the connection a reply for that session goes to. */
    var activeConnections: map<string, Connection>

    constructor (sessionManager: SessionManager)
      ensures this.sessionManager == sessionManager && activeConnections == map[]
    {
      this.sessionManager := sessionManager;
      activeConnections := map[];
    }

    /** Sets (or overwrites) the entry for `sessionId`. */
    method RegisterConnection(sessionId: string, ws: Connection)
      modifies this
      ensures activeConnections == old(activeConnections)[sessionId := ws]
    {
      activeConnections := activeConnections[sessionId := ws];
    }

    /** Removes the entry for `sessionId`; an absent id is left as it is. */
    method UnregisterConnection(sessionId: string)
      modifies this
      ensures activeConnections == old(activeConnections) - {sessionId}
      ensures sessionId !in old(activeConnections) ==> activeConnections == old(activeConnections)
    {
      if sessionId in activeConnections {
        activeConnections := activeConnections - {sessionId};
      }
    }

    /** Validates `data`, saves its prompt to the session's history, registers
        the connection and asks the backend; every failure inside becomes an
        "Internal server error" frame. Returns the frames sent on `ws`. */
    method ProcessMessage(ws: Connection, sessionId: string, data: Frame,
                          backend: (string, string) -> BackendReply)
      returns (sent: seq<OutFrame>)
      requires sessionManager.Valid()
      modifies this, sessionManager
      ensures sessionManager.Valid()
      ensures sent == ProcessReply(data, sessionId, sessionId in old(sessionManager.sessions), backend)
      ensures data.message.None? || sessionId !in old(sessionManager.sessions) ==>
                sessionManager.sessions == old(sessionManager.sessions) && activeConnections == old(activeConnections)
      ensures data.message.Some? && sessionId in old(sessionManager.sessions) ==>
                && activeConnections == old(activeConnections)[sessionId := ws]
                && sessionManager.sessions == old(sessionManager.sessions)[sessionId :=
                     Session(sessionId, old(sessionManager.sessions)[sessionId].messages
                                        + [PromptOf(data.message.value, data.files)])]
    {
      if data.message.None? {
        sent := [ErrorFrame(ErrorMessageRequired, sessionId)];
        return;
      }
      var prompt := FormatPrompt(data.message.value, data.files);
      var saved := sessionManager.SaveMessage(sessionId, prompt);
      if saved.Fail? {
        sent := [ErrorFrame(ErrorInternal, sessionId)];
        return;
      }
      RegisterConnection(sessionId, ws);
      match backend(sessionId, prompt)
      case Replied(m) =>
        sent := [ResponseFrame(m, sessionId)];
      case Raised(_) =>
        sent := [ErrorFrame(ErrorInternal, sessionId)];
    }
  }
}
