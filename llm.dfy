/** The server's chat wrapper around the language model (`LLM`): it keeps the
    whole conversation and hands all of it to the model on every call. The
    model call itself is a parameter. */
module Llm {
  import opened Wrappers
  import opened Text

  /** One entry of the conversation: `{"role", "content"}`. */
  datatype ChatMessage = ChatMessage(role: string, content: string)

  /** A file handed to `chat`; a key that is missing raises `KeyError`. */
  datatype ChatFile = ChatFile(filename: Option<string>, content: Option<string>)

  /** What the model call did with the conversation it was given. */
  datatype ModelReply = Answered(message: ChatMessage) | ModelRaised(error: string)

  predicate Complete(f: ChatFile) {
    f.filename.Some? && f.content.Some?
  }

  predicate AllComplete(files: seq<ChatFile>) {
    forall k :: 0 <= k < |files| ==> Complete(files[k])
  }

  /** The text one file adds to the user's input. */
  function FileSuffix(f: ChatFile): string
    requires Complete(f)
  {
    " Datei: " + f.filename.value + ", Code: " + f.content.value
  }

  /** The user's input with every file appended in order. */
  function Augmented(input: string, files: seq<ChatFile>): string
    requires AllComplete(files)
  {
    if files == [] then input
    else Augmented(input, files[..|files| - 1]) + FileSuffix(files[|files| - 1])
  }

  /** The augmented input starts with the input and grows by exactly the
      files' texts. */
  lemma {:induction false} AugmentedExtends(input: string, files: seq<ChatFile>)
    requires AllComplete(files)
    ensures StartsWith(Augmented(input, files), input)
    ensures |Augmented(input, files)| == |input| + SuffixLength(files)
  {
    if files != [] {
      AugmentedExtends(input, files[..|files| - 1]);
      var shorter := Augmented(input, files[..|files| - 1]);
      assert Augmented(input, files)[..|shorter|] == shorter;
      assert shorter[..|input|] == input;
    }
  }

  function SuffixLength(files: seq<ChatFile>): nat
    requires AllComplete(files)
  {
    if files == [] then 0 else SuffixLength(files[..|files| - 1]) + |FileSuffix(files[|files| - 1])|
  }

  /** Appending one more file appends exactly its text. */
  lemma AugmentedAppend(input: string, files: seq<ChatFile>, f: ChatFile)
    requires AllComplete(files)
    requires Complete(f)
    ensures Augmented(input, files + [f]) == Augmented(input, files) + FileSuffix(f)
  {
    assert (files + [f])[..|files|] == files;
  }

  class LLM {
    /** The conversation so far. */
    var messages: seq<ChatMessage>

    /** A new wrapper starts with an empty conversation. */
    constructor ()
      ensures messages == []
    {
      messages := [];
    }

    /** `chat`: appends the user's message (with the files' texts) to the
        conversation, hands the whole conversation to the model, appends the
        model's message and returns its content. A file missing a key raises
        before anything is appended; a model that raises leaves the user's
        message appended without an answer. */
    method Chat(input: string, files: Option<seq<ChatFile>>, model: seq<ChatMessage> -> ModelReply)
      returns (r: Result<string, string>)
      modifies this
      ensures files.Some? && !AllComplete(files.value) ==> r == Err("KeyError") && messages == old(messages)
      ensures files.None? || AllComplete(files.value) ==>
                var user := ChatMessage("user", if files.None? then input else Augmented(input, files.value));
                match model(old(messages) + [user])
                case Answered(reply) => r == Ok(reply.content) && messages == old(messages) + [user, reply]
                case ModelRaised(e) => r == Err(e) && messages == old(messages) + [user]
    {
      var text := input;
      if files.Some? {
        var i := 0;
        while i < |files.value|
          invariant 0 <= i <= |files.value|
          invariant forall k :: 0 <= k < i ==> Complete(files.value[k])
          invariant text == Augmented(input, files.value[..i])
          invariant messages == old(messages)
        {
          var f := files.value[i];
          if !Complete(f) {
            return Err("KeyError");
          }
          AugmentedAppend(input, files.value[..i], f);
          assert files.value[..i + 1] == files.value[..i] + [f];
          text := text + FileSuffix(f);
          i := i + 1;
        }
        assert files.value[..i] == files.value;
      }
      messages := messages + [ChatMessage("user", text)];
      match model(messages) {
        case Answered(reply) =>
          messages := messages + [reply];
          r := Ok(reply.content);
        case ModelRaised(e) =>
          r := Err(e);
      }
    }
  }

  /** Two answered calls on a fresh wrapper leave four messages, and the
      second call's model sees the first exchange before its own question. */
  method TwoTurns(llm: LLM, first: string, second: string, model: seq<ChatMessage> -> ModelReply)
    requires llm.messages == []
    requires forall h :: model(h).Answered?
    modifies llm
    ensures |llm.messages| == 4
    ensures llm.messages[0] == ChatMessage("user", first) && llm.messages[2] == ChatMessage("user", second)
    ensures llm.messages[3] == model(llm.messages[..3]).message
  {
    var r1 := llm.Chat(first, None, model);
    var r2 := llm.Chat(second, None, model);
    assert llm.messages[..3] == llm.messages[..2] + [ChatMessage("user", second)];
  }
}
