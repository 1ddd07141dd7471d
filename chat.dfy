/** The chat page state of `App` (index.tsx:578-690): the transcript, the input line and the
    files waiting to be sent, and the send operation that streams the model's answer into
    the transcript.

    Sending is split at its awaits the way the source is: `Submit` runs when the form is
    submitted, `Stream` covers the streaming call (`AppendChunk` once per fragment,
    `FailStream` when the request or the stream fails), and `EndSend` is the `finally`
    block. `Send` is the whole handler for a given stream outcome. */
module Chat {
  import opened Optional
  import opened JsString
  import opened Attachments
  import JsArray

  datatype Role = User | Ai

  /** A transcript entry. The source leaves `files` undefined on model messages; the empty
      list stands for that, which renders the same. */
  datatype Message = Message(role: Role, text: string, files: seq<string>)

  /** One part of the streamed request: an attached file (encoded by the browser) or the
      prompt text. */
  datatype Part = FilePart(file: Attachment) | TextPart(text: string)

  /** What the streaming call delivers: the fragments that arrived, in order, and whether the
      call then failed (before the first fragment, or in the middle of the stream). */
  datatype StreamOutcome = StreamOutcome(chunks: seq<string>, failed: bool)

  /** The pages the navigation bar switches between. */
  datatype Page = Jnx | ChatPage | Info | AiResponses | CoreCapabilities | SourcesAndLimitations

  const Greeting: Message := Message(Ai, "Greetings! Ask me anything.", [])
  const Apology: string := "Sorry, something went wrong. Please try again."

  /** The request parts for one message: every file in order, then the prompt text. */
  function RequestParts(files: seq<Attachment>, prompt: string): (parts: seq<Part>)
    ensures |parts| == |files| + 1
    ensures forall i :: 0 <= i < |files| ==> parts[i] == FilePart(files[i])
    ensures parts[|files|] == TextPart(prompt)
  {
    if files == [] then [TextPart(prompt)]
    else [FilePart(files[0])] + RequestParts(files[1..], prompt)
  }

  /** The text the model's message ends with: every fragment in order, or the apology when
      the call failed (whatever had arrived is discarded). */
  function ReplyText(outcome: StreamOutcome): (r: string) {
    if outcome.failed then Apology else Concat(outcome.chunks)
  }

  class App {
    var chatHistory: seq<Message>
    var userInput: string
    var files: seq<Attachment>
    var isLoading: bool
    var currentPage: Page

    /** The transcript is never empty: it is created holding the greeting, a send only
        appends to it or rewrites its last message, and clearing puts the greeting back. */
    ghost predicate Valid()
      reads this
    {
      |chatHistory| >= 1
    }

    /** The hooks' initial values: the greeting alone, on the JnX page. */
    constructor ()
      ensures Valid()
      ensures chatHistory == [Greeting] && userInput == "" && files == []
      ensures !isLoading && currentPage == Jnx
    {
      chatHistory := [Greeting];
      userInput := "";
      files := [];
      isLoading := false;
      currentPage := Jnx;
    }

    /** Typing into the input line. */
    method EditInput(value: string)
      modifies this`userInput
      ensures userInput == value
    {
      userInput := value;
    }

    /** Submitting the form. With a blank trimmed input and no files nothing changes and
        nothing is sent. Otherwise the user message (trimmed text, file names in order) and
        an empty model message are appended, the input and the files are cleared at once, and
        the request puts the files before the text. */
    method Submit() returns (request: Option<seq<Part>>)
      requires Valid()
      modifies this`chatHistory, this`userInput, this`files, this`isLoading
      ensures Valid()
      ensures request.None? <==> (Trim(old(userInput)) == "" && old(files) == [])
      ensures request.None? ==> unchanged(this)
      ensures request.Some? ==>
        && request.value == RequestParts(old(files), Trim(old(userInput)))
        && chatHistory == old(chatHistory)
                          + [Message(User, Trim(old(userInput)), Names(old(files))), Message(Ai, "", [])]
        && userInput == "" && files == [] && isLoading
    {
      var prompt := Trim(userInput);
      if prompt == "" && |files| == 0 {
        return None;
      }
      isLoading := true;
      chatHistory := chatHistory + [Message(User, prompt, Names(files)), Message(Ai, "", [])];
      var localFiles := files;
      userInput := "";
      files := [];
      request := Some(RequestParts(localFiles, prompt));
    }

    /** A streamed fragment arrives: it is appended to the text of the last message, which
        keeps its role and files; every other message is untouched. */
    method AppendChunk(chunk: string)
      requires Valid()
      modifies this`chatHistory
      ensures Valid()
      ensures var n := |old(chatHistory)|;
        chatHistory == old(chatHistory)[..n - 1] + [old(chatHistory)[n - 1].(text := old(chatHistory)[n - 1].text + chunk)]
    {
      var last := chatHistory[|chatHistory| - 1];
      chatHistory := chatHistory[..|chatHistory| - 1] + [last.(text := last.text + chunk)];
    }

    /** The request or the stream fails: the last message's text becomes the apology, the
        transcript keeps its length. */
    method FailStream()
      requires Valid()
      modifies this`chatHistory
      ensures Valid()
      ensures var n := |old(chatHistory)|;
        chatHistory == old(chatHistory)[..n - 1] + [old(chatHistory)[n - 1].(text := Apology)]
    {
      var last := chatHistory[|chatHistory| - 1];
      chatHistory := chatHistory[..|chatHistory| - 1] + [last.(text := Apology)];
    }

    /** The `finally` block: loading ends. */
    method EndSend()
      modifies this`isLoading
      ensures !isLoading
    {
      isLoading := false;
    }

    /** The `try`/`catch` around the streaming call, for one outcome: the empty model message
        that `Submit` appended ends up holding every fragment in arrival order, or the apology
        if the call failed; the messages before it are untouched. */
    method Stream(outcome: StreamOutcome)
      requires Valid() && chatHistory[|chatHistory| - 1] == Message(Ai, "", [])
      modifies this`chatHistory
      ensures var n := |old(chatHistory)|;
        chatHistory == old(chatHistory)[..n - 1] + [Message(Ai, ReplyText(outcome), [])]
    {
      ghost var before := chatHistory[..|chatHistory| - 1];
      assert chatHistory == before + [Message(Ai, Concat([]), [])];
      var i := 0;
      while i < |outcome.chunks|
        invariant 0 <= i <= |outcome.chunks|
        invariant chatHistory == before + [Message(Ai, Concat(outcome.chunks[..i]), [])]
      {
        AppendChunk(outcome.chunks[i]);
        assert (before + [Message(Ai, Concat(outcome.chunks[..i]), [])])[..|before|] == before;
        assert outcome.chunks[..i + 1][..i] == outcome.chunks[..i];
        i := i + 1;
      }
      assert outcome.chunks[..i] == outcome.chunks;
      if outcome.failed {
        assert (before + [Message(Ai, Concat(outcome.chunks), [])])[..|before|] == before;
        FailStream();
      }
    }

    /** `handleSendMessage` for one stream outcome. A blank submission changes nothing.
        Otherwise exactly two messages are appended: the user's, and the model's whose text
        is the fragments in arrival order, or the apology if the call failed. */
    method Send(outcome: StreamOutcome) returns (request: Option<seq<Part>>)
      requires Valid()
      modifies this`chatHistory, this`userInput, this`files, this`isLoading
      ensures Valid()
      ensures request.None? <==> (Trim(old(userInput)) == "" && old(files) == [])
      ensures request.None? ==> unchanged(this)
      ensures request.Some? ==>
        && request.value == RequestParts(old(files), Trim(old(userInput)))
        && chatHistory == old(chatHistory)
                          + [Message(User, Trim(old(userInput)), Names(old(files))),
                             Message(Ai, ReplyText(outcome), [])]
        && userInput == "" && files == [] && !isLoading
    {
      request := Submit();
      if request.None? {
        return;
      }
      ghost var sent := chatHistory;
      Stream(outcome);
      EndSend();
      assert sent[..|sent| - 1] == old(chatHistory) + [Message(User, Trim(old(userInput)), Names(old(files)))];
    }

    /** Picking files to attach: they go after those already waiting. When the input reports
        no file list nothing happens. */
    method AddFiles(picked: Option<seq<Attachment>>)
      modifies this`files
      ensures files == old(files) + picked.GetOr([])
    {
      if picked.Some? {
        files := files + picked.value;
      }
    }

    /** Removing a waiting file: exactly the one at `index` goes. */
    method RemoveFile(index: nat)
      modifies this`files
      ensures files == JsArray.WithoutIndex(old(files), index)
    {
      files := JsArray.WithoutIndex(files, index);
    }

    /** "Clear": the transcript is the greeting alone, and the input and waiting files are
        emptied. */
    method ClearChat()
      modifies this`chatHistory, this`userInput, this`files
      ensures Valid()
      ensures chatHistory == [Greeting] && userInput == "" && files == []
    {
      chatHistory := [Greeting];
      userInput := "";
      files := [];
    }

    /** A prompt handed over from the JnX page becomes the input line, and the chat page is
        shown. */
    method CopyToChat(prompt: string)
      modifies this`userInput, this`currentPage
      ensures userInput == prompt && currentPage == ChatPage
    {
      userInput := prompt;
      currentPage := ChatPage;
    }
  }
}
