/** The hand-off between the two pages (index.tsx:431-435 with index.tsx:687-690), and client
    walks through the session: a generation handed to the chat, a refinement retried after a
    failure, and a copy repeated. */
module Handoff {
  import opened Optional
  import opened JsString
  import opened Improver
  import opened Chat

  /** "Use in Chat" on the JnX page: a non-empty current prompt becomes the chat input and the
      chat page is shown; the session is not touched. An empty current prompt does nothing. */
  method UseInChat(session: Session, app: App)
    modifies app`userInput, app`currentPage
    ensures session.CurrentPrompt() == "" ==> unchanged(app)
    ensures session.CurrentPrompt() != "" ==>
      app.userInput == session.CurrentPrompt() && app.currentPage == ChatPage
    ensures app.chatHistory == old(app.chatHistory) && app.files == old(app.files)
  {
    var handoff := session.UseInChat();
    if handoff.Some? {
      app.CopyToChat(handoff.value);
    }
  }

  /** End to end: "write a story about a dragon" is improved, and the reply's prompt and two
      questions are stored as they came; handing the prompt to the chat then fills the input
      line and leaves the session where it was. */
  method DragonStory() returns (stage: Stage, questions: seq<string>, chatInput: string, stageAfter: Stage)
    ensures stage == Questions && stageAfter == Questions
    ensures questions == ["What tone?", "Who is the protagonist?"]
    ensures chatInput == "Write a 500-word fantasy story..."
  {
    var s := new Session();
    s.EditOriginalPrompt("write a story about a dragon");
    assert Trim("write a story about a dragon") != "" by {
      TrimBlank("write a story about a dragon");
      assert !IsWhitespace("write a story about a dragon"[0]);
    }
    var reply := Generated("Write a 500-word fantasy story...",
                           Some(["What tone?", "Who is the protagonist?"]));
    var sent := s.Generate(reply);
    stage, questions := s.stage, s.questions;
    var app := new App();
    UseInChat(s, app);
    chatInput, stageAfter := app.userInput, s.stage;
  }

  /** A failed refinement keeps the answers: after answering and failing, the session is back
      at the questions with the same answer, and a retry sends the same context. */
  method RefineRetry(answer: string, r1: RefineReply) returns (first: RefineRequest, second: RefineRequest)
    requires r1.RefineFailed?
    ensures first == second
  {
    var s := new Session();
    s.EditOriginalPrompt("x");
    assert Trim("x") == "x" by { TrimUntouched("x"); }
    var sent := s.Generate(Generated("X", Some(["Q?"])));
    s.ChangeAnswerText(0, answer);
    first := s.Refine(r1);
    assert s.stage == Questions;
    second := s.Refine(Refined("final"));
  }

  /** Copying twice writes the same text, whatever the clipboard answered the first time:
      a copy changes only the indicator, never the prompt it reads. */
  method CopyTwice(s: Session, firstAccepted: bool, secondAccepted: bool)
      returns (first: Option<string>, second: Option<string>)
    modifies s`copySuccess
    ensures first == second
  {
    first := s.Copy(firstAccepted);
    second := s.Copy(secondAccepted);
  }
}
