/** The prompt-improvement session of the JnX page (index.tsx:257-435): a rough prompt is
    rewritten by the generation service together with clarifying questions, the user
    answers them, and a second call turns everything into a final prompt.

    Each handler that awaits the service is split at its await into a `Begin` method (what
    happens when the user clicks) and a `Complete` method (what happens when the reply or
    the failure arrives); the un-split handler is their composition. The service itself is
    a parameter: its reply, or its failure. */
module Improver {
  import opened Optional
  import opened JsString
  import opened Attachments
  import opened Refinement
  import JsArray

  datatype Stage = Initial | Questions | Final

  /** What the structured call yields: the parsed reply, whose question list may be missing,
      or a failure (the call rejected, or its text was not valid JSON). */
  datatype GenerateReply = Generated(improvedPrompt: string, questions: Option<seq<string>>) | GenerateFailed

  /** What the free-form refine call yields. */
  datatype RefineReply = Refined(text: string) | RefineFailed

  /** The inputs the refine request is built from: the base prompt as it stands (the user may
      have edited it) and the answers context. The surrounding template prose is left out. */
  datatype RefineRequest = RefineRequest(basePrompt: string, answersContext: string)

  const GenerateError: string := "Sorry, something went wrong. Please try again."
  const RefineError: string := "Sorry, something went wrong during refinement. Please try again."
  const CopiedLabel: string := "Copied!"
  const CopyFailedLabel: string := "Failed to copy"

  /** The state the source keeps in `useState` hooks. */
  class Session {
    var stage: Stage
    var originalPrompt: string
    var firstImprovedPrompt: string
    var questions: seq<string>
    var answers: Answers
    var finalPrompt: string
    var isLoading: bool
    var copySuccess: string
    var error: string

    /** The hooks' initial values. */
    constructor ()
      ensures stage == Initial && originalPrompt == "" && firstImprovedPrompt == ""
      ensures questions == [] && answers == map[] && finalPrompt == ""
      ensures !isLoading && copySuccess == "" && error == ""
    {
      stage, originalPrompt, firstImprovedPrompt := Initial, "", "";
      questions, answers, finalPrompt := [], map[], "";
      isLoading, copySuccess, error := false, "", "";
    }

    /** The prompt copy and use-in-chat act on: the final prompt once there is one, the
        first improved prompt before. */
    function CurrentPrompt(): (r: string)
      reads this
    {
      if stage == Final then finalPrompt else firstImprovedPrompt
    }

    /** "Start Over": back to the initial stage with every field emptied, from any stage.
        The loading flag is not one of the fields it resets. */
    method Reset()
      modifies this
      ensures stage == Initial && originalPrompt == "" && firstImprovedPrompt == ""
      ensures questions == [] && answers == map[] && finalPrompt == ""
      ensures error == "" && copySuccess == ""
      ensures isLoading == old(isLoading)
    {
      stage := Initial;
      originalPrompt := "";
      firstImprovedPrompt := "";
      questions := [];
      answers := map[];
      finalPrompt := "";
      error := "";
      copySuccess := "";
    }

    /** Typing into the initial prompt. */
    method EditOriginalPrompt(value: string)
      modifies this`originalPrompt
      ensures originalPrompt == value
    {
      originalPrompt := value;
    }

    /** Editing the suggested prompt; the edit is what the refine step will send. */
    method EditImprovedPrompt(value: string)
      modifies this`firstImprovedPrompt
      ensures firstImprovedPrompt == value
    {
      firstImprovedPrompt := value;
    }

    /** Editing the final prompt. */
    method EditFinalPrompt(value: string)
      modifies this`finalPrompt
      ensures finalPrompt == value
    {
      finalPrompt := value;
    }

    /** Clicking "Improve Prompt". A prompt that is blank after trimming changes nothing and
        sends nothing. Otherwise the loading flag is raised, every earlier result is cleared,
        and the prompt is sent as typed (untrimmed). */
    method BeginGenerate() returns (sent: Option<string>)
      modifies this`isLoading, this`firstImprovedPrompt, this`questions, this`answers
      modifies this`finalPrompt, this`copySuccess, this`error
      ensures sent == (if Trim(originalPrompt) == "" then None else Some(originalPrompt))
      ensures sent.None? ==> unchanged(this)
      ensures sent.Some? ==>
        && isLoading && firstImprovedPrompt == "" && questions == [] && answers == map[]
        && finalPrompt == "" && copySuccess == "" && error == ""
    {
      if Trim(originalPrompt) == "" {
        return None;
      }
      isLoading := true;
      firstImprovedPrompt := "";
      questions := [];
      answers := map[];
      finalPrompt := "";
      copySuccess := "";
      error := "";
      sent := Some(originalPrompt);
    }

    /** The structured reply arrives. On success its prompt and questions are stored as they
        are (a missing list becomes no questions) and the stage moves to `Questions`; on
        failure the error is shown and the stage is `Initial`. Loading ends either way. */
    method CompleteGenerate(reply: GenerateReply)
      modifies this`firstImprovedPrompt, this`questions, this`stage, this`error, this`isLoading
      ensures !isLoading
      ensures reply.Generated? ==>
        && stage == Questions && firstImprovedPrompt == reply.improvedPrompt
        && questions == reply.questions.GetOr([])
        && error == old(error)
      ensures reply.GenerateFailed? ==>
        && stage == Initial && error == GenerateError
        && firstImprovedPrompt == old(firstImprovedPrompt) && questions == old(questions)
    {
      match reply {
        case Generated(improved, qs) =>
          firstImprovedPrompt := improved;
          questions := qs.GetOr([]);
          stage := Questions;
        case GenerateFailed =>
          error := GenerateError;
          stage := Initial;
      }
      isLoading := false;
    }

    /** `handleGenerate` with the service's reply. */
    method Generate(reply: GenerateReply) returns (sent: Option<string>)
      modifies this
      ensures sent == (if Trim(old(originalPrompt)) == "" then None else Some(old(originalPrompt)))
      ensures sent.None? ==> unchanged(this)
      ensures sent.Some? ==>
        && originalPrompt == old(originalPrompt)
        && answers == map[] && finalPrompt == "" && copySuccess == "" && !isLoading
        && (reply.Generated? ==>
              && stage == Questions && firstImprovedPrompt == reply.improvedPrompt
              && questions == reply.questions.GetOr([]) && error == "")
        && (reply.GenerateFailed? ==>
              && stage == Initial && error == GenerateError
              && firstImprovedPrompt == "" && questions == [])
    {
      sent := BeginGenerate();
      if sent.Some? {
        CompleteGenerate(reply);
      }
    }

    /** Clicking "Generate Final Prompt": loading starts, the previous final prompt, copy
        indicator and error are cleared, and the request is built from the base prompt as it
        stands and the answers context. Questions and answers are only read. */
    method BeginRefine() returns (request: RefineRequest)
      modifies this`isLoading, this`finalPrompt, this`copySuccess, this`error
      ensures request == RefineRequest(firstImprovedPrompt, RefinementContext(questions, answers))
      ensures isLoading && finalPrompt == "" && copySuccess == "" && error == ""
    {
      isLoading := true;
      finalPrompt := "";
      copySuccess := "";
      error := "";
      request := RefineRequest(firstImprovedPrompt, RefinementContext(questions, answers));
    }

    /** The refine reply arrives: on success its text is the final prompt and the stage is
        `Final`; on failure the refine error is shown and the stage stays at `Questions`, so
        the collected answers are kept. Loading ends either way. */
    method CompleteRefine(reply: RefineReply)
      modifies this`finalPrompt, this`stage, this`error, this`isLoading
      ensures !isLoading
      ensures reply.Refined? ==>
        stage == Final && finalPrompt == reply.text && error == old(error)
      ensures reply.RefineFailed? ==>
        stage == Questions && error == RefineError && finalPrompt == old(finalPrompt)
    {
      match reply {
        case Refined(text) =>
          finalPrompt := text;
          stage := Final;
        case RefineFailed =>
          error := RefineError;
          stage := Questions;
      }
      isLoading := false;
    }

    /** `handleRefine` with the service's reply. Questions, answers and both earlier prompts
        are never modified. */
    method Refine(reply: RefineReply) returns (request: RefineRequest)
      modifies this
      ensures request == RefineRequest(old(firstImprovedPrompt), RefinementContext(old(questions), old(answers)))
      ensures questions == old(questions) && answers == old(answers)
      ensures firstImprovedPrompt == old(firstImprovedPrompt) && originalPrompt == old(originalPrompt)
      ensures copySuccess == "" && !isLoading
      ensures reply.Refined? ==> stage == Final && finalPrompt == reply.text && error == ""
      ensures reply.RefineFailed? ==> stage == Questions && error == RefineError && finalPrompt == ""
    {
      request := BeginRefine();
      CompleteRefine(reply);
    }

    /** Typing an answer: the text of that question's entry is replaced and its files kept;
        any shown error is cleared. */
    method ChangeAnswerText(index: nat, value: string)
      modifies this`answers, this`error
      ensures answers == old(answers)[index := Answer(value,
                 if index in old(answers) then old(answers)[index].files else [])]
      ensures error == ""
    {
      var files := if index in answers then answers[index].files else [];
      answers := answers[index := Answer(value, files)];
      error := "";
    }

    /** Picking files for an answer: they go after the files already there, and the text is
        kept. When the input reports no file list nothing happens; an empty list still creates
        the entry. */
    method AddAnswerFiles(index: nat, picked: Option<seq<Attachment>>)
      modifies this`answers
      ensures picked.None? ==> answers == old(answers)
      ensures picked.Some? ==>
        answers == old(answers)[index :=
          if index in old(answers)
          then Answer(old(answers)[index].text, old(answers)[index].files + picked.value)
          else Answer("", picked.value)]
    {
      if picked.Some? {
        var entry := if index in answers then answers[index] else Answer("", []);
        assert [] + picked.value == picked.value;
        answers := answers[index := Answer(entry.text, entry.files + picked.value)];
      }
    }

    /** Removing one file from an answer: exactly the file at `fileIndex` goes, and nothing
        happens when the question has no entry. */
    method RemoveAnswerFile(questionIndex: nat, fileIndex: nat)
      modifies this`answers
      ensures questionIndex !in old(answers) ==> answers == old(answers)
      ensures questionIndex in old(answers) ==>
        var entry := old(answers)[questionIndex];
        answers == old(answers)[questionIndex := Answer(entry.text, JsArray.WithoutIndex(entry.files, fileIndex))]
    {
      if questionIndex in answers {
        var entry := answers[questionIndex];
        answers := answers[questionIndex := entry.(files := JsArray.WithoutIndex(entry.files, fileIndex))];
      }
    }

    /** Clicking "Copy": the current prompt is written to the clipboard unless it is empty; the
        indicator then says whether the clipboard accepted it. Nothing the current prompt is
        made of changes, so copying again writes the same text. */
    method Copy(clipboardAccepts: bool) returns (written: Option<string>)
      modifies this`copySuccess
      ensures written == (if CurrentPrompt() == "" then None else Some(CurrentPrompt()))
      ensures copySuccess == (if written.None? then old(copySuccess)
                              else if clipboardAccepts then CopiedLabel else CopyFailedLabel)
    {
      var text := CurrentPrompt();
      if text == "" {
        return None;
      }
      written := Some(text);
      copySuccess := if clipboardAccepts then CopiedLabel else CopyFailedLabel;
    }

    /** The two-second timer after a copy fires. */
    method CopyIndicatorExpired()
      modifies this`copySuccess
      ensures copySuccess == ""
    {
      copySuccess := "";
    }

    /** Clicking "Use in Chat": the prompt handed to the chat page, if it is not empty. The
        session itself is left as it is. */
    method UseInChat() returns (handoff: Option<string>)
      ensures handoff.Some? <==> CurrentPrompt() != ""
      ensures handoff.Some? ==> handoff.value == CurrentPrompt()
    {
      var text := CurrentPrompt();
      if text == "" {
        return None;
      }
      handoff := Some(text);
    }
  }
}
