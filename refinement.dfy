/** The text block that the refine step sends to the model: every clarifying question
    paired with the user's answer and the names of the files attached to it
    (index.tsx:344-352). */
module Refinement {
  import opened JsString
  import opened Attachments
  import opened JsArray

  /** What the user entered for one question. */
  datatype Answer = Answer(text: string, files: seq<Attachment>)

  /** Answers keyed by question index; a question the user never touched has no entry. */
  type Answers = map<nat, Answer>

  const NoTextAnswer: string := "(No text answer provided)"
  const BlockSeparator: string := "\n\n"
  const FileNameSeparator: string := ", "

  /** `answers[i]?.text?.trim() || '(No text answer provided)'`. */
  function AnswerText(answers: Answers, i: nat): (r: string) {
    if i in answers && Trim(answers[i].text) != "" then Trim(answers[i].text) else NoTextAnswer
  }

  /** `answers[i]?.files.map(f => f.name).join(', ')`, with a missing entry as "", which
      is as falsy as the `undefined` the source gets. */
  function FileNames(answers: Answers, i: nat): (r: string) {
    if i in answers then Join(Names(answers[i].files), FileNameSeparator) else ""
  }

  /** The block for question `q` at index `i`. The file line is added when the joined
      names are non-empty, which is what the source tests. */
  function Block(q: string, i: nat, answers: Answers): (r: string) {
    "Question: " + q + "\nAnswer: " + AnswerText(answers, i)
    + (if FileNames(answers, i) != "" then "\nAttached Files: " + FileNames(answers, i) else "")
  }

  /** `questions.map((q, i) => ...)`: one block per question, in question order, each built
      from the answer stored under that question's index. */
  function Blocks(questions: seq<string>, answers: Answers): (r: seq<string>)
    ensures |r| == |questions|
    ensures forall i :: 0 <= i < |questions| ==> r[i] == Block(questions[i], i, answers)
  {
    MapIndexed(questions, (q, i) => Block(q, i, answers))
  }

  /** The whole context: the blocks joined by blank lines. */
  function RefinementContext(questions: seq<string>, answers: Answers): (r: string) {
    Join(Blocks(questions, answers), BlockSeparator)
  }

  /** One block per question, in question order: asking one more question appends a blank
      line (unless it is the first) and that question's block. */
  lemma ContextAppendQuestion(questions: seq<string>, q: string, answers: Answers)
    ensures RefinementContext(questions + [q], answers)
         == (if questions == [] then "" else RefinementContext(questions, answers) + BlockSeparator)
            + Block(q, |questions|, answers)
  {
    var bs, b := Blocks(questions, answers), Block(q, |questions|, answers);
    MapIndexedSnoc(questions, q, (q, i) => Block(q, i, answers));
    if questions != [] {
      JoinSnoc(bs, b, BlockSeparator);
    }
  }

  /** The answer part of a block: the trimmed text when there is any, otherwise the
      placeholder; never empty and never padded with whitespace. */
  lemma AnswerTextCases(answers: Answers, i: nat)
    ensures AnswerText(answers, i) != ""
    ensures i in answers && !AllWhitespace(answers[i].text)
            ==> AnswerText(answers, i) == Trim(answers[i].text)
    ensures (i !in answers || AllWhitespace(answers[i].text))
            ==> AnswerText(answers, i) == NoTextAnswer
    ensures AnswerText(answers, i) == Trim(AnswerText(answers, i))
  {
    if i in answers && Trim(answers[i].text) != "" {
      TrimIdempotent(answers[i].text);
    } else {
      PlaceholderIsTrimmed();
    }
    if i in answers {
      TrimBlank(answers[i].text);
    }
  }

  /** Helper: the placeholder has no surrounding whitespace. */
  lemma PlaceholderIsTrimmed()
    ensures Trim(NoTextAnswer) == NoTextAnswer
  {
    TrimUntouched(NoTextAnswer);
  }

  /** The file line appears exactly when the question has at least one attached file,
      provided file names are never empty (the browser's `File.name` for a picked file). */
  lemma FileLineIffFiles(answers: Answers, i: nat)
    requires i in answers ==> forall f :: f in answers[i].files ==> f.name != ""
    ensures FileNames(answers, i) != "" <==> (i in answers && |answers[i].files| > 0)
  {
    if i in answers {
      var names := Names(answers[i].files);
      JoinEmpty(names, FileNameSeparator);
    }
  }

  /** The one case where the code and the intent above differ: a single attached file whose
      name is empty gets no file line although the question has a file. */
  lemma FileLineMissingForNamelessFile(q: string, f: Attachment)
    requires f.name == ""
    ensures Block(q, 0, map[0 := Answer("", [f])]) == "Question: " + q + "\nAnswer: " + NoTextAnswer
  {
    var answers := map[0 := Answer("", [f])];
    assert Names(answers[0].files) == [""];
    assert Trim("") == "" by { TrimBlank(""); }
  }

  /** An entry with no text and no files reads exactly like a question never answered:
      picking zero files creates such an entry. */
  lemma EmptyEntryIsNoAnswer(q: string, i: nat, answers: Answers)
    ensures Block(q, i, answers[i := Answer("", [])]) == Block(q, i, answers - {i})
  {
    TrimBlank("");
  }

  /** The context reads the answers of the asked questions only: two answer maps that agree
      on every question index give the same context. */
  lemma ContextReadsAskedAnswers(questions: seq<string>, a1: Answers, a2: Answers)
    requires forall i: nat :: i < |questions| ==> (i in a1 <==> i in a2)
    requires forall i: nat :: i < |questions| && i in a1 ==> a1[i] == a2[i]
    ensures RefinementContext(questions, a1) == RefinementContext(questions, a2)
  {
    assert Blocks(questions, a1) == Blocks(questions, a2) by {
      forall i | 0 <= i < |questions|
        ensures Blocks(questions, a1)[i] == Blocks(questions, a2)[i]
      {
        assert AnswerText(a1, i) == AnswerText(a2, i);
        assert FileNames(a1, i) == FileNames(a2, i);
      }
    }
  }

  /** Editing the answer to question `j` changes the block of question `j` only. */
  lemma EditChangesOneBlock(questions: seq<string>, answers: Answers, j: nat, e: Answer, i: nat)
    requires i < |questions| && i != j
    ensures Blocks(questions, answers[j := e])[i] == Blocks(questions, answers)[i]
  {
    assert AnswerText(answers[j := e], i) == AnswerText(answers, i);
    assert FileNames(answers[j := e], i) == FileNames(answers, i);
  }

  /** A worked example, for any two questions: a first answer with text
      (such as "red") and a blank second answer, no files, give two blocks separated by a blank
      line, the second with the placeholder. */
  lemma TwoQuestionContext(q1: string, q2: string, text: string, blank: string)
    requires text != "" && !IsWhitespace(text[0]) && !IsWhitespace(text[|text| - 1])
    requires AllWhitespace(blank)
    ensures RefinementContext([q1, q2], map[0 := Answer(text, []), 1 := Answer(blank, [])])
         == ("Question: " + q1 + "\nAnswer: " + text) + "\n\n" + ("Question: " + q2 + "\nAnswer: " + NoTextAnswer)
  {
    var answers := map[0 := Answer(text, []), 1 := Answer(blank, [])];
    TwoBlocks(q1, q2, answers);
    AnsweredBlock(q1, 0, answers);
    UnansweredBlock(q2, 1, answers);
  }

  /** Helper: two questions give their two blocks around one blank line. */
  lemma TwoBlocks(q1: string, q2: string, answers: Answers)
    ensures RefinementContext([q1, q2], answers)
         == Block(q1, 0, answers) + BlockSeparator + Block(q2, 1, answers)
  {
    ContextAppendQuestion([], q1, answers);
    ContextAppendQuestion([q1], q2, answers);
    assert [q1] + [q2] == [q1, q2];
  }

  /** Helper: the block of a question whose answer text is already trimmed and has no files. */
  lemma AnsweredBlock(q: string, i: nat, answers: Answers)
    requires i in answers && answers[i].files == []
    requires answers[i].text != ""
    requires !IsWhitespace(answers[i].text[0]) && !IsWhitespace(answers[i].text[|answers[i].text| - 1])
    ensures Block(q, i, answers) == "Question: " + q + "\nAnswer: " + answers[i].text
  {
    TrimUntouched(answers[i].text);
  }

  /** Helper: the block of a question whose answer is blank and has no files. */
  lemma UnansweredBlock(q: string, i: nat, answers: Answers)
    requires i in answers && answers[i].files == [] && AllWhitespace(answers[i].text)
    ensures Block(q, i, answers) == "Question: " + q + "\nAnswer: " + NoTextAnswer
  {
    TrimBlank(answers[i].text);
  }
}
