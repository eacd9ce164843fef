/** The open-closed example, second version: each kind of question knows how
    to print its own choices, and printQuiz prints every question the same
    way without inspecting its kind. */
module Quiz {
  import opened DecimalText

  /** The three question classes. None of them is changed after construction,
      so each is a value; the variant selects printQuestionChoices. */
  datatype Question =
    | BooleanQuestion(description: string)
    | MultipleChoiceQuestion(description: string, options: seq<string>)
    | TextQuestion(description: string)

  /** The line for the option at a zero-based position: numbered from 1. */
  function NumberedOption(index: nat, option: string): string {
    NatToString(index + 1) + ". " + option
  }

  /** The lines a question's printQuestionChoices writes. */
  function ChoiceLines(q: Question): seq<string> {
    match q
    case BooleanQuestion(_) => ["1. True", "2. False"]
    case MultipleChoiceQuestion(_, options) =>
      seq(|options|, i requires 0 <= i < |options| => NumberedOption(i, options[i]))
    case TextQuestion(_) => ["Answer: __________"]
  }

  /** What printQuiz writes for one question: its description, its choices
      and an empty line. */
  function QuestionBlock(q: Question): seq<string> {
    [q.description] + ChoiceLines(q) + [""]
  }

  /** What printQuiz writes for a list of questions, in list order. */
  function QuizLines(questions: seq<Question>): seq<string> {
    if questions == [] then [] else QuestionBlock(questions[0]) + QuizLines(questions[1..])
  }

  /** The printed choices of a question, the multiple-choice options walked
      in list order as forEach does: one line per option, the k-th being the
      number k + 1, a point, a space and the option. */
  method PrintQuestionChoices(q: Question) returns (lines: seq<string>)
    ensures lines == ChoiceLines(q)
    ensures q.BooleanQuestion? ==> lines == ["1. True", "2. False"]
    ensures q.TextQuestion? ==> lines == ["Answer: __________"]
    ensures q.MultipleChoiceQuestion? ==>
      |lines| == |q.options| &&
      forall k :: 0 <= k < |lines| ==> lines[k] == NatToString(k + 1) + ". " + q.options[k]
  {
    match q
    case BooleanQuestion(_) =>
      lines := ["1. True", "2. False"];
    case MultipleChoiceQuestion(_, options) =>
      lines := [];
      var index := 0;
      while index < |options|
        invariant 0 <= index <= |options|
        invariant |lines| == index
        invariant forall i :: 0 <= i < index ==> lines[i] == NumberedOption(i, options[i])
      {
        lines := lines + [NumberedOption(index, options[index])];
        index := index + 1;
      }
    case TextQuestion(_) =>
      lines := ["Answer: __________"];
  }

  lemma {:induction false} QuizLinesAppend(a: seq<Question>, b: seq<Question>)
    ensures QuizLines(a + b) == QuizLines(a) + QuizLines(b)
  {
    if a == [] {
      assert a + b == b;
    } else {
      assert (a + b)[1..] == a[1..] + b;
      QuizLinesAppend(a[1..], b);
    }
  }

  /** Printing one more question adds exactly that question's block. */
  lemma QuizLinesSnoc(questions: seq<Question>, k: nat)
    requires k < |questions|
    ensures QuizLines(questions[..k + 1]) == QuizLines(questions[..k]) + QuestionBlock(questions[k])
  {
    assert questions[..k + 1] == questions[..k] + [questions[k]];
    QuizLinesAppend(questions[..k], [questions[k]]);
    assert QuizLines([questions[k]]) == QuestionBlock(questions[k]) + QuizLines([]);
  }

  /** Question k's block sits, whole and unchanged, after the blocks of the
      questions before it and before those of the questions after it. */
  lemma QuizLinesSplit(questions: seq<Question>, k: nat)
    requires k < |questions|
    ensures QuizLines(questions)
            == QuizLines(questions[..k]) + QuestionBlock(questions[k]) + QuizLines(questions[k + 1..])
  {
    assert questions == questions[..k + 1] + questions[k + 1..];
    QuizLinesAppend(questions[..k + 1], questions[k + 1..]);
    QuizLinesSnoc(questions, k);
  }

  method PrintQuiz(questions: seq<Question>) returns (lines: seq<string>)
    ensures lines == QuizLines(questions)
  {
    lines := [];
    var index := 0;
    while index < |questions|
      invariant 0 <= index <= |questions|
      invariant lines == QuizLines(questions[..index])
    {
      var question := questions[index];
      var choices := PrintQuestionChoices(question);
      QuizLinesSnoc(questions, index);
      lines := lines + ([question.description] + choices + [""]);
      index := index + 1;
    }
    assert questions[..index] == questions;
  }

  /** The language question of the sample quiz. */
  lemma LanguageChoices()
    ensures ChoiceLines(MultipleChoiceQuestion("What is your favourite language?", ["JavaScript", "Python", "Ruby", "Java"]))
            == ["1. JavaScript", "2. Python", "3. Ruby", "4. Java"]
  {
    var languages := ChoiceLines(MultipleChoiceQuestion("What is your favourite language?", ["JavaScript", "Python", "Ruby", "Java"]));
    assert NatToString(1) == "1" && NatToString(2) == "2" && NatToString(3) == "3" && NatToString(4) == "4";
    assert languages[0] == "1. JavaScript" && languages[1] == "2. Python";
    assert languages[2] == "3. Ruby" && languages[3] == "4. Java";
  }

  /** The quiz that follows the classes, printed. */
  method PrintSampleQuiz() returns (lines: seq<string>)
    ensures lines == [
      "This example is great.", "1. True", "2. False", "",
      "What is your favourite language?", "1. JavaScript", "2. Python", "3. Ruby", "4. Java", "",
      "Describe your favourite JS feature.", "Answer: __________", ""]
  {
    var questions := [
      BooleanQuestion("This example is great."),
      MultipleChoiceQuestion("What is your favourite language?", ["JavaScript", "Python", "Ruby", "Java"]),
      TextQuestion("Describe your favourite JS feature.")
    ];
    lines := PrintQuiz(questions);
    LanguageChoices();
    assert questions[1..][1..] == [questions[2]];
    assert QuizLines([questions[2]]) == QuestionBlock(questions[2]) + QuizLines([]);
    assert lines == QuestionBlock(questions[0]) + QuestionBlock(questions[1]) + QuestionBlock(questions[2]);
  }
}
