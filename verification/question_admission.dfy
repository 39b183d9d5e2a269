/**
  The "Add" button of the add-question dialog: the fields are trimmed, checked one at a
  time in a fixed order, and the first failing check is the only error reported.
 */
module QuestionAdmission {
  import opened Wrappers
  import opened KotlinText

  /** The six text fields of the dialog, as typed (untrimmed). */
  datatype DialogInput = DialogInput(
    questionStatement: Text,
    option1: Text,
    option2: Text,
    option3: Text,
    option4: Text,
    answer: Text)

  /** The dialog field that an error is shown on. */
  datatype Field = StatementField | Option1Field | Option2Field | Option3Field | Option4Field | AnswerField

  /**
    `Blank(f)` is "Enter Question Statement", "Enter Option 1".."Enter Option 4" or
    "Write Answer"; `AnswerNotMatch` is "Answer Not Match with options" on the answer field.
   */
  datatype AdmissionError = Blank(field: Field) | AnswerNotMatch

  /** `checkOption`: the answer equals one of the four options, case-sensitively. */
  function CheckOption(option1: Text, option2: Text, option3: Text, option4: Text, answer: Text): (r: bool)
    ensures r <==> answer in {option1, option2, option3, option4}
  {
    if answer == option1 then true
    else if answer == option2 then true
    else if answer == option3 then true
    else if answer == option4 then true
    else false
  }

  /** None of the six fields is whitespace only. */
  predicate NoFieldBlank(d: DialogInput) {
    && !AllWhitespace(d.questionStatement)
    && !AllWhitespace(d.option1)
    && !AllWhitespace(d.option2)
    && !AllWhitespace(d.option3)
    && !AllWhitespace(d.option4)
    && !AllWhitespace(d.answer)
  }

  /** The trimmed answer is one of the trimmed options. */
  predicate AnswerAmongOptions(d: DialogInput) {
    Trim(d.answer) in {Trim(d.option1), Trim(d.option2), Trim(d.option3), Trim(d.option4)}
  }

  /**
    The `when` of the dialog's click listener, on the trimmed fields: the first failing
    check is reported, or `None` when the question may be saved. A field counts as empty
    exactly when it holds nothing but whitespace.
   */
  function ValidateQuestion(d: DialogInput): (r: Option<AdmissionError>)
    ensures r == Some(Blank(StatementField)) <==> AllWhitespace(d.questionStatement)
    ensures r == Some(Blank(Option1Field)) <==>
      !AllWhitespace(d.questionStatement) && AllWhitespace(d.option1)
    ensures r == Some(Blank(Option2Field)) <==>
      !AllWhitespace(d.questionStatement) && !AllWhitespace(d.option1) && AllWhitespace(d.option2)
    ensures r == Some(Blank(Option3Field)) <==>
      && !AllWhitespace(d.questionStatement) && !AllWhitespace(d.option1)
      && !AllWhitespace(d.option2) && AllWhitespace(d.option3)
    ensures r == Some(Blank(Option4Field)) <==>
      && !AllWhitespace(d.questionStatement) && !AllWhitespace(d.option1)
      && !AllWhitespace(d.option2) && !AllWhitespace(d.option3) && AllWhitespace(d.option4)
    ensures r == Some(Blank(AnswerField)) <==>
      && !AllWhitespace(d.questionStatement) && !AllWhitespace(d.option1)
      && !AllWhitespace(d.option2) && !AllWhitespace(d.option3) && !AllWhitespace(d.option4)
      && AllWhitespace(d.answer)
    ensures r == Some(AnswerNotMatch) <==> NoFieldBlank(d) && !AnswerAmongOptions(d)
    ensures r == None <==> NoFieldBlank(d) && AnswerAmongOptions(d)
  {
    var questionStatement := Trim(d.questionStatement);
    var option1 := Trim(d.option1);
    var option2 := Trim(d.option2);
    var option3 := Trim(d.option3);
    var option4 := Trim(d.option4);
    var answer := Trim(d.answer);
    if questionStatement == [] then Some(Blank(StatementField))
    else if option1 == [] then Some(Blank(Option1Field))
    else if option2 == [] then Some(Blank(Option2Field))
    else if option3 == [] then Some(Blank(Option3Field))
    else if option4 == [] then Some(Blank(Option4Field))
    else if answer == [] then Some(Blank(AnswerField))
    else if !CheckOption(option1, option2, option3, option4, answer) then Some(AnswerNotMatch)
    else None
  }

  /** Whitespace typed before and after one field. */
  datatype Padding = Padding(pre: Text, post: Text)

  predicate IsWhitespacePadding(p: Padding) {
    AllWhitespace(p.pre) && AllWhitespace(p.post)
  }

  function Pad(p: Padding, s: Text): Text {
    p.pre + s + p.post
  }

  /** A padding for each of the dialog's six fields, chosen independently. */
  datatype DialogPadding = DialogPadding(
    questionStatement: Padding,
    option1: Padding,
    option2: Padding,
    option3: Padding,
    option4: Padding,
    answer: Padding)

  function Padded(d: DialogInput, p: DialogPadding): DialogInput {
    DialogInput(
      Pad(p.questionStatement, d.questionStatement),
      Pad(p.option1, d.option1),
      Pad(p.option2, d.option2),
      Pad(p.option3, d.option3),
      Pad(p.option4, d.option4),
      Pad(p.answer, d.answer))
  }

  /**
    Each field is trimmed on its own, so whitespace typed around any of them, in any
    amount and independently of the others, never changes the verdict.
   */
  lemma ValidationIgnoresPadding(d: DialogInput, p: DialogPadding)
    requires IsWhitespacePadding(p.questionStatement)
    requires IsWhitespacePadding(p.option1) && IsWhitespacePadding(p.option2)
    requires IsWhitespacePadding(p.option3) && IsWhitespacePadding(p.option4)
    requires IsWhitespacePadding(p.answer)
    ensures ValidateQuestion(Padded(d, p)) == ValidateQuestion(d)
  {
    TrimIgnoresPadding(p.questionStatement.pre, d.questionStatement, p.questionStatement.post);
    TrimIgnoresPadding(p.option1.pre, d.option1, p.option1.post);
    TrimIgnoresPadding(p.option2.pre, d.option2, p.option2.post);
    TrimIgnoresPadding(p.option3.pre, d.option3, p.option3.post);
    TrimIgnoresPadding(p.option4.pre, d.option4, p.option4.post);
    TrimIgnoresPadding(p.answer.pre, d.answer, p.answer.post);
  }

  /** In particular, padding the answer alone leaves the verdict as it was. */
  lemma AnswerPaddingIgnored(d: DialogInput, pre: Text, post: Text)
    requires AllWhitespace(pre) && AllWhitespace(post)
    ensures ValidateQuestion(d.(answer := pre + d.answer + post)) == ValidateQuestion(d)
  {
    TrimIgnoresPadding(pre, d.answer, post);
  }
}
