/** The question record that the quiz-authoring screen collects: Kotlin's `CreateQuestionData`. */
module CreateQuestionData {
  import opened KotlinInt
  import opened KotlinText

  /**
    A Kotlin data class with seven properties. `questionIndex` is a `var` (and defaults
    to 0); the statement, the four options and the answer are `val`s. Data-class equality
    is structural, which is exactly Dafny's `==` on this datatype.
   */
  datatype Question = Question(
    questionIndex: Int32,
    questionStatement: Text,
    option1: Text,
    option2: Text,
    option3: Text,
    option4: Text,
    answer: Text)

  /** The six `val` properties of `a` and `b` agree. */
  predicate SameTexts(a: Question, b: Question) {
    && a.questionStatement == b.questionStatement
    && a.option1 == b.option1
    && a.option2 == b.option2
    && a.option3 == b.option3
    && a.option4 == b.option4
    && a.answer == b.answer
  }

  /** The data-class constructor, with `questionIndex` defaulting to 0 when the caller omits it. */
  function NewQuestion(
    questionStatement: Text, option1: Text, option2: Text, option3: Text, option4: Text,
    answer: Text, questionIndex: Int32 := 0): (q: Question)
    ensures q.questionIndex == questionIndex
    ensures q.questionStatement == questionStatement && q.answer == answer
    ensures q.option1 == option1 && q.option2 == option2
    ensures q.option3 == option3 && q.option4 == option4
  {
    Question(questionIndex, questionStatement, option1, option2, option3, option4, answer)
  }

  /** Assigning the one `var` property: nothing else about the record can change. */
  function WithQuestionIndex(q: Question, i: Int32): (r: Question)
    ensures r.questionIndex == i
    ensures SameTexts(r, q)
  {
    q.(questionIndex := i)
  }

  /** Generated `equals`: two records are equal exactly when all seven properties are. */
  lemma EqualsIsFieldwise(a: Question, b: Question)
    ensures a == b <==> a.questionIndex == b.questionIndex && SameTexts(a, b)
  {
  }

  /**
    Since only `questionIndex` is assignable, two records agree on every `val` exactly
    when one becomes the other by assigning its index.
   */
  lemma OnlyIndexIsMutable(a: Question, b: Question)
    ensures SameTexts(a, b) <==> WithQuestionIndex(a, b.questionIndex) == b
  {
  }
}
