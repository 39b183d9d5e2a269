/**
  The "Save quiz" button: `validateInputs` checks the question count, the title and the
  category in that order, and only then is the upload payload (`QuestionBody`) built.
 */
module QuizSubmission {
  import opened Wrappers
  import opened KotlinText
  import opened CreateQuestionData
  import opened QuestionList

  /** The two properties of a `CategoryResponseItem` that the payload copies. */
  datatype Category = Category(id: Text, categoryName: Text)

  /**
    `TooFewQuestions` is the toast "Please Add 5 Question at least" (shown when there is no
    question at all), `EmptyTitle` is "Enter Quiz Title", `NoCategorySelected` is
    "Select A Category First".
   */
  datatype SubmitError = TooFewQuestions | EmptyTitle | NoCategorySelected

  /** The upload payload. */
  datatype QuestionBody = QuestionBody(
    quizTitle: Text,
    questionList: seq<Question>,
    categoryId: Text,
    categoryName: Text,
    createId: Text,
    createName: Text,
    totalQuestion: int)

  /** The fewest questions the guard lets through (the toast's text speaks of 5). */
  const MinQuestions: int := 1

  /**
    `validateInputs` of the authoring screen, on the adapter's item count, the title as
    typed (not trimmed) and the category picked so far (`None` while the `lateinit` is unset).
   */
  function ValidateInputs(itemCount: int, quizTitle: Text, selectedCategory: Option<Category>): (r: Option<SubmitError>)
    ensures r == Some(TooFewQuestions) <==> itemCount < MinQuestions
    ensures r == Some(EmptyTitle) <==> itemCount >= MinQuestions && |quizTitle| == 0
    ensures r == Some(NoCategorySelected) <==>
      itemCount >= MinQuestions && |quizTitle| > 0 && selectedCategory == None
    ensures r == None <==> itemCount >= MinQuestions && |quizTitle| > 0 && selectedCategory.Some?
  {
    if itemCount < MinQuestions then Some(TooFewQuestions)
    else if quizTitle == [] then Some(EmptyTitle)
    else if selectedCategory.None? then Some(NoCategorySelected)
    else None
  }

  /**
    The save click: `validateInputs`, then `uploadQuiz`'s payload from the current list,
    title, category and the signed-in user's id and name. The upload itself is not modelled.
   */
  function SaveQuiz(st: Store, quizTitle: Text, selectedCategory: Option<Category>, userId: Text, userName: Text)
    : (r: Result<QuestionBody, SubmitError>)
    ensures r.Failure? <==>
      |st.questionList| < MinQuestions || |quizTitle| == 0 || selectedCategory.None?
    ensures r.Failure? ==> Some(r.error) == ValidateInputs(|st.questionList|, quizTitle, selectedCategory)
    ensures r.Success? ==>
      && r.value.totalQuestion == |r.value.questionList| == |st.questionList| >= MinQuestions
      && r.value.questionList == st.questionList
      && r.value.quizTitle == quizTitle
      && r.value.categoryId == selectedCategory.value.id
      && r.value.categoryName == selectedCategory.value.categoryName
      && r.value.createId == userId
      && r.value.createName == userName
  {
    match ValidateInputs(|st.questionList|, quizTitle, selectedCategory)
    case Some(e) => Failure(e)
    case None =>
      var category := selectedCategory.value;
      Success(QuestionBody(
        quizTitle := quizTitle,
        questionList := st.questionList,
        categoryId := category.id,
        categoryName := category.categoryName,
        createId := userId,
        createName := userName,
        totalQuestion := |st.questionList|))
  }

  /** The title is not trimmed: a title of spaces passes the guard. */
  lemma BlankTitleAccepted(st: Store, quizTitle: Text, category: Category, userId: Text, userName: Text)
    requires |st.questionList| >= MinQuestions && |quizTitle| > 0 && AllWhitespace(quizTitle)
    ensures SaveQuiz(st, quizTitle, Some(category), userId, userName).Success?
  {
  }
}
