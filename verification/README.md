# Quizzon quiz-authoring core, modelled in Dafny

This project models the small amount of logic in Quizzon's quiz-authoring screen
(`CreateQuizFragment`) and login screen (`LoginFragment`):

- the add-question dialog checks its fields fail-fast on trimmed text;
- accepted questions are appended to an ordered `questionList`, each stamped with the
  counter `currentIndex`; deletion is by position and nothing is renumbered;
- the save button checks the question count, then the title, then the category before it
  builds the upload payload (`QuestionBody`);
- the question record `CreateQuestionData` and the adapter's two diff comparisons;
- the login screen checks the lengths of the trimmed email and password.

Kotlin's `String` is modelled as a sequence of UTF-16 code units (`KotlinText.Text`), so
`length`, `==` and `trim()` behave as on the JVM. `trim()` uses Kotlin's `Char.isWhitespace`.
Kotlin's `Int` is modelled as `KotlinInt.Int32`, and `currentIndex += 1` wraps at 2^31 - 1.

The central property is the store invariant `QuestionList.Valid`. Record indices strictly
increase along the list, all are non-negative, and all are below `currentIndex`.
`QuestionList.ReplayPreservesValid` proves that any session of at most 2^31 - 1 "Add" and
"Delete" clicks from the empty screen keeps it. `QuestionList.SessionRowsAreDistinct` then shows that no two rows look like the
same item to the adapter.

Three details of the code that the model keeps:

- The dialog checks the trimmed fields but saves the texts as typed. So a saved answer
  equals one of the saved options only up to trimming, not necessarily exactly
  (`QuestionList.SavedAnswerMayDifferFromOptions`).
- The save guard needs at least one question, although its message asks for 5.
- The quiz title is checked with `isNullOrEmpty` and is not trimmed, so a title of spaces
  passes.

## Model

| member | source | states |
|---|---|---|
| `KotlinText.Trim` | app/src/main/java/com/rohit/quizzon/ui/fragment/CreateQuizFragment.kt:134-139 | the result is the trim of the input in the reference sense: a range of it with only whitespace outside, and no whitespace at either end of the range. It is empty exactly when the input is all whitespace |
| `KotlinText.TrimOfUnique` | app/src/main/java/com/rohit/quizzon/ui/fragment/CreateQuizFragment.kt:134-139 | a text has at most one trim, so any two candidates are equal |
| `KotlinText.TrimIdempotent` | app/src/main/java/com/rohit/quizzon/ui/fragment/CreateQuizFragment.kt:134-139 | trimming an already trimmed text changes nothing |
| `KotlinText.TrimKeepsUnpadded` | app/src/main/java/com/rohit/quizzon/ui/fragment/LoginFragment.kt:55-56 | a text that neither starts nor ends with whitespace comes back from trim unchanged |
| `KotlinText.TrimIgnoresPadding` | app/src/main/java/com/rohit/quizzon/ui/fragment/LoginFragment.kt:55-56 | whitespace added on either side of a text does not change its trim |
| `KotlinInt.Inc` | app/src/main/java/com/rohit/quizzon/ui/fragment/CreateQuizFragment.kt:305 | `currentIndex += 1` on a 32-bit `Int`: the result is congruent to the exact sum modulo 2^32; it is the sum below the top value, and the bottom value at the top |
| `CreateQuestionData.NewQuestion` | app/src/main/java/com/rohit/quizzon/data/model/CreateQuestionData.kt:3-11 | a record built without an index has `questionIndex` 0; the six texts are stored exactly as given |
| `CreateQuestionData.WithQuestionIndex` | app/src/main/java/com/rohit/quizzon/data/model/CreateQuestionData.kt:4 | assigning the one `var` sets the index and leaves all six `val` texts as they were |
| `CreateQuestionData.EqualsIsFieldwise` | app/src/main/java/com/rohit/quizzon/data/model/CreateQuestionData.kt:3-11 | data-class equality: two records are equal iff all seven properties are equal |
| `CreateQuestionData.OnlyIndexIsMutable` | app/src/main/java/com/rohit/quizzon/data/model/CreateQuestionData.kt:4-10 | two records agree on every `val` iff assigning one's index turns it into the other |
| `CreateQuestionAdapter.AreItemsTheSame` | app/src/main/java/com/rohit/quizzon/ui/adapter/CreateQuestionAdapter.kt:28-33 | holds iff the two records have the same `questionIndex`, i.e. iff stamping the new record with the old one's index leaves it unchanged |
| `CreateQuestionAdapter.AreContentsTheSame` | app/src/main/java/com/rohit/quizzon/ui/adapter/CreateQuestionAdapter.kt:21-26 | content equality holds iff the records are the same item (same `questionIndex`) and all six texts agree |
| `CreateQuestionAdapter.ContentsSameImpliesItemsSame` | app/src/main/java/com/rohit/quizzon/ui/adapter/CreateQuestionAdapter.kt:21-33 | records with the same content are always the same item |
| `CreateQuestionAdapter.ComparisonsAreEquivalences` | app/src/main/java/com/rohit/quizzon/ui/adapter/CreateQuestionAdapter.kt:21-33 | both comparisons are reflexive, symmetric and transitive |
| `CreateQuestionAdapter.SameRowChangedContent` | app/src/main/java/com/rohit/quizzon/ui/adapter/CreateQuestionAdapter.kt:21-33 | a same-item pair whose contents differ differs in some text |
| `QuestionAdmission.CheckOption` | app/src/main/java/com/rohit/quizzon/ui/fragment/CreateQuizFragment.kt:181-195 | true iff the answer is exactly (case-sensitively) one of the four options |
| `QuestionAdmission.ValidateQuestion` | app/src/main/java/com/rohit/quizzon/ui/fragment/CreateQuizFragment.kt:133-162 | fail-fast in the order statement, option 1 to 4, answer, then answer-matches-option; each error is reported iff its field is whitespace-only and every earlier field is not; the question passes iff no field is blank and the trimmed answer is one of the trimmed options |
| `QuestionAdmission.ValidationIgnoresPadding` | app/src/main/java/com/rohit/quizzon/ui/fragment/CreateQuizFragment.kt:134-139 | whitespace around any field, chosen independently for each of the six fields, never changes the verdict |
| `QuestionAdmission.AnswerPaddingIgnored` | app/src/main/java/com/rohit/quizzon/ui/fragment/CreateQuizFragment.kt:139 | whitespace around the answer alone never changes the verdict |
| `QuestionList.SaveDataToList` | app/src/main/java/com/rohit/quizzon/ui/fragment/CreateQuizFragment.kt:285-306 | the old list is kept as a prefix; exactly one record is appended, holding the given texts and the old counter; the counter becomes its 32-bit successor (`KotlinInt.Inc`), wrapping to the bottom at the top of `Int` |
| `QuestionList.ClickDeleteItem` | app/src/main/java/com/rohit/quizzon/ui/fragment/CreateQuizFragment.kt:308-311 | fails iff the position is outside the list; otherwise earlier records stay in place and later ones shift left unchanged, so nothing is renumbered, and the counter is unchanged |
| `QuestionList.ConfirmDialog` | app/src/main/java/com/rohit/quizzon/ui/fragment/CreateQuizFragment.kt:141-174 | the reported error is the validator's; a rejected question leaves list and counter as they were; an accepted one appends the untrimmed texts stamped with the counter, and the counter is incremented |
| `QuestionList.IncreasingIsPairwise` | app/src/main/java/com/rohit/quizzon/ui/fragment/CreateQuizFragment.kt:299-305 | indices that increase between neighbours increase between any two positions |
| `QuestionList.InitialIsValid` | app/src/main/java/com/rohit/quizzon/ui/fragment/CreateQuizFragment.kt:41-42 | the empty list with counter 0 satisfies the invariant |
| `QuestionList.SaveDataToListPreservesValid` | app/src/main/java/com/rohit/quizzon/ui/fragment/CreateQuizFragment.kt:293-305 | saving keeps the invariant while the counter is below the top of `Int` |
| `QuestionList.ClickDeleteItemPreservesValid` | app/src/main/java/com/rohit/quizzon/ui/fragment/CreateQuizFragment.kt:308-311 | a successful deletion keeps the invariant |
| `QuestionList.ConfirmDialogPreservesValid` | app/src/main/java/com/rohit/quizzon/ui/fragment/CreateQuizFragment.kt:141-174 | a dialog confirmation, accepted or rejected, keeps the invariant while the counter is below the top of `Int` |
| `QuestionList.ValidRowsAreDistinct` | app/src/main/java/com/rohit/quizzon/ui/adapter/CreateQuestionAdapter.kt:28-33 | in a valid store, no two entries at different positions are the same item |
| `QuestionList.Replay` | app/src/main/java/com/rohit/quizzon/ui/fragment/CreateQuizFragment.kt:285-311 | a session of clicks grows the list by at most one record per click |
| `QuestionList.ReplayCounterBound` | app/src/main/java/com/rohit/quizzon/ui/fragment/CreateQuizFragment.kt:299-305 | over a session the counter never decreases and rises by at most one per click, while the counter plus the number of clicks is at most the top of `Int` |
| `QuestionList.ReplayPreservesValid` | app/src/main/java/com/rohit/quizzon/ui/fragment/CreateQuizFragment.kt:285-311 | any mix of additions and deletions keeps the invariant, as long as the counter plus the number of clicks is at most the top of `Int` |
| `QuestionList.SessionRowsAreDistinct` | app/src/main/java/com/rohit/quizzon/ui/adapter/CreateQuestionAdapter.kt:28-33 | after any session of at most 2^31 - 1 clicks from the empty screen, no two rows are the same item |
| `QuestionList.CounterWrapBreaksValid` | app/src/main/java/com/rohit/quizzon/ui/fragment/CreateQuizFragment.kt:305 | when the counter sits at the top of `Int`, one more save wraps it to the bottom, below the indices in the list, so the invariant fails and the size bound above is needed |
| `QuestionList.SavedAnswerMayDifferFromOptions` | app/src/main/java/com/rohit/quizzon/ui/fragment/CreateQuizFragment.kt:134-170 | an answer that matches an option only after trimming is admitted, and the saved answer equals none of the saved options |
| `QuizSubmission.ValidateInputs` | app/src/main/java/com/rohit/quizzon/ui/fragment/CreateQuizFragment.kt:197-213 | fail-fast in the order count ≥ 1, title non-empty (untrimmed), category selected; each error is reported iff its check fails and every earlier one passes |
| `QuizSubmission.SaveQuiz` | app/src/main/java/com/rohit/quizzon/ui/fragment/CreateQuizFragment.kt:215-233 | a payload is built iff the guard passes; it carries the whole list, the title, the category's id and name and the user's id and name, and `total_question` equals the list length (at least 1) |
| `QuizSubmission.BlankTitleAccepted` | app/src/main/java/com/rohit/quizzon/ui/fragment/CreateQuizFragment.kt:203 | a title made only of spaces passes the guard, because it is not trimmed |
| `Login.ValidateInputs` | app/src/main/java/com/rohit/quizzon/ui/fragment/LoginFragment.kt:79-94 | an email shorter than 4 is reported first; otherwise a password shorter than 4 is reported; both of length ≥ 4 pass |
| `Login.OnLoginClicked` | app/src/main/java/com/rohit/quizzon/ui/fragment/LoginFragment.kt:54-62 | the login request is issued iff both trimmed fields have length ≥ 4, and it carries the trimmed values; otherwise the email error is shown iff the trimmed email is too short |
| `Login.PaddingDoesNotCount` | app/src/main/java/com/rohit/quizzon/ui/fragment/LoginFragment.kt:55-56 | whitespace around either field does not change what the click does |
| `Login.ShortEmailRejectedWhateverThePassword` | app/src/main/java/com/rohit/quizzon/ui/fragment/LoginFragment.kt:83-93 | with a too-short trimmed email, the email error is reported whatever the password |

## Left out

- Network and asynchronous flows: category loading, the user profile, the quiz upload and the login request with their Loading/Success/Failure handling. These are coroutines around services whose code is not part of this model. `SaveQuiz` stops at the payload, and `OnLoginClicked` stops at the request.
- Firebase authentication, view models, navigation, toasts, snackbars, error-text display, button progress states, `hideViews`, the success animation and `delay(1500)`. These are UI, timing and floating point.
- The message texts of the errors. Each error constructor names its message in a comment only.
- The list-diffing algorithm of `ListAdapter`/`DiffUtil` and `notifyDataSetChanged`. That library code is not part of this model. Only the two comparisons are modelled, and the adapter's list is taken to be `questionList`.
- `HomeFragment`, which only passes data to a paging adapter and navigates.
- A null `editText`. `editText?.text.toString()` would then give the text "null", and the title check would fail. The model assumes every input field has its edit text, as the layouts provide.
- `QuestionList.ReplayPreservesValid`: requires the counter plus the number of clicks to be at most 2^31 - 1, because `currentIndex` wraps on the next addition; `QuestionList.CounterWrapBreaksValid` shows the invariant then fails.
- `QuestionList.ReplayCounterBound`: requires the counter plus the number of clicks to be at most 2^31 - 1, because `currentIndex` wraps to the bottom on the next addition and then decreases.
- `QuestionList.SessionRowsAreDistinct`: covers sessions of at most 2^31 - 1 clicks from the empty screen, for the same reason.
- `QuestionList.ConfirmDialogPreservesValid`: requires the counter to be below the top of `Int`, for the same reason.
- `QuestionList.SaveDataToListPreservesValid`: requires the counter to be below the top of `Int`, for the same reason.
- `KotlinText.IsWhitespace`: U+180E (Mongolian vowel separator) is not counted as whitespace, as in Unicode 6.3 and later. Older JVMs count it.
