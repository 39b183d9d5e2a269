/**
  The quiz-authoring screen's question list: `questionList` together with the counter
  `currentIndex` that stamps each new record. The adapter's `currentList` and `itemCount`
  mirror `questionList`.
 */
module QuestionList {
  import opened Wrappers
  import opened KotlinInt
  import opened KotlinText
  import opened CreateQuestionData
  import opened CreateQuestionAdapter
  import opened QuestionAdmission

  datatype Store = Store(questionList: seq<Question>, currentIndex: Int32)

  /** The screen's state when it opens: no questions, counter 0. */
  const Initial: Store := Store([], 0)

  /** `ArrayList.removeAt` throws `IndexOutOfBoundsException` for a position outside the list. */
  datatype StoreError = IndexOutOfBounds(position: int, size: nat)

  /**
    `saveDataToList`: appends a record stamped with the counter and holding the texts as
    given, then bumps the counter (a Kotlin `Int`, so it wraps at the top).
   */
  function SaveDataToList(
    st: Store, questionStatement: Text, op1: Text, op2: Text, op3: Text, op4: Text, answer: Text
  ): (r: Store)
    ensures |r.questionList| == |st.questionList| + 1
    ensures r.questionList[..|st.questionList|] == st.questionList
    ensures r.questionList[|st.questionList|].questionIndex == st.currentIndex
    ensures r.questionList[|st.questionList|].questionStatement == questionStatement
    ensures r.questionList[|st.questionList|].answer == answer
    ensures r.questionList[|st.questionList|].option1 == op1
    ensures r.questionList[|st.questionList|].option2 == op2
    ensures r.questionList[|st.questionList|].option3 == op3
    ensures r.questionList[|st.questionList|].option4 == op4
    ensures r.currentIndex == Inc(st.currentIndex)
  {
    var createQuestionData := NewQuestion(
      questionStatement := questionStatement,
      option1 := op1,
      option2 := op2,
      option3 := op3,
      option4 := op4,
      questionIndex := st.currentIndex,
      answer := answer);
    Store(st.questionList + [createQuestionData], Inc(st.currentIndex))
  }

  /**
    `clickDeleteItem`: removes the record at `position`, shifting later ones left; no record
    is renumbered and the counter stays. Out of range, the removal fails and nothing changes.
   */
  function ClickDeleteItem(st: Store, position: int): (r: Result<Store, StoreError>)
    ensures r.Failure? <==> !(0 <= position < |st.questionList|)
    ensures r.Failure? ==> r.error == IndexOutOfBounds(position, |st.questionList|)
    ensures r.Success? ==>
      && r.value.currentIndex == st.currentIndex
      && |r.value.questionList| == |st.questionList| - 1
      && (forall i | 0 <= i < position :: r.value.questionList[i] == st.questionList[i])
      && (forall i | position <= i < |r.value.questionList| :: r.value.questionList[i] == st.questionList[i + 1])
  {
    if 0 <= position < |st.questionList| then
      Success(Store(st.questionList[..position] + st.questionList[position + 1..], st.currentIndex))
    else
      Failure(IndexOutOfBounds(position, |st.questionList|))
  }

  /** What pressing "Add" in the dialog leaves behind: the new state and the error shown, if any. */
  datatype DialogOutcome = DialogOutcome(store: Store, error: Option<AdmissionError>)

  /**
    The dialog's "Add" click: validation on the trimmed fields; on success the untrimmed
    texts are saved and the dialog closes, otherwise the list and the counter stay as they were.
   */
  function ConfirmDialog(st: Store, d: DialogInput): (r: DialogOutcome)
    ensures r.error == ValidateQuestion(d)
    ensures r.error.Some? ==> r.store == st
    ensures r.error.None? ==>
      && r.store.questionList == st.questionList + [Question(
           st.currentIndex, d.questionStatement, d.option1, d.option2, d.option3, d.option4, d.answer)]
      && r.store.currentIndex == Inc(st.currentIndex)
  {
    match ValidateQuestion(d)
    case Some(e) => DialogOutcome(st, Some(e))
    case None =>
      var next := SaveDataToList(
        st, d.questionStatement, d.option1, d.option2, d.option3, d.option4, d.answer);
      DialogOutcome(next, None)
  }

  /** Record indices strictly increase from each position to the next. */
  predicate StrictlyIncreasing(qs: seq<Question>) {
    forall i | 0 <= i < |qs| - 1 :: qs[i].questionIndex < qs[i + 1].questionIndex
  }

  /** The store's invariant: the counter is non-negative, and indices increase along the list and lie in [0, currentIndex). */
  predicate Valid(st: Store) {
    && 0 <= st.currentIndex
    && StrictlyIncreasing(st.questionList)
    && forall i | 0 <= i < |st.questionList| ::
         0 <= st.questionList[i].questionIndex < st.currentIndex
  }

  /** Increasing from each position to the next means increasing between any two positions. */
  lemma {:induction false} IncreasingIsPairwise(qs: seq<Question>)
    requires StrictlyIncreasing(qs)
    ensures forall i, j | 0 <= i < j < |qs| :: qs[i].questionIndex < qs[j].questionIndex
  {
    if |qs| > 1 {
      var front := qs[..|qs| - 1];
      assert StrictlyIncreasing(front) by {
        forall i | 0 <= i < |front| - 1
          ensures front[i].questionIndex < front[i + 1].questionIndex
        {
          assert front[i] == qs[i] && front[i + 1] == qs[i + 1];
        }
      }
      IncreasingIsPairwise(front);
      forall i, j | 0 <= i < j < |qs|
        ensures qs[i].questionIndex < qs[j].questionIndex
      {
        if j < |qs| - 1 {
          assert front[i] == qs[i] && front[j] == qs[j];
        } else if i < j - 1 {
          assert front[i] == qs[i] && front[j - 1] == qs[j - 1];
        }
      }
    }
  }

  lemma InitialIsValid()
    ensures Valid(Initial)
  {
  }

  /** Saving keeps the invariant, as long as the counter has not reached the top of `Int`. */
  lemma SaveDataToListPreservesValid(
    st: Store, questionStatement: Text, op1: Text, op2: Text, op3: Text, op4: Text, answer: Text)
    requires Valid(st) && st.currentIndex < MaxInt
    ensures Valid(SaveDataToList(st, questionStatement, op1, op2, op3, op4, answer))
  {
    var r := SaveDataToList(st, questionStatement, op1, op2, op3, op4, answer);
    var n := |st.questionList|;
    forall i | 0 <= i < n
      ensures r.questionList[i] == st.questionList[i]
    {
      assert r.questionList[..n][i] == st.questionList[i];
    }
    forall i | 0 <= i < |r.questionList|
      ensures 0 <= r.questionList[i].questionIndex < r.currentIndex
    {
      if i == n {
        assert r.questionList[n].questionIndex == st.currentIndex;
      }
    }
  }

  /** Deleting keeps the invariant: the records that close up over the gap were already in order. */
  lemma ClickDeleteItemPreservesValid(st: Store, position: int)
    requires Valid(st)
    ensures ClickDeleteItem(st, position).Success? ==> Valid(ClickDeleteItem(st, position).value)
  {
    if 0 <= position < |st.questionList| {
      IncreasingIsPairwise(st.questionList);
    }
  }

  lemma ConfirmDialogPreservesValid(st: Store, d: DialogInput)
    requires Valid(st) && st.currentIndex < MaxInt
    ensures Valid(ConfirmDialog(st, d).store)
  {
    if ValidateQuestion(d).None? {
      SaveDataToListPreservesValid(
        st, d.questionStatement, d.option1, d.option2, d.option3, d.option4, d.answer);
    }
  }

  /** No two entries at different positions are the same row for the adapter. */
  predicate DistinctRows(qs: seq<Question>) {
    forall i, j | 0 <= i < |qs| && 0 <= j < |qs| && i != j :: !AreItemsTheSame(qs[i], qs[j])
  }

  /** In a valid store no two entries are the same row for the adapter. */
  lemma ValidRowsAreDistinct(st: Store)
    requires Valid(st)
    ensures DistinctRows(st.questionList)
  {
    IncreasingIsPairwise(st.questionList);
  }

  /** One user action on the authoring screen. */
  datatype Event = AddClicked(input: DialogInput) | DeleteClicked(position: int)

  /**
    A session: the actions applied in order. A deletion outside the list throws, which ends
    the session with that error.
   */
  function Replay(st: Store, events: seq<Event>): (r: Result<Store, StoreError>)
    ensures r.Success? ==> |r.value.questionList| <= |st.questionList| + |events|
    decreases |events|
  {
    if events == [] then Success(st)
    else
      match events[0]
      case AddClicked(d) => Replay(ConfirmDialog(st, d).store, events[1..])
      case DeleteClicked(p) =>
        match ClickDeleteItem(st, p)
        case Failure(e) => Failure(e)
        case Success(next) => Replay(next, events[1..])
  }

  /** Each action raises the counter by at most one. */
  lemma {:induction false} ReplayCounterBound(st: Store, events: seq<Event>)
    requires st.currentIndex + |events| <= MaxInt
    ensures Replay(st, events).Success? ==>
      st.currentIndex <= Replay(st, events).value.currentIndex <= st.currentIndex + |events|
    decreases |events|
  {
    if events != [] {
      match events[0]
      case AddClicked(d) =>
        ReplayCounterBound(ConfirmDialog(st, d).store, events[1..]);
      case DeleteClicked(p) =>
        if ClickDeleteItem(st, p).Success? {
          ReplayCounterBound(ClickDeleteItem(st, p).value, events[1..]);
        }
    }
  }

  /**
    Any mix of additions and deletions keeps the invariant, for sessions of at most
    2^31 - 1 clicks from a zero counter (the counter wraps on the next addition).
   */
  lemma {:induction false} ReplayPreservesValid(st: Store, events: seq<Event>)
    requires Valid(st) && st.currentIndex + |events| <= MaxInt
    ensures Replay(st, events).Success? ==> Valid(Replay(st, events).value)
    decreases |events|
  {
    if events != [] {
      match events[0]
      case AddClicked(d) =>
        ConfirmDialogPreservesValid(st, d);
        ReplayPreservesValid(ConfirmDialog(st, d).store, events[1..]);
      case DeleteClicked(p) =>
        ClickDeleteItemPreservesValid(st, p);
        if ClickDeleteItem(st, p).Success? {
          ReplayPreservesValid(ClickDeleteItem(st, p).value, events[1..]);
        }
    }
  }

  /** From the empty screen, every session ends with each row's identity unique. */
  lemma SessionRowsAreDistinct(events: seq<Event>)
    requires |events| <= MaxInt
    ensures Replay(Initial, events).Success? ==> DistinctRows(Replay(Initial, events).value.questionList)
  {
    InitialIsValid();
    ReplayPreservesValid(Initial, events);
    if Replay(Initial, events).Success? {
      ValidRowsAreDistinct(Replay(Initial, events).value);
    }
  }

  /**
    The counter's wrap-around is what the size bound above excludes: at the top of `Int`
    a save stamps the top value and the counter drops to the bottom, below every index.
   */
  lemma CounterWrapBreaksValid(q: Question)
    requires q.questionIndex == MaxInt - 1
    ensures Valid(Store([q], MaxInt))
    ensures !Valid(SaveDataToList(Store([q], MaxInt), [], [], [], [], [], []))
  {
    var r := SaveDataToList(Store([q], MaxInt), [], [], [], [], [], []);
    assert r.currentIndex == MinInt;
    assert r.questionList[1].questionIndex == MaxInt;
  }

  /**
    Validation compares trimmed texts but the record keeps the texts as typed, so a saved
    answer need not equal any saved option: any text `a` without surrounding whitespace,
    offered as the answer to four options that are `a` followed by a space, is admitted.
   */
  lemma SavedAnswerMayDifferFromOptions(a: Text, space: CodeUnit)
    requires |a| > 0 && !IsWhitespace(a[0]) && !IsWhitespace(a[|a| - 1])
    requires IsWhitespace(space)
    ensures var padded := a + [space];
      var d := DialogInput(a, padded, padded, padded, padded, a);
      && ConfirmDialog(Initial, d).error == None
      && var q := ConfirmDialog(Initial, d).store.questionList[0];
         q.answer !in {q.option1, q.option2, q.option3, q.option4}
  {
    var padded := a + [space];
    var d := DialogInput(a, padded, padded, padded, padded, a);
    TrimKeepsUnpadded(a);
    TrimIgnoresPadding([], a, [space]);
    assert padded == [] + a + [space];
    assert |padded| != |a|;
  }
}
