/**
  The two comparisons the question list's adapter hands to the list-diffing library:
  `areItemsTheSame` (same row) and `areContentsTheSame` (row unchanged).
 */
module CreateQuestionAdapter {
  import opened CreateQuestionData

  /**
    `areItemsTheSame`: a row's identity is its record's `questionIndex`, so two records
    are the same row exactly when stamping the new one with the old one's index changes nothing.
   */
  function AreItemsTheSame(oldItem: Question, newItem: Question): (r: bool)
    ensures r <==> oldItem.questionIndex == newItem.questionIndex
    ensures r <==> WithQuestionIndex(newItem, oldItem.questionIndex) == newItem
  {
    oldItem.questionIndex == newItem.questionIndex
  }

  /** `areContentsTheSame`: data-class equality, i.e. all seven properties agree. */
  function AreContentsTheSame(oldItem: Question, newItem: Question): (r: bool)
    ensures r <==> AreItemsTheSame(oldItem, newItem) && SameTexts(oldItem, newItem)
  {
    oldItem == newItem
  }

  /** Equality includes the index, so unchanged content implies the same row. */
  lemma ContentsSameImpliesItemsSame(a: Question, b: Question)
    ensures AreContentsTheSame(a, b) ==> AreItemsTheSame(a, b)
  {
  }

  /** Both comparisons are reflexive and symmetric (and, being equalities, transitive). */
  lemma ComparisonsAreEquivalences(a: Question, b: Question, c: Question)
    ensures AreItemsTheSame(a, a) && AreContentsTheSame(a, a)
    ensures AreItemsTheSame(a, b) <==> AreItemsTheSame(b, a)
    ensures AreContentsTheSame(a, b) <==> AreContentsTheSame(b, a)
    ensures AreItemsTheSame(a, b) && AreItemsTheSame(b, c) ==> AreItemsTheSame(a, c)
    ensures AreContentsTheSame(a, b) && AreContentsTheSame(b, c) ==> AreContentsTheSame(a, c)
  {
  }

  /** Two records that are the same row but differ in content differ only in their texts. */
  lemma SameRowChangedContent(a: Question, b: Question)
    requires AreItemsTheSame(a, b) && !AreContentsTheSame(a, b)
    ensures !SameTexts(a, b)
  {
  }
}
