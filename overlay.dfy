/**
 * The session-tracker overlay (src/overlay.jsx): a fixed list of question
 * rows, each scored by one of four traffic-light buttons.
 */
module Overlay {
  import opened Wrappers

  /** A question row; `score` is None until a button is pressed. */
  datatype Row = Row(id: int, text: string, answer: string, score: Option<int>)

  /** The scores the four buttons set. */
  const ButtonScores: seq<int> := [100, 75, 25, 0]

  /** The rows the overlay starts with. */
  const InitialRows: seq<Row> := [
    Row(1, "Solve: 2x + 4 = 12", "x = 4", None),
    Row(2, "Expand: 3(x + 5)", "3x + 15", None),
    Row(3, "Simplify: 2a - a + b", "a + b", None),
    Row(4, "Calculate: 15% of 40", "6", None)
  ]

  /** `questions.map(q => q.id === id ? { ...q, score: value } : q)`. */
  function SetScore(rows: seq<Row>, id: int, value: int): (r: seq<Row>)
    ensures |r| == |rows|
    ensures forall i :: 0 <= i < |rows| && rows[i].id == id ==> r[i] == rows[i].(score := Some(value))
    ensures forall i :: 0 <= i < |rows| && rows[i].id != id ==> r[i] == rows[i]
  {
    seq(|rows|, i requires 0 <= i < |rows| => if rows[i].id == id then rows[i].(score := Some(value)) else rows[i])
  }

  /** Scoring keeps every row's id, text and answer in place. */
  lemma SetScoreKeepsQuestions(rows: seq<Row>, id: int, value: int)
    ensures forall i :: 0 <= i < |rows| ==>
              SetScore(rows, id, value)[i].id == rows[i].id
              && SetScore(rows, id, value)[i].text == rows[i].text
              && SetScore(rows, id, value)[i].answer == rows[i].answer
  {
  }

  /** Pressing the same button twice is the same as once. */
  lemma SetScoreIdempotent(rows: seq<Row>, id: int, value: int)
    ensures SetScore(SetScore(rows, id, value), id, value) == SetScore(rows, id, value)
  {
  }

  /** Scoring one row and then another gives the same list in either order. */
  lemma SetScoreCommutes(rows: seq<Row>, id1: int, v1: int, id2: int, v2: int)
    requires id1 != id2
    ensures SetScore(SetScore(rows, id1, v1), id2, v2) == SetScore(SetScore(rows, id2, v2), id1, v1)
  {
  }

  /** The last button pressed for a row decides its score. */
  lemma SetScoreLastWins(rows: seq<Row>, id: int, v1: int, v2: int)
    ensures SetScore(SetScore(rows, id, v1), id, v2) == SetScore(rows, id, v2)
  {
  }

  /** The ids of the initial rows differ, so each button scores exactly one row. */
  lemma InitialRowsDistinctIds()
    ensures forall i, j :: 0 <= i < j < |InitialRows| ==> InitialRows[i].id != InitialRows[j].id
    ensures forall i :: 0 <= i < |InitialRows| ==> InitialRows[i].score.None?
  {
  }

  /** Scores only ever come from the buttons. */
  predicate ScoresFromButtons(rows: seq<Row>) {
    forall i :: 0 <= i < |rows| && rows[i].score.Some? ==> rows[i].score.value in ButtonScores
  }

  /** The overlay's state. */
  class Tracker {
    var questions: seq<Row>

    /** Every score shown was set by one of the buttons. */
    ghost predicate Valid()
      reads this
    {
      ScoresFromButtons(questions)
    }

    constructor ()
      ensures Valid() && questions == InitialRows
    {
      questions := InitialRows;
    }

    /** `handleScore(id, value)`, `value` being one of the buttons' scores. */
    method HandleScore(id: int, value: int)
      requires Valid() && value in ButtonScores
      modifies this
      ensures Valid()
      ensures questions == SetScore(old(questions), id, value)
    {
      questions := SetScore(questions, id, value);
    }
  }
}
