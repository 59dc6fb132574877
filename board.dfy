/**
 * The practice board (src/components/DNABoard.jsx): a board of at most six
 * cards built from due review cards and freshly sampled questions, the
 * per-slot operations on it (reveal, regenerate, re-level, swap), the rating
 * map keyed by card index, and the session record built from both.
 */
module DnaBoard {
  import opened Wrappers
  import opened Strings
  import opened Seqs
  import opened Records
  import Difficulty

  /** A board never holds more than this many cards. */
  const BoardSize: nat := 6

  function Min(a: int, b: int): int {
    if a <= b then a else b
  }

  /* ---------------------------------------------------------------------- */
  /* The generator guard                                                     */

  /**
   * `runGenerator(code)`: any outcome of the generator, including an
   * exception, becomes a question and an answer to show.
   */
  function RunGenerator(code: string, run: Execution): (g: Generated)
    ensures code == "" ==> g == Generated("No question available", "-", None)
    ensures code != "" && run.Throws? ==> g == Generated("Error in question", "-", None)
    ensures code != "" && (run.Nullish? || run.Primitive?) ==> g == Generated("Error generating question", "-", None)
    ensures code != "" && run.Obj? ==>
      g.q == run.q.GetOr("Missing question") && g.a == run.a.GetOr("-") && g.image == run.image
    ensures g.image.Some? ==> code != "" && run.Obj?
  {
    if code == "" then Generated("No question available", "-", None)
    else match run
      case Throws => Generated("Error in question", "-", None)
      case Nullish => Generated("Error generating question", "-", None)
      case Primitive => Generated("Error generating question", "-", None)
      case Obj(q, a, image) => Generated(q.GetOr("Missing question"), a.GetOr("-"), image)
  }

  /** When the generator fails in any way, the answer shown is "-" and there is no image. */
  lemma GeneratorFailureShowsDash(code: string, run: Execution)
    requires code == "" || !run.Obj?
    ensures RunGenerator(code, run).a == "-" && RunGenerator(code, run).image == None
    ensures RunGenerator(code, run).q in {"No question available", "Error in question", "Error generating question"}
  {
  }

  /* ---------------------------------------------------------------------- */
  /* Slot keys                                                               */

  /** `slot-${idx}`. */
  function SlotKey(idx: nat): string {
    "slot-" + NatToString(idx)
  }

  lemma SlotKeyInjective(i: nat, j: nat)
    requires i != j
    ensures SlotKey(i) != SlotKey(j)
  {
    PrefixedNatInjective("slot-", i, j);
  }

  /** Card `j` carries the key `slot-j`, for every position `j`. */
  predicate Keyed(cards: seq<Card>) {
    forall j :: 0 <= j < |cards| ==> cards[j].slotKey == Some(SlotKey(j))
  }

  /** `cards.map((card, idx) => ({ ...card, slotKey: `slot-${idx}` }))`. */
  function WithSlotKeys(cards: seq<Card>): (r: seq<Card>)
    ensures |r| == |cards| && Keyed(r)
    ensures forall j :: 0 <= j < |cards| ==> r[j] == cards[j].(slotKey := Some(SlotKey(j)))
  {
    seq(|cards|, j requires 0 <= j < |cards| => cards[j].(slotKey := Some(SlotKey(j))))
  }

  /** The slot keys of a keyed board are pairwise distinct (React's `key`). */
  lemma KeyedDistinct(cards: seq<Card>)
    requires Keyed(cards)
    ensures forall i, j :: 0 <= i < j < |cards| ==> cards[i].slotKey != cards[j].slotKey
  {
    forall i, j | 0 <= i < j < |cards| ensures cards[i].slotKey != cards[j].slotKey {
      SlotKeyInjective(i, j);
    }
  }

  /** The cards with their slot keys taken off, for comparing a board with what it was built from. */
  function Unkeyed(cards: seq<Card>): (r: seq<Card>)
    ensures |r| == |cards|
    ensures forall j :: 0 <= j < |cards| ==> r[j] == cards[j].(slotKey := None)
  {
    seq(|cards|, j requires 0 <= j < |cards| => cards[j].(slotKey := None))
  }

  /* ---------------------------------------------------------------------- */
  /* Building a fetched board                                                */

  /** The answer of the `get_due_cards` call: it threw, or it returned `data` (possibly null). */
  datatype DueResponse = DueThrew | DueData(rows: Option<seq<Question>>)

  /** `reviewQuestions`: the due rows, or none when the call threw or returned null. */
  function ReviewQuestions(due: DueResponse): (r: seq<Question>)
    ensures due.DueThrew? || due.rows.None? ==> r == []
    ensures due.DueData? && due.rows.Some? ==> r == due.rows.value
  {
    match due
    case DueThrew => []
    case DueData(rows) => rows.GetOr([])
  }

  /** A due row as a review card: its stored text, hidden, marked as a review. */
  function ReviewCard(q: Question): Card {
    Card(q, q.questionText, q.answerText, None, false, BoardFontSize, true, None)
  }

  /** A sampled row as a fresh card: the text its generator produced, hidden. */
  function FreshCard(q: Question, g: Generated): Card {
    Card(q, Some(g.q), Some(g.a), g.image, false, BoardFontSize, false, None)
  }

  function ReviewCards(qs: seq<Question>): (r: seq<Card>)
    ensures |r| == |qs|
    ensures forall i :: 0 <= i < |qs| ==> r[i] == ReviewCard(qs[i])
  {
    seq(|qs|, i requires 0 <= i < |qs| => ReviewCard(qs[i]))
  }

  /** The fresh cards; the generator of the `i`-th sampled row behaves as `outcome(i)`. */
  function FreshCards(qs: seq<Question>, outcome: nat -> Execution): (r: seq<Card>)
    ensures |r| == |qs|
    ensures forall i :: 0 <= i < |qs| ==> r[i] == FreshCard(qs[i], RunGenerator(qs[i].generatorCode, outcome(i)))
  {
    seq(|qs|, i requires 0 <= i < |qs| => FreshCard(qs[i], RunGenerator(qs[i].generatorCode, outcome(i))))
  }

  /** `query.in('topic', topics)`, applied only when `topics` is non-empty. */
  predicate InPool(q: Question, topics: seq<string>) {
    |topics| == 0 || q.topic in topics
  }

  /** The rows the pool query returns from the questions table. */
  function Pool(table: seq<Question>, topics: seq<string>): (r: seq<Question>)
    ensures IsSubseq(r, table)
    ensures forall i :: 0 <= i < |r| ==> InPool(r[i], topics)
    ensures forall i :: 0 <= i < |table| && InPool(table[i], topics) ==> table[i] in r
    ensures |topics| == 0 ==> r == table
  {
    var inPool := q => InPool(q, topics);
    if |topics| == 0 then
      FilterAll(table, inPool);
      Filter(table, inPool)
    else Filter(table, inPool)
  }

  /** The answer of the pool query: the matching rows, or None when `data` came back null. */
  function PoolResponse(questions: Option<seq<Question>>, topics: seq<string>): Option<seq<Question>> {
    match questions
    case None => None
    case Some(table) => Some(Pool(table, topics))
  }

  /**
   * `newQuestions`: with `slots` free slots and a pool that answered, the
   * first `slots` rows of a shuffle of the pool; otherwise none.
   */
  ghost predicate SampledFrom(slots: int, pool: Option<seq<Question>>, sampled: seq<Question>) {
    if slots > 0 && pool.Some? then
      |sampled| == Min(slots, |pool.value|) && multiset(sampled) <= multiset(pool.value)
    else sampled == []
  }

  /** `finalBoard`: the review cards followed by the fresh cards. */
  function Candidates(review: seq<Question>, sampled: seq<Question>, outcome: nat -> Execution): (r: seq<Card>)
    ensures |r| == |review| + |sampled|
  {
    ReviewCards(review) + FreshCards(sampled, outcome)
  }

  /**
   * `finalBoard.slice(0, 6)`, shuffled, with the keys `slot-0`, `slot-1`, ...
   * given by position.
   */
  ghost predicate ArrangedFrom(cands: seq<Card>, board: seq<Card>) {
    |board| == Min(BoardSize, |cands|)
    && Keyed(board)
    && multiset(Unkeyed(board)) == multiset(cands[..|board|])
  }

  /**
   * What a fetched board is: the sampled rows are at most `6 - |due|` rows
   * of the pool (none when no slot remains or the query failed), and the
   * board is the first six of the review cards followed by the fresh cards,
   * in some order, keyed by position.
   */
  ghost predicate BuiltBoard(due: DueResponse, topics: seq<string>, questions: Option<seq<Question>>,
                             outcome: nat -> Execution, sampled: seq<Question>, board: seq<Card>)
  {
    var review := ReviewQuestions(due);
    SampledFrom(BoardSize - |review|, PoolResponse(questions, topics), sampled)
    && ArrangedFrom(Candidates(review, sampled, outcome), board)
  }

  /** `shuffled.slice(0, slotsRemaining)` of a shuffle of the pool. */
  method Sample(slots: int, pool: seq<Question>) returns (sampled: seq<Question>)
    requires slots > 0
    ensures SampledFrom(slots, Some(pool), sampled)
  {
    var shuffled := Shuffle(pool);
    assert |shuffled| == |multiset(shuffled)| == |multiset(pool)| == |pool|;
    var k := Min(slots, |shuffled|);
    sampled := shuffled[..k];
    assert shuffled == sampled + shuffled[k..];
    assert multiset(shuffled) == multiset(sampled) + multiset(shuffled[k..]);
  }

  /** `.slice(0, 6).sort(() => 0.5 - Math.random()).map((card, idx) => ...)`. */
  method Arrange(cands: seq<Card>) returns (board: seq<Card>)
    requires forall i :: 0 <= i < |cands| ==> cands[i].slotKey == None
    ensures ArrangedFrom(cands, board)
  {
    var kept := cands[..Min(BoardSize, |cands|)];
    var order := Shuffle(kept);
    board := WithSlotKeys(order);
    forall j | 0 <= j < |order| ensures order[j].slotKey == None {
      assert order[j] in multiset(kept);
      var m :| 0 <= m < |kept| && kept[m] == order[j];
    }
    assert Unkeyed(board) == order;
  }

  /**
   * `fetchAndInitCards`: returns the class id the due cards are asked for, the
   * topic list of the pool query (None when the pool is not queried), the
   * sampled rows and the board.
   */
  method BuildBoard(className: string, due: DueResponse, recent: seq<string>, past: seq<string>,
                    questions: Option<seq<Question>>, outcome: nat -> Execution)
    returns (dueClass: string, query: Option<seq<string>>, sampled: seq<Question>, board: seq<Card>)
    ensures dueClass == if className == "" then "Default Class" else className
    ensures query.Some? <==> |ReviewQuestions(due)| < BoardSize
    ensures query.Some? ==> query.value == recent + past
    ensures BuiltBoard(due, recent + past, questions, outcome, sampled, board)
    ensures |board| <= BoardSize
  {
    dueClass := if className == "" then "Default Class" else className;
    var review := ReviewQuestions(due);
    var slotsRemaining := BoardSize - |review|;
    var topics := recent + past;
    sampled := [];
    query := None;
    if slotsRemaining > 0 {
      query := Some(topics);
      if questions.Some? {
        sampled := Sample(slotsRemaining, Pool(questions.value, topics));
      }
    }
    var finalBoard := Candidates(review, sampled, outcome);
    board := Arrange(finalBoard);
  }

  predicate IsReview(c: Card) {
    c.isReview
  }

  /** The number of review cards on a board. */
  function ReviewCount(cards: seq<Card>): nat {
    |Filter(cards, IsReview)|
  }

  lemma {:induction false} ReviewCountUnkeyed(cards: seq<Card>)
    ensures ReviewCount(Unkeyed(cards)) == ReviewCount(cards)
  {
    if cards != [] {
      assert Unkeyed(cards)[1..] == Unkeyed(cards[1..]);
      ReviewCountUnkeyed(cards[1..]);
    }
  }

  /** The first `n` candidates hold `min(|review|, n)` review cards. */
  lemma CandidatesReviewCount(review: seq<Question>, sampled: seq<Question>, outcome: nat -> Execution, n: nat)
    requires n <= |review| + |sampled|
    ensures ReviewCount(Candidates(review, sampled, outcome)[..n]) == Min(|review|, n)
  {
    var rc := ReviewCards(review);
    var fc := FreshCards(sampled, outcome);
    var prefix := Candidates(review, sampled, outcome)[..n];
    if |review| >= n {
      assert prefix == rc[..n];
      FilterAll(rc[..n], IsReview);
    } else {
      assert prefix == rc + fc[..n - |review|];
      FilterAppend(rc, fc[..n - |review|], IsReview);
      FilterAll(rc, IsReview);
      FilterNone(fc[..n - |review|], IsReview);
    }
  }

  /**
   * A fetched board holds `min(|due|, 6)` review cards, and the rest of it
   * (at most `6 - |due|` cards) is fresh.
   */
  lemma BuiltBoardComposition(due: DueResponse, topics: seq<string>, questions: Option<seq<Question>>,
                              outcome: nat -> Execution, sampled: seq<Question>, board: seq<Card>)
    requires BuiltBoard(due, topics, questions, outcome, sampled, board)
    ensures |board| <= BoardSize
    ensures ReviewCount(board) == Min(|ReviewQuestions(due)|, BoardSize)
    ensures |board| - ReviewCount(board) <= |sampled| <= BoardSize - Min(|ReviewQuestions(due)|, BoardSize)
  {
    var review := ReviewQuestions(due);
    var cands := Candidates(review, sampled, outcome);
    assert |board| == Min(BoardSize, |review| + |sampled|);
    assert multiset(Unkeyed(board)) == multiset(cands[..|board|]);
    FilterPermutation(Unkeyed(board), cands[..|board|], IsReview);
    ReviewCountUnkeyed(board);
    CandidatesReviewCount(review, sampled, outcome, |board|);
    assert ReviewCount(board) == Min(|review|, |board|);
    assert |sampled| <= BoardSize - Min(|review|, BoardSize) by {
      assert SampledFrom(BoardSize - |review|, PoolResponse(questions, topics), sampled);
    }
  }

  /**
   * Every card of a fetched board starts hidden at the board font size; a
   * review card shows its stored question and answer text; a fresh card shows
   * generated text.
   */
  lemma BuiltBoardCards(due: DueResponse, topics: seq<string>, questions: Option<seq<Question>>,
                        outcome: nat -> Execution, sampled: seq<Question>, board: seq<Card>, j: nat)
    requires BuiltBoard(due, topics, questions, outcome, sampled, board)
    requires j < |board|
    ensures !board[j].revealed && board[j].fontSize == BoardFontSize
    ensures board[j].isReview ==>
              board[j].row in ReviewQuestions(due)
              && board[j].currentQ == board[j].row.questionText && board[j].currentA == board[j].row.answerText
    ensures !board[j].isReview ==>
              board[j].row in sampled && board[j].currentQ.Some? && board[j].currentA.Some?
  {
    var review := ReviewQuestions(due);
    var prefix := Candidates(review, sampled, outcome)[..|board|];
    var u := Unkeyed(board);
    assert u[j] in multiset(prefix);
    var m :| 0 <= m < |prefix| && prefix[m] == u[j];
    CandidateShape(review, sampled, outcome, m);
    assert u[j] == board[j].(slotKey := None);
  }

  /** What `BuiltBoardCards` states of a board card, for the `m`-th candidate. */
  predicate ShapedCandidate(c: Card, review: seq<Question>, sampled: seq<Question>) {
    && !c.revealed && c.fontSize == BoardFontSize
    && (c.isReview ==> c.row in review && c.currentQ == c.row.questionText && c.currentA == c.row.answerText)
    && (!c.isReview ==> c.row in sampled && c.currentQ.Some? && c.currentA.Some?)
  }

  lemma CandidateShape(review: seq<Question>, sampled: seq<Question>, outcome: nat -> Execution, m: nat)
    requires m < |review| + |sampled|
    ensures ShapedCandidate(Candidates(review, sampled, outcome)[m], review, sampled)
  {
    var all := Candidates(review, sampled, outcome);
    if m < |review| {
      assert all[m] == ReviewCards(review)[m] == ReviewCard(review[m]);
    } else {
      assert all[m] == FreshCards(sampled, outcome)[m - |review|];
    }
  }

  /* ---------------------------------------------------------------------- */
  /* Per-slot updates                                                        */

  /** `prev.map((c, i) => i === index ? f(c) : c)`: only card `index` changes. */
  function MapAt(cards: seq<Card>, index: int, f: Card -> Card): (r: seq<Card>)
    ensures |r| == |cards|
    ensures forall j :: 0 <= j < |cards| && j != index ==> r[j] == cards[j]
    ensures 0 <= index < |cards| ==> r[index] == f(cards[index])
  {
    seq(|cards|, j requires 0 <= j < |cards| => if j == index then f(cards[j]) else cards[j])
  }

  /** An update that keeps a card's slot key keeps the board keyed. */
  lemma MapAtKeyed(cards: seq<Card>, index: int, f: Card -> Card)
    requires Keyed(cards)
    requires forall c :: f(c).slotKey == c.slotKey
    ensures Keyed(MapAt(cards, index, f))
  {
    var r := MapAt(cards, index, f);
    forall j | 0 <= j < |r| ensures r[j].slotKey == Some(SlotKey(j)) {
      if j == index {
        assert r[j] == f(cards[j]);
      }
    }
  }

  function Flip(c: Card): Card {
    c.(revealed := !c.revealed)
  }

  /** `toggleReveal(index)`. */
  function Toggled(cards: seq<Card>, index: int): (r: seq<Card>)
    ensures |r| == |cards|
    ensures forall j :: 0 <= j < |cards| && j != index ==> r[j] == cards[j]
    ensures 0 <= index < |cards| ==>
              r[index].revealed == !cards[index].revealed && r[index] == cards[index].(revealed := r[index].revealed)
  {
    MapAt(cards, index, Flip)
  }

  /** Revealing a card twice restores the board. */
  lemma ToggleTwice(cards: seq<Card>, index: int)
    ensures Toggled(Toggled(cards, index), index) == cards
  {
    var r := Toggled(Toggled(cards, index), index);
    forall j | 0 <= j < |cards| ensures r[j] == cards[j] {
    }
  }

  /** The new text of a regenerated card: hidden again, everything else kept. */
  function Regenerated(c: Card, g: Generated): (r: Card)
    ensures r.row == c.row && r.slotKey == c.slotKey && r.fontSize == c.fontSize && r.isReview == c.isReview
    ensures !r.revealed && r.currentQ == Some(g.q) && r.currentA == Some(g.a) && r.currentImage == g.image
  {
    c.(currentQ := Some(g.q), currentA := Some(g.a), currentImage := g.image, revealed := false)
  }

  /**
   * The card `changeDifficulty` puts in a slot: the matched row with new
   * text, hidden, not a review, keeping the slot's key and font size.
   */
  function Releveled(c: Card, q: Question, g: Generated): (r: Card)
    ensures r.row == q && r.slotKey == c.slotKey && r.fontSize == c.fontSize
    ensures !r.revealed && !r.isReview && r.currentQ == Some(g.q) && r.currentA == Some(g.a)
    ensures r.currentImage == g.image
  {
    Card(q, Some(g.q), Some(g.a), g.image, false, c.fontSize, false, c.slotKey)
  }

  /** The card `swapTopic` puts in a slot: like a re-levelled card, at the board font size. */
  function SwappedIn(c: Card, q: Question, g: Generated): (r: Card)
    ensures r.row == q && r.slotKey == c.slotKey && r.fontSize == BoardFontSize
    ensures !r.revealed && !r.isReview && r.currentQ == Some(g.q) && r.currentA == Some(g.a)
    ensures r.currentImage == g.image
  {
    Card(q, Some(g.q), Some(g.a), g.image, false, BoardFontSize, false, c.slotKey)
  }

  /** The spellings `changeDifficulty` queries for each level (its own table). */
  function ChangeTargets(level: int): (r: seq<string>)
    ensures !(1 <= level <= 3) ==> r == []
  {
    if level == 1 then [Difficulty.Dot1, "1", "Level 1", "Easy", "easy"]
    else if level == 2 then [Difficulty.Dot2, "2", "Level 2", "Medium", "medium"]
    else if level == 3 then [Difficulty.Dot3, "3", "Level 3", "Hard", "hard"]
    else []
  }

  /**
   * The re-level table is a strict part of the alias table: every spelling it
   * asks for is an alias of that level, and the lower-case `level N` spelling
   * is not asked for.
   */
  lemma ChangeTargetsAreVariations(level: int)
    ensures forall i :: 0 <= i < |ChangeTargets(level)| ==> ChangeTargets(level)[i] in Difficulty.Variations(level)
    ensures "level 1" in Difficulty.Variations(1) && "level 1" !in ChangeTargets(1)
    ensures "level 2" in Difficulty.Variations(2) && "level 2" !in ChangeTargets(2)
    ensures "level 3" in Difficulty.Variations(3) && "level 3" !in ChangeTargets(3)
  {
  }

  /** The scope of the re-level query: same skill if the card has one, else same topic, else any. */
  predicate InScope(card: Question, q: Question) {
    if card.skillName != "" then q.skillName == card.skillName
    else if card.topic != "" then q.topic == card.topic
    else true
  }

  /** The rows the re-level query returns. */
  function LevelMatches(table: seq<Question>, card: Question, level: int): (r: seq<Question>)
    ensures IsSubseq(r, table)
    ensures forall i :: 0 <= i < |r| ==> r[i].difficulty in ChangeTargets(level) && InScope(card, r[i])
    ensures forall i :: 0 <= i < |table| && table[i].difficulty in ChangeTargets(level) && InScope(card, table[i]) ==>
              table[i] in r
    ensures !(1 <= level <= 3) ==> r == []
  {
    var matches := (q: Question) => q.difficulty in ChangeTargets(level) && InScope(card, q);
    if !(1 <= level <= 3) then
      FilterNone(table, matches);
      Filter(table, matches)
    else Filter(table, matches)
  }

  /* ---------------------------------------------------------------------- */
  /* Ratings and the session record                                          */

  /** The indices `0 .. n-1`. */
  function Indices(n: nat): (s: set<int>)
    ensures |s| == n
    ensures forall i :: i in s <==> 0 <= i < n
  {
    if n == 0 then {} else Indices(n - 1) + {n - 1}
  }

  /**
   * When every rated index is a card index, the save prompt's test (as many
   * rated indices as cards) holds exactly when every card is rated.
   */
  lemma CompleteIffAllRated(ratings: map<int, int>, n: nat)
    requires forall k :: k in ratings ==> 0 <= k < n
    ensures |ratings.Keys| == n <==> forall i :: 0 <= i < n ==> i in ratings
  {
    var all := Indices(n);
    assert ratings.Keys <= all;
    if forall i :: 0 <= i < n ==> i in ratings {
      assert all == ratings.Keys;
    }
    if |ratings.Keys| == n {
      var missing := all - ratings.Keys;
      assert all == ratings.Keys + missing;
      assert |missing| == 0;
      forall i | 0 <= i < n ensures i in ratings {
        assert i in all;
      }
    }
  }

  /** One entry of `results` in the saved session. */
  datatype SessionResult = SessionResult(
    questionId: string,
    topic: string,
    questionText: Option<string>,
    answerText: Option<string>,
    score: int,
    reviewInterval: int)

  /** `ratings[index] >= 75 ? 12 : 1`; an unrated card compares as `undefined` and gets 1. */
  function ReviewInterval(ratings: map<int, int>, index: int): (d: int)
    ensures d == 12 || d == 1
    ensures d == 12 <==> index in ratings && ratings[index] >= 75
  {
    if index in ratings && ratings[index] >= 75 then 12 else 1
  }

  /** `saveSession`'s `results`: one entry per card, in board order. */
  function SessionResults(cards: seq<Card>, ratings: map<int, int>): (r: seq<SessionResult>)
    ensures |r| == |cards|
    ensures forall i :: 0 <= i < |cards| ==>
      r[i].questionId == cards[i].row.id && r[i].topic == cards[i].row.topic
      && r[i].questionText == cards[i].currentQ && r[i].answerText == cards[i].currentA
    ensures forall i :: 0 <= i < |cards| ==>
      (i in ratings ==> r[i].score == ratings[i]) && (i !in ratings ==> r[i].score == 0 && r[i].reviewInterval == 1)
    ensures forall i :: 0 <= i < |r| ==> (r[i].reviewInterval == 12 <==> r[i].score >= 75)
    ensures forall i :: 0 <= i < |r| ==> r[i].reviewInterval == 1 || r[i].reviewInterval == 12
  {
    seq(|cards|, i requires 0 <= i < |cards| =>
      var c := cards[i];
      SessionResult(c.row.id, c.row.topic, c.currentQ, c.currentA,
                    if i in ratings then ratings[i] else 0, ReviewInterval(ratings, i)))
  }

  /** `currentClass?.name || "Custom Session"`: the class a saved session is filed under. */
  function SessionClassId(className: string): (id: string)
    ensures className != "" ==> id == className
    ensures className == "" ==> id == "Custom Session"
  {
    if className == "" then "Custom Session" else className
  }

  /** The outcome of a re-level request. */
  datatype LevelOutcome =
    | Replaced   // a matching question took the slot
    | Alerted    // no match: the "No questions found" alert, nothing changes
    | Crashed    // no card at that index: reading its fields throws, nothing changes

  /* ---------------------------------------------------------------------- */
  /* The board's state                                                       */

  /** The `cards` and `ratings` state of the board component. */
  class Board {
    var cards: seq<Card>
    var ratings: map<int, int>

    /** Every card carries the key of its position. */
    ghost predicate Valid()
      reads this
    {
      Keyed(cards)
    }

    constructor ()
      ensures Valid() && cards == [] && ratings == map[]
    {
      cards := [];
      ratings := map[];
    }

    /** A board handed in with the class (`currentClass.cards`): keyed, not truncated. */
    method Preload(preset: seq<Card>)
      modifies this
      ensures Valid()
      ensures cards == WithSlotKeys(preset) && |cards| == |preset|
      ensures ratings == old(ratings)
    {
      cards := WithSlotKeys(preset);
    }

    /** `fetchAndInitCards(classObj)`: replaces the cards with a freshly built board. */
    method FetchAndInit(className: string, due: DueResponse, recent: seq<string>, past: seq<string>,
                        questions: Option<seq<Question>>, outcome: nat -> Execution)
      returns (dueClass: string, query: Option<seq<string>>, sampled: seq<Question>)
      modifies this
      ensures Valid()
      ensures dueClass == if className == "" then "Default Class" else className
      ensures query.Some? <==> |ReviewQuestions(due)| < BoardSize
      ensures query.Some? ==> query.value == recent + past
      ensures BuiltBoard(due, recent + past, questions, outcome, sampled, cards)
      ensures ratings == old(ratings)
    {
      var board;
      dueClass, query, sampled, board := BuildBoard(className, due, recent, past, questions, outcome);
      cards := board;
    }

    /** `toggleReveal(index)`: flips card `index` only; ratings untouched. */
    method ToggleReveal(index: int)
      requires Valid()
      modifies this
      ensures Valid()
      ensures cards == Toggled(old(cards), index)
      ensures ratings == old(ratings)
    {
      MapAtKeyed(cards, index, Flip);
      cards := Toggled(cards, index);
    }

    /**
     * `refreshCard(index)`: for a card with generator code, new text from the
     * generator and the card's rating dropped; otherwise nothing.
     */
    method RefreshCard(index: int, run: Execution) returns (refreshed: bool)
      requires Valid()
      modifies this
      ensures Valid()
      ensures refreshed <==> 0 <= index < |old(cards)| && old(cards)[index].row.generatorCode != ""
      ensures !refreshed ==> cards == old(cards) && ratings == old(ratings)
      ensures refreshed ==>
                var g := RunGenerator(old(cards)[index].row.generatorCode, run);
                cards == MapAt(old(cards), index, c => Regenerated(c, g))
                && ratings == old(ratings) - {index}
    {
      refreshed := 0 <= index < |cards| && cards[index].row.generatorCode != "";
      if refreshed {
        var g := RunGenerator(cards[index].row.generatorCode, run);
        var regen := c => Regenerated(c, g);
        MapAtKeyed(cards, index, regen);
        cards := MapAt(cards, index, regen);
        ratings := ratings - {index};
      }
    }

    /**
     * `changeDifficulty(index, level)`: `table` is the questions table (None
     * when the query's `data` is null), `r` the `Math.random()` value that
     * picks a match and `run` the picked generator's outcome.
     */
    method ChangeDifficulty(index: int, level: int, table: Option<seq<Question>>, r: Unit, run: Execution)
      returns (outcome: LevelOutcome)
      requires Valid()
      modifies this
      ensures Valid()
      ensures outcome != Replaced ==> cards == old(cards) && ratings == old(ratings)
      ensures outcome == Crashed <==> !(0 <= index < |old(cards)|)
      ensures outcome == Replaced <==>
                0 <= index < |old(cards)| && table.Some?
                && |LevelMatches(table.value, old(cards)[index].row, level)| > 0
      ensures outcome == Replaced ==>
                var m := LevelMatches(table.value, old(cards)[index].row, level);
                var q := m[PickIndex(r, |m|)];
                cards == MapAt(old(cards), index, c => Releveled(c, q, RunGenerator(q.generatorCode, run)))
                && ratings == old(ratings) - {index}
    {
      if !(0 <= index < |cards|) {
        return Crashed;
      }
      var current := cards[index];
      if table.None? {
        return Alerted;
      }
      var data := LevelMatches(table.value, current.row, level);
      if |data| == 0 {
        return Alerted;
      }
      var randomQ := data[PickIndex(r, |data|)];
      var g := RunGenerator(randomQ.generatorCode, run);
      var relevel := c => Releveled(c, randomQ, g);
      MapAtKeyed(cards, index, relevel);
      cards := MapAt(cards, index, relevel);
      ratings := ratings - {index};
      outcome := Replaced;
    }

    /**
     * `swapTopic(index)`: any question of the table (None when `data` is
     * null) takes the slot at the board font size; the rating at `index` is
     * dropped whenever the table is non-empty.
     */
    method SwapTopic(index: int, table: Option<seq<Question>>, r: Unit, run: Execution)
      returns (swapped: bool)
      requires Valid()
      modifies this
      ensures Valid()
      ensures swapped <==> table.Some? && |table.value| > 0
      ensures !swapped ==> cards == old(cards) && ratings == old(ratings)
      ensures swapped ==>
                var q := table.value[PickIndex(r, |table.value|)];
                cards == MapAt(old(cards), index, c => SwappedIn(c, q, RunGenerator(q.generatorCode, run)))
                && ratings == old(ratings) - {index}
    {
      swapped := table.Some? && |table.value| > 0;
      if swapped {
        var randomQ := table.value[PickIndex(r, |table.value|)];
        var g := RunGenerator(randomQ.generatorCode, run);
        var swapIn := c => SwappedIn(c, randomQ, g);
        MapAtKeyed(cards, index, swapIn);
        cards := MapAt(cards, index, swapIn);
        ratings := ratings - {index};
      }
    }

    /**
     * `handleRating(index, score)`: records the score; `prompt` says whether
     * the save dialog is scheduled (as many rated indices as cards).
     */
    method HandleRating(index: int, score: int) returns (prompt: bool)
      requires Valid()
      modifies this
      ensures Valid()
      ensures ratings == old(ratings)[index := score]
      ensures cards == old(cards)
      ensures prompt <==> |ratings.Keys| == |cards|
    {
      ratings := ratings[index := score];
      prompt := |ratings.Keys| == |cards|;
    }

    /** The Reset button: all ratings dropped, cards kept. */
    method Reset()
      requires Valid()
      modifies this
      ensures Valid()
      ensures ratings == map[] && cards == old(cards)
    {
      ratings := map[];
    }

    /** `saveSession`'s record: the class it is filed under and one result per card. */
    method SaveSession(className: string) returns (classId: string, results: seq<SessionResult>)
      ensures classId == SessionClassId(className)
      ensures results == SessionResults(cards, ratings)
    {
      classId := SessionClassId(className);
      results := SessionResults(cards, ratings);
    }
  }
}
