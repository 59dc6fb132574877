/**
 * The shared boards page (src/components/SharedDNAs.jsx): boards other
 * teachers shared, the topic list over all of them, the search and topic
 * filter, each board's topic preview, and loading a board as practice cards.
 */
module SharedDnas {
  import opened Wrappers
  import opened Seqs
  import opened Strings
  import opened Sorting
  import opened Records

  /** A question stored in a shared board's configuration; each field may be missing. */
  datatype SharedQuestion = SharedQuestion(
    topic: Option<string>,
    questionText: Option<string>,
    answerText: Option<string>,
    generatorCode: Option<string>)

  /** `board.config`: the class name and the questions, each possibly missing. */
  datatype Config = Config(className: Option<string>, questions: Option<seq<SharedQuestion>>)

  /** A row of `shared_boards`; `config` is None when it is null. */
  datatype SharedBoard = SharedBoard(id: string, config: Option<Config>)

  /** `(board.config || {}).questions || []`. */
  function QuestionsOf(b: SharedBoard): seq<SharedQuestion> {
    if b.config.Some? then b.config.value.questions.GetOr([]) else []
  }

  /** `config.class_name`. */
  function ClassNameOf(b: SharedBoard): Option<string> {
    if b.config.Some? then b.config.value.className else None
  }

  /** A JavaScript truthy string: present and not empty. */
  predicate Truthy(s: Option<string>) {
    s.Some? && s.value != []
  }

  /** The truthy topics among `qs`, in order. */
  function TruthyTopics(qs: seq<SharedQuestion>): (r: seq<string>)
    ensures forall t :: t in r <==> exists i :: 0 <= i < |qs| && qs[i].topic == Some(t) && t != []
  {
    if qs == [] then []
    else
      var rest := TruthyTopics(qs[1..]);
      forall t ensures (exists i :: 0 <= i < |qs[1..]| && qs[1..][i].topic == Some(t) && t != [])
                       <==> (exists i :: 1 <= i < |qs| && qs[i].topic == Some(t) && t != []) {
        if exists i :: 1 <= i < |qs| && qs[i].topic == Some(t) && t != [] {
          var i :| 1 <= i < |qs| && qs[i].topic == Some(t) && t != [];
          assert qs[1..][i - 1] == qs[i];
        }
      }
      if Truthy(qs[0].topic) then [qs[0].topic.value] + rest else rest
  }

  /** `data.flatMap(board => (board.config?.questions || []).map(q => q.topic))`, as questions. */
  function AllQuestions(boards: seq<SharedBoard>): (r: seq<SharedQuestion>)
    ensures forall q :: q in r <==> exists b :: b in boards && q in QuestionsOf(b)
  {
    if boards == [] then [] else QuestionsOf(boards[0]) + AllQuestions(boards[1..])
  }

  /**
   * The topic list `[...new Set(allTopics)].filter(Boolean).sort()`: every
   * truthy topic of every board, once, in increasing order. (Dropping the
   * falsy values before de-duplicating keeps the same set, and the sort
   * fixes the order.)
   */
  function AllTopics(boards: seq<SharedBoard>): (r: seq<string>)
    ensures StrictlySorted(r)
    ensures forall t :: t in r <==> t != [] && exists b, q :: b in boards && q in QuestionsOf(b) && q.topic == Some(t)
  {
    var qs := AllQuestions(boards);
    var r := UniqueSorted(TruthyTopics(qs));
    forall t ensures t in r <==> t != [] && exists b, q :: b in boards && q in QuestionsOf(b) && q.topic == Some(t) {
      if t != [] && exists b, q :: b in boards && q in QuestionsOf(b) && q.topic == Some(t) {
        var b, q :| b in boards && q in QuestionsOf(b) && q.topic == Some(t);
        assert q in qs;
        var i :| 0 <= i < |qs| && qs[i] == q;
      }
      if t in r {
        var i :| 0 <= i < |qs| && qs[i].topic == Some(t) && t != [];
        assert qs[i] in qs;
      }
    }
    r
  }

  /** No topic appears twice and none is empty. */
  lemma AllTopicsClean(boards: seq<SharedBoard>)
    ensures Distinct(AllTopics(boards))
    ensures forall i :: 0 <= i < |AllTopics(boards)| ==> AllTopics(boards)[i] != []
  {
    var r := AllTopics(boards);
    assert StrictlySorted(r);
    forall i | 0 <= i < |r| ensures r[i] != [] {
      assert r[i] in r;
    }
  }

  /** The search box: the class name or some question's topic contains the text, ignoring case. */
  predicate MatchesSearch(b: SharedBoard, query: string) {
    query == []
    || (ClassNameOf(b).Some? && ContainsIgnoringCase(ClassNameOf(b).value, query))
    || exists q :: q in QuestionsOf(b) && q.topic.Some? && ContainsIgnoringCase(q.topic.value, query)
  }

  /** The topic filter: "all", or some question has exactly that topic. */
  predicate MatchesTopic(b: SharedBoard, filterTopic: string) {
    filterTopic == "all" || exists q :: q in QuestionsOf(b) && q.topic == Some(filterTopic)
  }

  /** `filteredBoards`: the boards passing both filters, in list order. */
  function FilteredBoards(boards: seq<SharedBoard>, query: string, filterTopic: string): (r: seq<SharedBoard>)
    ensures IsSubseq(r, boards)
    ensures forall i :: 0 <= i < |r| ==> MatchesSearch(r[i], query) && MatchesTopic(r[i], filterTopic)
    ensures forall i :: 0 <= i < |boards| && MatchesSearch(boards[i], query) && MatchesTopic(boards[i], filterTopic) ==>
              boards[i] in r
  {
    Filter(boards, (b: SharedBoard) => MatchesSearch(b, query) && MatchesTopic(b, filterTopic))
  }

  /** With no search text and topic "all" every board is listed. */
  lemma FilteredBoardsNoFilter(boards: seq<SharedBoard>)
    ensures FilteredBoards(boards, [], "all") == boards
  {
    FilterAll(boards, (b: SharedBoard) => MatchesSearch(b, []) && MatchesTopic(b, "all"));
  }

  /** Every topic of the drop-down, with no search text, keeps at least one board listed. */
  lemma ListedTopicSelectsBoard(boards: seq<SharedBoard>, t: string)
    requires t in AllTopics(boards)
    ensures FilteredBoards(boards, [], t) != []
  {
    var b, q :| b in boards && q in QuestionsOf(b) && q.topic == Some(t);
    var i :| 0 <= i < |boards| && boards[i] == b;
    assert MatchesSearch(boards[i], []) && MatchesTopic(boards[i], t);
  }

  /** The id of the card made from question `idx` of a board. */
  function CardId(boardId: string, idx: nat): string {
    "shared-" + boardId + "-" + NatToString(idx)
  }

  /** The card `loadBoard` makes from a shared question. */
  function SharedCard(boardId: string, idx: nat, q: SharedQuestion): (c: Card)
    ensures c.row.id == CardId(boardId, idx) && c.row.topic == q.topic.GetOr("")
    ensures c.currentQ == q.questionText && c.currentA == q.answerText
    ensures c.row.generatorCode == q.generatorCode.GetOr("")
    ensures !c.revealed && !c.isReview && c.fontSize == CustomFontSize
  {
    Card(Question(CardId(boardId, idx), q.topic.GetOr(""), "", "", q.generatorCode.GetOr(""), None, None),
         q.questionText, q.answerText, None, false, CustomFontSize, false, None)
  }

  /** The board as `loadBoard` hands it to the practice board. */
  datatype Loaded = Loaded(name: string, cards: seq<Card>)

  /** `loadBoard(board)`: one card per stored question, in order, under the class name or "Shared DNA". */
  function LoadBoard(b: SharedBoard): (r: Loaded)
    ensures |r.cards| == |QuestionsOf(b)|
    ensures forall i :: 0 <= i < |r.cards| ==> r.cards[i] == SharedCard(b.id, i, QuestionsOf(b)[i])
    ensures Truthy(ClassNameOf(b)) ==> r.name == ClassNameOf(b).value
    ensures !Truthy(ClassNameOf(b)) ==> r.name == "Shared DNA"
  {
    var qs := QuestionsOf(b);
    var name := if Truthy(ClassNameOf(b)) then ClassNameOf(b).value else "Shared DNA";
    Loaded(name, seq(|qs|, i requires 0 <= i < |qs| => SharedCard(b.id, i, qs[i])))
  }

  /** The loaded cards have pairwise different ids. */
  lemma LoadBoardIdsDistinct(b: SharedBoard, i: nat, j: nat)
    requires i < j < |LoadBoard(b).cards|
    ensures LoadBoard(b).cards[i].row.id != LoadBoard(b).cards[j].row.id
  {
    PrefixedNatInjective("shared-" + b.id + "-", i, j);
  }

  /** A board's card title: the class name, or "Untitled DNA". */
  function Title(b: SharedBoard): (r: string)
    ensures Truthy(ClassNameOf(b)) ==> r == ClassNameOf(b).value
    ensures !Truthy(ClassNameOf(b)) ==> r == "Untitled DNA"
  {
    if Truthy(ClassNameOf(b)) then ClassNameOf(b).value else "Untitled DNA"
  }

  /** `topicsInBoard`: the board's truthy topics once each, in order of first appearance. */
  function TopicsInBoard(b: SharedBoard): (r: seq<string>)
    ensures Distinct(r)
    ensures forall t :: t in r <==> t != [] && exists q :: q in QuestionsOf(b) && q.topic == Some(t)
  {
    var qs := QuestionsOf(b);
    var r := Dedup(TruthyTopics(qs));
    forall t ensures t in r <==> t != [] && exists q :: q in qs && q.topic == Some(t) {
      if t != [] && exists q :: q in qs && q.topic == Some(t) {
        var q :| q in qs && q.topic == Some(t);
        var i :| 0 <= i < |qs| && qs[i] == q;
      }
    }
    r
  }

  /** Some question has topic `t1` before any question has topic `t2`. */
  ghost predicate FirstSeenBefore(qs: seq<SharedQuestion>, t1: string, t2: string) {
    exists m :: 0 <= m < |qs| && qs[m].topic == Some(t1)
                && forall k :: 0 <= k < |qs| && qs[k].topic == Some(t2) ==> m < k
  }

  /** The topics of `topicsInBoard` come in the order the board's questions first mention them. */
  lemma TopicsInBoardOrder(b: SharedBoard)
    ensures forall i, j :: 0 <= i < j < |TopicsInBoard(b)| ==>
              FirstSeenBefore(QuestionsOf(b), TopicsInBoard(b)[i], TopicsInBoard(b)[j])
  {
    var qs := QuestionsOf(b);
    var ts := TruthyTopics(qs);
    var r := TopicsInBoard(b);
    DedupOrder(ts);
    forall i, j | 0 <= i < j < |r| ensures FirstSeenBefore(qs, r[i], r[j]) {
      TruthyTopicsOrder(qs, r[i], r[j]);
    }
  }

  /** The truthy topics keep the order of the questions. */
  lemma {:induction false} TruthyTopicsOrder(qs: seq<SharedQuestion>, t1: string, t2: string)
    requires t1 in TruthyTopics(qs) && t2 in TruthyTopics(qs)
    requires FirstIndex(TruthyTopics(qs), t1) < FirstIndex(TruthyTopics(qs), t2)
    ensures FirstSeenBefore(qs, t1, t2)
  {
    var ts := TruthyTopics(qs);
    var rest := TruthyTopics(qs[1..]);
    assert t1 != t2;
    assert t2 != [];
    if Truthy(qs[0].topic) && t1 == qs[0].topic.value {
      assert qs[0].topic == Some(t1);
      assert forall k :: 0 <= k < |qs| && qs[k].topic == Some(t2) ==> 0 < k;
    } else {
      if Truthy(qs[0].topic) {
        assert ts == [qs[0].topic.value] + rest;
        assert ts[1..] == rest;
      } else {
        assert ts == rest;
      }
      assert qs[0].topic != Some(t2);
      TruthyTopicsOrder(qs[1..], t1, t2);
      var m :| 0 <= m < |qs[1..]| && qs[1..][m].topic == Some(t1)
               && forall k :: 0 <= k < |qs[1..]| && qs[1..][k].topic == Some(t2) ==> m < k;
      assert qs[m + 1].topic == Some(t1);
      forall k | 0 <= k < |qs| && qs[k].topic == Some(t2) ensures m + 1 < k {
        assert qs[1..][k - 1] == qs[k];
      }
    }
  }

  /** The topic tags of a board's card: at most three, then "+n more" for the rest. */
  datatype TopicPreview = TopicPreview(tags: seq<string>, more: Option<nat>)

  function Preview(b: SharedBoard): (r: TopicPreview)
    ensures |r.tags| <= 3 && r.tags <= TopicsInBoard(b)
    ensures r.more.None? <==> |TopicsInBoard(b)| <= 3
    ensures r.more.Some? ==> |r.tags| + r.more.value == |TopicsInBoard(b)| && |r.tags| == 3
    ensures r.more.None? ==> r.tags == TopicsInBoard(b)
  {
    var ts := TopicsInBoard(b);
    if |ts| > 3 then TopicPreview(ts[..3], Some(|ts| - 3)) else TopicPreview(ts, None)
  }

  /** The state of the shared boards page. */
  class Gallery {
    var sharedBoards: seq<SharedBoard>
    var topics: seq<string>

    constructor ()
      ensures sharedBoards == [] && topics == []
    {
      sharedBoards := [];
      topics := [];
    }

    /** `fetchSharedBoards`: the boards, newest first, and their topic list (unchanged when `data` is null). */
    method FetchSharedBoards(data: Option<seq<SharedBoard>>)
      modifies this
      ensures data.Some? ==> sharedBoards == data.value && topics == AllTopics(data.value)
      ensures data.None? ==> sharedBoards == old(sharedBoards) && topics == old(topics)
    {
      if data.Some? {
        sharedBoards := data.value;
        topics := AllTopics(data.value);
      }
    }
  }
}
