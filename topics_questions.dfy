/**
 * The question bank page (src/components/TopicsQuestions.jsx): the list of
 * questions filtered by topic and search text, per-topic statistics, a
 * sample run of each generator, and the form that adds a question.
 */
module TopicsQuestions {
  import opened Wrappers
  import opened Seqs
  import opened Strings
  import opened Records
  import opened Topics

  /** The topic filter's value that shows every topic. */
  const AllTopics: string := "all"

  /** `selectedTopic === 'all' || q.topic === selectedTopic`. */
  predicate MatchesTopic(q: Question, selected: string) {
    selected == AllTopics || q.topic == selected
  }

  /**
   * `!searchQuery || topic includes it || (generator_code && code includes it)`,
   * ignoring case; an empty `generatorCode` stands for a missing one.
   */
  predicate MatchesQuery(q: Question, query: string) {
    query == [] || ContainsIgnoringCase(q.topic, query)
    || (q.generatorCode != [] && ContainsIgnoringCase(q.generatorCode, query))
  }

  /** `filteredQuestions`: the questions passing both filters, in list order. */
  function FilteredQuestions(qs: seq<Question>, selected: string, query: string): (r: seq<Question>)
    ensures IsSubseq(r, qs)
    ensures forall i :: 0 <= i < |r| ==> MatchesTopic(r[i], selected) && MatchesQuery(r[i], query)
    ensures forall i :: 0 <= i < |qs| && MatchesTopic(qs[i], selected) && MatchesQuery(qs[i], query) ==> qs[i] in r
  {
    Filter(qs, (q: Question) => MatchesTopic(q, selected) && MatchesQuery(q, query))
  }

  /** With topic "all" and no search text every question is listed. */
  lemma FilteredNoFilter(qs: seq<Question>)
    ensures FilteredQuestions(qs, AllTopics, "") == qs
  {
    FilterAll(qs, (q: Question) => MatchesTopic(q, AllTopics) && MatchesQuery(q, ""));
  }

  /** A specific topic lists only questions of exactly that topic. */
  lemma FilteredByTopic(qs: seq<Question>, selected: string, query: string, q: Question)
    requires selected != AllTopics && q in FilteredQuestions(qs, selected, query)
    ensures q.topic == selected && q in qs
  {
  }

  /** What `runGenerator` gave when run for a question's example. */
  datatype Example = Example(q: Option<string>, a: Option<string>)

  /**
   * `runGenerator(code)` of this page: the generator's value, or
   * `{ q: "Error in code", a: "..." }` when it throws. None is a `null` or
   * `undefined` value, whose fields cannot be read when the list renders.
   */
  function RunGenerator(run: Execution): (r: Option<Example>)
    ensures run.Throws? ==> r == Some(Example(Some("Error in code"), Some("...")))
    ensures r.None? <==> run.Nullish?
    ensures run.Obj? ==> r == Some(Example(run.q, run.a))
    ensures run.Primitive? ==> r == Some(Example(None, None))
  {
    match run
    case Throws => Some(Example(Some("Error in code"), Some("...")))
    case Nullish => None
    case Primitive => Some(Example(None, None))
    case Obj(q, a, _) => Some(Example(q, a))
  }

  predicate IsEasy(q: Question) { q.difficulty == "Easy" }
  predicate IsMedium(q: Question) { q.difficulty == "Medium" }
  predicate IsHard(q: Question) { q.difficulty == "Hard" }

  /** `getTopicStats(topic)`. */
  datatype TopicStats = TopicStats(count: nat, easy: nat, medium: nat, hard: nat)

  /** `q => q.topic === topic`. */
  function HasTopic(topic: string): Question -> bool {
    (q: Question) => q.topic == topic
  }

  /** A question of the topic whose difficulty is exactly the given name. */
  function HasTopicAndDifficulty(topic: string, difficulty: string): Question -> bool {
    (q: Question) => q.topic == topic && q.difficulty == difficulty
  }

  /**
   * `getTopicStats(topic)`: the topic's question count, and for each of
   * "Easy", "Medium" and "Hard" the number of all questions with that topic
   * and exactly that difficulty name.
   */
  function GetTopicStats(qs: seq<Question>, topic: string): (r: TopicStats)
    ensures r.count == |Filter(qs, HasTopic(topic))| <= |qs|
    ensures r.easy == |Filter(qs, HasTopicAndDifficulty(topic, "Easy"))|
    ensures r.medium == |Filter(qs, HasTopicAndDifficulty(topic, "Medium"))|
    ensures r.hard == |Filter(qs, HasTopicAndDifficulty(topic, "Hard"))|
    ensures r.easy + r.medium + r.hard <= r.count
  {
    var tq := Filter(qs, HasTopic(topic));
    ThreeWayCount(tq);
    FilterFilter(qs, HasTopic(topic), IsEasy, HasTopicAndDifficulty(topic, "Easy"));
    FilterFilter(qs, HasTopic(topic), IsMedium, HasTopicAndDifficulty(topic, "Medium"));
    FilterFilter(qs, HasTopic(topic), IsHard, HasTopicAndDifficulty(topic, "Hard"));
    TopicStats(|tq|, |Filter(tq, IsEasy)|, |Filter(tq, IsMedium)|, |Filter(tq, IsHard)|)
  }

  /** Each question has at most one of the three difficulty names. */
  lemma {:induction false} ThreeWayCount(xs: seq<Question>)
    ensures |Filter(xs, IsEasy)| + |Filter(xs, IsMedium)| + |Filter(xs, IsHard)| <= |xs|
  {
    if xs != [] {
      ThreeWayCount(xs[1..]);
    }
  }

  /** A question whose difficulty is some other spelling ("easy", a dot mark) is counted in none of the three. */
  lemma OtherSpellingNotCounted(q: Question)
    requires q.difficulty == "\U{2022}"
    ensures GetTopicStats([q], q.topic) == TopicStats(1, 0, 0, 0)
  {
    assert Filter([q], HasTopic(q.topic)) == [q];
  }

  /** Every topic in the drop-down has at least one question. */
  lemma ListedTopicsHaveQuestions(qs: seq<Question>, topic: string)
    requires topic in UniqueTopics(qs)
    ensures GetTopicStats(qs, topic).count > 0
  {
    UniqueTopicsMembers(qs, topic);
    var i :| 0 <= i < |qs| && qs[i].topic == topic;
    assert qs[i] in Filter(qs, HasTopic(topic));
  }

  /** The add-question form. */
  datatype NewQuestion = NewQuestion(topic: string, difficulty: string, generatorCode: string)

  /** The empty form. */
  const BlankForm: NewQuestion := NewQuestion("", "Medium", "")

  /** The row `handleAddQuestion` inserts: None when topic or code is empty (nothing is inserted). */
  function AddRequest(form: NewQuestion): (r: Option<NewQuestion>)
    ensures r.None? <==> form.topic == [] || form.generatorCode == []
    ensures r.Some? ==> r.value == form
  {
    if form.topic == [] || form.generatorCode == [] then None else Some(form)
  }

  /** `setExpandedQuestion(isExpanded ? null : q.id)`: clicking a question opens it or closes it. */
  function ClickQuestion(expanded: Option<string>, id: string): (r: Option<string>)
    ensures expanded == Some(id) ==> r.None?
    ensures expanded != Some(id) ==> r == Some(id)
  {
    if expanded == Some(id) then None else Some(id)
  }

  /** Clicking the same question twice closes it again, or reopens it. */
  lemma ClickTwice(expanded: Option<string>, id: string)
    ensures ClickQuestion(ClickQuestion(expanded, id), id) == (if expanded == Some(id) then Some(id) else None)
  {
  }

  /** The state of the question bank page. */
  class Bank {
    var questions: seq<Question>
    var topics: seq<string>
    var selectedTopic: string
    var searchQuery: string
    var newQuestion: NewQuestion
    var showAddModal: bool

    constructor ()
      ensures questions == [] && topics == [] && selectedTopic == AllTopics && searchQuery == []
      ensures newQuestion == BlankForm && !showAddModal
    {
      questions := [];
      topics := [];
      selectedTopic := AllTopics;
      searchQuery := [];
      newQuestion := BlankForm;
      showAddModal := false;
    }

    /** `fetchQuestions`: the questions and their sorted distinct topics (unchanged when `data` is null). */
    method FetchQuestions(data: Option<seq<Question>>)
      modifies this`questions, this`topics
      ensures data.Some? ==> questions == data.value && topics == UniqueTopics(data.value)
      ensures data.None? ==> questions == old(questions) && topics == old(topics)
    {
      if data.Some? {
        questions := data.value;
        topics := UniqueTopics(data.value);
      }
    }

    /**
     * `handleAddQuestion`: the row sent to the insert (None: the form is
     * incomplete and nothing is sent); `insertFailed` is the insert's
     * outcome. After a successful insert the modal closes and the form is
     * cleared; the refetch that follows is a separate `FetchQuestions`.
     */
    method HandleAddQuestion(insertFailed: bool) returns (request: Option<NewQuestion>)
      modifies this`newQuestion, this`showAddModal
      ensures request == AddRequest(old(newQuestion))
      ensures request.Some? && !insertFailed ==> newQuestion == BlankForm && !showAddModal
      ensures request.None? || insertFailed ==> newQuestion == old(newQuestion) && showAddModal == old(showAddModal)
    {
      request := AddRequest(newQuestion);
      if request.Some? && !insertFailed {
        showAddModal := false;
        newQuestion := BlankForm;
      }
    }
  }
}
