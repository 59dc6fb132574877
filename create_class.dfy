/**
 * The class form (src/components/CreateClass.jsx): a class name and two
 * topic lists, the recently taught and the previously taught topics. A topic
 * is picked for at most one of the two lists, and saving sends the trimmed
 * name with both lists.
 */
module CreateClass {
  import opened Wrappers
  import opened Seqs
  import opened Strings
  import opened Records
  import opened Topics

  /** Which list a topic button belongs to (`listType`: "recent", anything else being past). */
  datatype ListType = Recent | Past

  /** `prev.includes(topic) ? prev.filter(t => t !== topic) : [...prev, topic]`. */
  function Toggle(xs: seq<string>, t: string): (r: seq<string>)
    ensures t in r <==> t !in xs
    ensures t in xs ==> r == RemoveAll(xs, t)
    ensures t !in xs ==> r == xs + [t]
  {
    if t in xs then RemoveAll(xs, t) else xs + [t]
  }

  /** The two lists, recent first. */
  datatype Lists = Lists(recent: seq<string>, past: seq<string>)

  /** `toggleTopic(topic, listType)`: toggle the topic in one list and remove it from the other. */
  function ToggleLists(l: Lists, t: string, listType: ListType): (r: Lists)
    ensures listType == Recent ==> r == Lists(Toggle(l.recent, t), RemoveAll(l.past, t))
    ensures listType == Past ==> r == Lists(RemoveAll(l.recent, t), Toggle(l.past, t))
  {
    match listType
    case Recent => Lists(Toggle(l.recent, t), RemoveAll(l.past, t))
    case Past => Lists(RemoveAll(l.recent, t), Toggle(l.past, t))
  }

  /** No topic in both lists, and no topic twice in one. */
  predicate WellFormed(l: Lists) {
    Distinct(l.recent) && Distinct(l.past) && (forall t :: t in l.recent ==> t !in l.past)
  }

  /** Toggling never lets a list repeat a topic. */
  lemma ToggleDistinct(xs: seq<string>, t: string)
    requires Distinct(xs)
    ensures Distinct(Toggle(xs, t))
  {
    if t in xs {
      RemoveAllDistinct(xs, t);
    }
  }

  /** Toggling keeps the lists disjoint and free of repeats. */
  lemma ToggleTopicWellFormed(l: Lists, t: string, listType: ListType)
    requires WellFormed(l)
    ensures WellFormed(ToggleLists(l, t, listType))
  {
    ToggleDistinct(l.recent, t);
    ToggleDistinct(l.past, t);
    RemoveAllDistinct(l.recent, t);
    RemoveAllDistinct(l.past, t);
  }

  /** After the toggle the topic is in the chosen list exactly when it was not before, and never in the other. */
  lemma ToggleTopicMembership(l: Lists, t: string, listType: ListType)
    ensures listType == Recent ==>
              (t in ToggleLists(l, t, listType).recent <==> t !in l.recent) && t !in ToggleLists(l, t, listType).past
    ensures listType == Past ==>
              (t in ToggleLists(l, t, listType).past <==> t !in l.past) && t !in ToggleLists(l, t, listType).recent
  {
  }

  /** Removing a topic a second time, or after appending it, is removing it once. */
  lemma RemoveAfterToggle(xs: seq<string>, t: string)
    ensures RemoveAll(Toggle(xs, t), t) == RemoveAll(xs, t)
    ensures RemoveAll(RemoveAll(xs, t), t) == RemoveAll(xs, t)
  {
    RemoveAllAbsent(RemoveAll(xs, t), t);
    if t !in xs {
      RemoveAllSnoc(xs, t);
    }
  }

  /** Every other topic keeps its place: with `t` taken out, both lists are as they were. */
  lemma ToggleTopicOthersUnchanged(l: Lists, t: string, listType: ListType)
    ensures RemoveAll(ToggleLists(l, t, listType).recent, t) == RemoveAll(l.recent, t)
    ensures RemoveAll(ToggleLists(l, t, listType).past, t) == RemoveAll(l.past, t)
  {
    RemoveAfterToggle(l.recent, t);
    RemoveAfterToggle(l.past, t);
  }

  /** Picking a topic in neither list and then un-picking it restores both lists. */
  lemma ToggleTopicTwice(l: Lists, t: string, listType: ListType)
    requires t !in l.recent && t !in l.past
    ensures ToggleLists(ToggleLists(l, t, listType), t, listType) == l
  {
    RemoveAllAbsent(l.recent, t);
    RemoveAllAbsent(l.past, t);
    RemoveAfterToggle(l.recent, t);
    RemoveAfterToggle(l.past, t);
  }

  /** The teacher id used when nobody is signed in. */
  const NilUser: string := "00000000-0000-0000-0000-000000000000"

  /** The row `handleSave` inserts into `classes`. */
  datatype ClassRecord = ClassRecord(name: string, teacherId: string, recentTopics: seq<string>, pastTopics: seq<string>)

  /**
   * `handleSave`: None when the trimmed name is empty (the form alerts and
   * saves nothing); otherwise the row to insert, with the trimmed name and
   * the signed-in user's id, or the nil id.
   */
  function SaveRequest(className: string, user: Option<string>, l: Lists): (r: Option<ClassRecord>)
    ensures r.None? <==> forall i :: 0 <= i < |className| ==> IsWhiteSpace(className[i])
    ensures r.Some? ==>
              r.value.name == Trim(className) && r.value.name != []
              && r.value.teacherId == user.GetOr(NilUser)
              && r.value.recentTopics == l.recent && r.value.pastTopics == l.past
  {
    var name := Trim(className);
    if name == [] then None
    else Some(ClassRecord(name, user.GetOr(NilUser), l.recent, l.past))
  }

  /** The saved name never starts or ends with white space. */
  lemma SavedNameTrimmed(className: string, user: Option<string>, l: Lists)
    requires SaveRequest(className, user, l).Some?
    ensures var name := SaveRequest(className, user, l).value.name;
            !IsWhiteSpace(name[0]) && !IsWhiteSpace(name[|name| - 1]) && Contains(className, name)
  {
    var name := Trim(className);
    assert name != [];
    assert SaveRequest(className, user, l).value.name == name;
  }

  /** The state of the class form. */
  class Form {
    var className: string
    var allTopics: seq<string>
    var lists: Lists

    /** The two lists stay disjoint and free of repeats. */
    ghost predicate Valid()
      reads this
    {
      WellFormed(lists)
    }

    /** The first render: no name, no topics. */
    constructor ()
      ensures Valid()
      ensures className == [] && allTopics == [] && lists == Lists([], [])
    {
      className := [];
      allTopics := [];
      lists := Lists([], []);
    }

    /** `fetchTopics`: the sorted distinct topics of the question bank (unchanged when `data` is null). */
    method FetchTopics(data: Option<seq<Question>>)
      requires Valid()
      modifies this`allTopics
      ensures Valid()
      ensures data.Some? ==> allTopics == UniqueTopics(data.value)
      ensures data.None? ==> allTopics == old(allTopics)
    {
      if data.Some? {
        allTopics := UniqueTopics(data.value);
      }
    }

    /** The name field's `onChange`. */
    method SetName(name: string)
      requires Valid()
      modifies this`className
      ensures Valid() && className == name
    {
      className := name;
    }

    /** `toggleTopic(topic, listType)`. */
    method ToggleTopic(t: string, listType: ListType)
      requires Valid()
      modifies this`lists
      ensures Valid()
      ensures lists == ToggleLists(old(lists), t, listType)
    {
      ToggleTopicWellFormed(lists, t, listType);
      lists := ToggleLists(lists, t, listType);
    }

    /** `handleSave`: the row to insert, or None when the name is blank. */
    method Save(user: Option<string>) returns (request: Option<ClassRecord>)
      requires Valid()
      ensures request == SaveRequest(className, user, lists)
      ensures request.Some? ==> WellFormed(Lists(request.value.recentTopics, request.value.pastTopics))
    {
      request := SaveRequest(className, user, lists);
    }
  }
}
