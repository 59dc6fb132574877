/**
 * The older class form (src/CreateClass.jsx): the same two topic lists and
 * toggle, but saving checks only that the name is not the empty string and
 * stores it as typed.
 */
module CreateClassLegacy {
  import opened Wrappers
  import opened Strings
  import opened Records
  import opened Topics
  import CreateClass

  /**
   * `handleSave`: None only for the empty name; otherwise the row to insert,
   * with the name untrimmed.
   */
  function SaveRequest(className: string, user: Option<string>, l: CreateClass.Lists): (r: Option<CreateClass.ClassRecord>)
    ensures r.None? <==> className == []
    ensures r.Some? ==>
              r.value.name == className
              && r.value.teacherId == user.GetOr(CreateClass.NilUser)
              && r.value.recentTopics == l.recent && r.value.pastTopics == l.past
  {
    if className == [] then None
    else Some(CreateClass.ClassRecord(className, user.GetOr(CreateClass.NilUser), l.recent, l.past))
  }

  /**
   * A name of spaces only is saved as typed here, where the newer form
   * refuses it; on a name without surrounding white space the two agree.
   */
  lemma BlankNameAccepted(user: Option<string>, l: CreateClass.Lists)
    ensures SaveRequest("  ", user, l) == Some(CreateClass.ClassRecord("  ", user.GetOr(CreateClass.NilUser), l.recent, l.past))
    ensures CreateClass.SaveRequest("  ", user, l).None?
  {
    assert IsWhiteSpace("  "[0]) && IsWhiteSpace("  "[1]);
  }

  /** On a name that is already trimmed and not empty, both forms send the same row. */
  lemma AgreesOnTrimmedNames(className: string, user: Option<string>, l: CreateClass.Lists)
    requires className != [] && !IsWhiteSpace(className[0]) && !IsWhiteSpace(className[|className| - 1])
    ensures SaveRequest(className, user, l) == CreateClass.SaveRequest(className, user, l)
  {
    TrimKeepsTrimmed(className);
  }

  /** The state of the older class form. */
  class Form {
    var className: string
    var allTopics: seq<string>
    var lists: CreateClass.Lists

    ghost predicate Valid()
      reads this
    {
      CreateClass.WellFormed(lists)
    }

    constructor ()
      ensures Valid()
      ensures className == [] && allTopics == [] && lists == CreateClass.Lists([], [])
    {
      className := [];
      allTopics := [];
      lists := CreateClass.Lists([], []);
    }

    /** `fetchTopics`: the sorted distinct topics (unchanged when `data` is null). */
    method FetchTopics(data: Option<seq<Question>>)
      requires Valid()
      modifies this`allTopics
      ensures Valid()
      ensures data.Some? ==> allTopics == UniqueTopics(data.value)
      ensures data.None? ==> allTopics == old(allTopics)
    {
      if data.Some? {
        allTopics := UniqueTopics(data.value);
      }
    }

    /** The name field's `onChange`. */
    method SetName(name: string)
      requires Valid()
      modifies this`className
      ensures Valid() && className == name
    {
      className := name;
    }

    /** `toggleTopic(topic, listType)`, the same transition as the newer form's. */
    method ToggleTopic(t: string, listType: CreateClass.ListType)
      requires Valid()
      modifies this`lists
      ensures Valid()
      ensures lists == CreateClass.ToggleLists(old(lists), t, listType)
    {
      CreateClass.ToggleTopicWellFormed(lists, t, listType);
      lists := CreateClass.ToggleLists(lists, t, listType);
    }

    /** `handleSave`: the row to insert, or None when the name is empty. */
    method Save(user: Option<string>) returns (request: Option<CreateClass.ClassRecord>)
      requires Valid()
      ensures request == SaveRequest(className, user, lists)
      ensures request.Some? ==> CreateClass.WellFormed(CreateClass.Lists(request.value.recentTopics, request.value.pastTopics))
    {
      request := SaveRequest(className, user, lists);
    }
  }
}
