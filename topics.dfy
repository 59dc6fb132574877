/**
 * Topic lists the components derive from fetched questions: the sorted list
 * of distinct topics (`[...new Set(data.map(q => q.topic))].sort()`) and the
 * case-insensitive search over it (`t.toLowerCase().includes(term.toLowerCase())`).
 */
module Topics {
  import opened Seqs
  import opened Strings
  import opened Sorting
  import opened Records

  /** `data.map(q => q.topic)`. */
  function TopicsOf(data: seq<Question>): (r: seq<string>)
    ensures |r| == |data|
    ensures forall i :: 0 <= i < |data| ==> r[i] == data[i].topic
  {
    seq(|data|, i requires 0 <= i < |data| => data[i].topic)
  }

  /** The topic list: every topic of `data` once, in increasing order. */
  function UniqueTopics(data: seq<Question>): (r: seq<string>)
    ensures StrictlySorted(r)
    ensures forall t :: t in r <==> t in TopicsOf(data)
  {
    UniqueSorted(TopicsOf(data))
  }

  /** A topic is listed exactly when some fetched question has it. */
  lemma UniqueTopicsMembers(data: seq<Question>, t: string)
    ensures t in UniqueTopics(data) <==> exists i :: 0 <= i < |data| && data[i].topic == t
  {
    var ts := TopicsOf(data);
    if t in ts {
      var i :| 0 <= i < |ts| && ts[i] == t;
      assert data[i].topic == t;
    }
  }

  /** The topic list is empty exactly when no question was fetched. */
  lemma UniqueTopicsEmpty(data: seq<Question>)
    ensures UniqueTopics(data) == [] <==> data == []
  {
    if data != [] {
      assert TopicsOf(data)[0] == data[0].topic;
    }
  }

  /** Two fetches holding the same topics give the same list, whatever their order. */
  lemma UniqueTopicsOrderFree(a: seq<Question>, b: seq<Question>)
    requires multiset(a) == multiset(b)
    ensures UniqueTopics(a) == UniqueTopics(b)
  {
    var ra, rb := UniqueTopics(a), UniqueTopics(b);
    forall t ensures t in ra <==> t in rb {
      UniqueTopicsMembers(a, t);
      UniqueTopicsMembers(b, t);
      if t in ra {
        var j :| 0 <= j < |a| && a[j].topic == t;
        assert a[j] in multiset(b);
        var k :| 0 <= k < |b| && b[k] == a[j];
      }
      if t in rb {
        var j :| 0 <= j < |b| && b[j].topic == t;
        assert b[j] in multiset(a);
        var k :| 0 <= k < |a| && a[k] == b[j];
      }
    }
    StrictlySortedUnique(ra, rb);
  }

  /** The search filter on a topic. */
  predicate MatchesSearch(t: string, term: string) {
    ContainsIgnoringCase(t, term)
  }

  /** `filteredTopics`: the topics containing the search term, ignoring case, in list order. */
  function FilterTopics(topics: seq<string>, term: string): (r: seq<string>)
    ensures IsSubseq(r, topics)
    ensures forall i :: 0 <= i < |r| ==> MatchesSearch(r[i], term)
    ensures forall i :: 0 <= i < |topics| && MatchesSearch(topics[i], term) ==> topics[i] in r
  {
    Filter(topics, t => MatchesSearch(t, term))
  }

  /** An empty search keeps every topic. */
  lemma FilterTopicsEmptyTerm(topics: seq<string>)
    ensures FilterTopics(topics, "") == topics
  {
    forall i | 0 <= i < |topics| ensures MatchesSearch(topics[i], "") {
      ContainsEmpty(Lower(topics[i]));
    }
    FilterAll(topics, t => MatchesSearch(t, ""));
  }
}
