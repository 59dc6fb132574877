/**
 * The older board-design form (src/CreateDNA.jsx): the same selection rows
 * with "Medium" as the default difficulty and no previews. Each row's
 * questions are queried when the board is generated, and a card's question
 * and answer come from two separate runs of its generator.
 */
module CreateDnaLegacy {
  import opened Wrappers
  import opened Seqs
  import opened Records
  import opened Topics
  import CreateDna

  /** The default difficulty of a new row. */
  const Medium: string := "Medium"

  /** The rows of `questions` that `.eq('topic', topic)` returns. */
  function TopicQuery(table: seq<Question>, topic: Option<string>): (r: seq<Question>)
    ensures forall i :: 0 <= i < |r| ==> r[i].topic == CreateDna.TopicKey(topic)
    ensures forall i :: 0 <= i < |table| && table[i].topic == CreateDna.TopicKey(topic) ==> table[i] in r
  {
    CreateDna.OfTopic(table, CreateDna.TopicKey(topic))
  }

  /**
   * The card for one row. `data` is the query's answer (None when it is
   * `null`); `qRun` and `aRun` are the two runs of the picked question's
   * generator, one read for `currentQ`, the other for `currentA`. None when
   * one of them returns `null` or `undefined` and reading its field throws.
   */
  function CardFor(row: CreateDna.Row, data: Option<seq<Question>>, pick: Unit, qRun: Execution, aRun: Execution, noise: string): (r: Option<Card>)
    ensures data.None? || data.value == [] ==> r == Some(CreateDna.FallbackCard(row, noise))
    ensures data.Some? && data.value != [] ==>
              (r.None? <==> qRun.Nullish? || aRun.Nullish?)
              && (r.Some? ==>
                    r.value.row == data.value[PickIndex(pick, |data.value|)]
                    && r.value.currentQ == CreateDna.RunGenerator(qRun).value.q
                    && r.value.currentA == CreateDna.RunGenerator(aRun).value.a
                    && !r.value.revealed && !r.value.isReview && r.value.fontSize == CustomFontSize)
  {
    if data.Some? && |data.value| > 0 then
      var randomQ := data.value[PickIndex(pick, |data.value|)];
      match CreateDna.RunGenerator(qRun)
      case None => None
      case Some(fq) =>
        match CreateDna.RunGenerator(aRun)
        case None => None
        case Some(fa) => Some(Card(randomQ, fq.q, fa.a, None, false, CustomFontSize, false, None))
    else Some(CreateDna.FallbackCard(row, noise))
  }

  /**
   * When both runs give the same value (a generator without randomness), the
   * card is the one the newer form builds from a single run.
   */
  lemma SameRunMatchesNewerForm(row: CreateDna.Row, rows: seq<Question>, pick: Unit, run: Execution, noise: string)
    requires rows != []
    ensures CardFor(row, Some(rows), pick, run, run, noise)
            == CreateDna.CardFor(map[CreateDna.TopicKey(row.topic) := rows], row, 0, CreateDna.Draws(_ => pick, _ => run, _ => noise))
  {
  }

  /**
   * Two runs of a random generator can disagree, and the card then shows
   * the question of one instance with the answer of another.
   */
  lemma MismatchedAnswer(row: CreateDna.Row, q: Question, pick: Unit)
    ensures var c := CardFor(row, Some([q]), pick, Obj(Some("3 + 4"), Some("7"), None), Obj(Some("2 + 9"), Some("11"), None), "");
            c.Some? && c.value.currentQ == Some("3 + 4") && c.value.currentA == Some("11")
  {
  }

  /**
   * The draws of one `handleGenerate` run, by row position: whether the
   * row's query failed (its data is `null`), the `Math.random()` value that
   * picks the question, the two generator runs, and the fallback id's text.
   */
  datatype LegacyDraws = LegacyDraws(
    failed: nat -> bool,
    picks: nat -> Unit,
    qRuns: nat -> Execution,
    aRuns: nat -> Execution,
    noise: nat -> string)

  /** What the query for the row at position `i` returns. */
  function Response(table: seq<Question>, row: CreateDna.Row, i: nat, draws: LegacyDraws): Option<seq<Question>> {
    if draws.failed(i) then None else Some(TopicQuery(table, row.topic))
  }

  /** The card for the row at position `i`. */
  function CardAt(table: seq<Question>, rows: seq<CreateDna.Row>, i: nat, draws: LegacyDraws): Option<Card>
    requires i < |rows|
  {
    CardFor(rows[i], Response(table, rows[i], i, draws), draws.picks(i), draws.qRuns(i), draws.aRuns(i), draws.noise(i))
  }

  /** The cards for the first `n` rows, or None once one of them throws. */
  function CardsUpTo(table: seq<Question>, rows: seq<CreateDna.Row>, n: nat, draws: LegacyDraws): (r: Option<seq<Card>>)
    requires n <= |rows|
    ensures r.Some? ==> |r.value| == n
    ensures r.Some? ==> forall i :: 0 <= i < n ==> CardAt(table, rows, i, draws) == Some(r.value[i])
    ensures r.Some? <==> forall i :: 0 <= i < n ==> CardAt(table, rows, i, draws).Some?
  {
    if n == 0 then Some([])
    else
      match CardsUpTo(table, rows, n - 1, draws)
      case None => None
      case Some(cs) =>
        match CardAt(table, rows, n - 1, draws)
        case None => None
        case Some(c) => Some(cs + [c])
  }

  /** One more row: its card is appended, or the whole generation throws. */
  lemma CardsUpToStep(table: seq<Question>, rows: seq<CreateDna.Row>, n: nat, draws: LegacyDraws, cs: seq<Card>)
    requires n < |rows| && CardsUpTo(table, rows, n, draws) == Some(cs)
    ensures CardAt(table, rows, n, draws).None? ==> CardsUpTo(table, rows, n + 1, draws).None?
    ensures CardAt(table, rows, n, draws).Some? ==>
              CardsUpTo(table, rows, n + 1, draws) == Some(cs + [CardAt(table, rows, n, draws).value])
  {
  }

  /** Once a row's generation throws, the whole generation has. */
  lemma CardsStayNone(table: seq<Question>, rows: seq<CreateDna.Row>, k: nat, n: nat, draws: LegacyDraws)
    requires k <= n <= |rows|
    requires CardsUpTo(table, rows, k, draws).None?
    ensures CardsUpTo(table, rows, n, draws).None?
  {
  }

  /** A row whose generation throws makes the whole generation throw. */
  lemma GenerationThrows(table: seq<Question>, rows: seq<CreateDna.Row>, n: nat, draws: LegacyDraws, cs: seq<Card>)
    requires n < |rows| && CardsUpTo(table, rows, n, draws) == Some(cs)
    requires CardAt(table, rows, n, draws).None?
    ensures CardsUpTo(table, rows, |rows|, draws).None?
  {
    CardsUpToStep(table, rows, n, draws, cs);
    CardsStayNone(table, rows, n + 1, |rows|, draws);
  }

  /**
   * A row whose topic has no question, or whose query failed, gets the
   * fallback card naming its topic.
   */
  lemma EmptyTopicFallback(table: seq<Question>, rows: seq<CreateDna.Row>, draws: LegacyDraws, i: nat)
    requires i < |rows|
    requires draws.failed(i) || forall j :: 0 <= j < |table| ==> table[j].topic != CreateDna.TopicKey(rows[i].topic)
    ensures CardAt(table, rows, i, draws) == Some(CreateDna.FallbackCard(rows[i], draws.noise(i)))
    ensures CardAt(table, rows, i, draws).value.currentQ == Some("No question found for " + CreateDna.TopicKey(rows[i].topic))
  {
    if !draws.failed(i) {
      var key := CreateDna.TopicKey(rows[i].topic);
      FilterNone(table, (q: Question) => q.topic == key);
    }
  }

  /** The state of the older board-design form. */
  class Form {
    var availableTopics: seq<string>
    var selections: seq<CreateDna.Row>

    ghost predicate Valid()
      reads this
    {
      |selections| <= CreateDna.MaxRows
    }

    /** The first render: one medium row with an empty topic. */
    constructor ()
      ensures Valid()
      ensures availableTopics == [] && selections == [CreateDna.Row(1, Some(""), Medium)]
    {
      availableTopics := [];
      selections := [CreateDna.Row(1, Some(""), Medium)];
    }

    /**
     * `fetchTopics`: the sorted distinct topics; with at least one, the rows
     * reset to one medium row on the first.
     */
    method FetchTopics(data: Option<seq<Question>>)
      requires Valid()
      modifies this
      ensures Valid()
      ensures data.None? ==> availableTopics == old(availableTopics) && selections == old(selections)
      ensures data.Some? ==> availableTopics == UniqueTopics(data.value)
      ensures data.Some? && availableTopics != [] ==> selections == [CreateDna.Row(1, Some(availableTopics[0]), Medium)]
      ensures data.Some? && availableTopics == [] ==> selections == old(selections)
    {
      if data.None? {
        return;
      }
      var unique := UniqueTopics(data.value);
      availableTopics := unique;
      if |unique| > 0 {
        selections := [CreateDna.Row(1, Some(unique[0]), Medium)];
      }
    }

    /** `addRow`: a medium row on the first topic (`undefined` when there is none). */
    method AddRow(now: int)
      requires Valid()
      modifies this`selections
      ensures Valid()
      ensures selections == CreateDna.AddIfRoom(old(selections),
                                      CreateDna.Row(now, if availableTopics == [] then None else Some(availableTopics[0]), Medium))
    {
      if |selections| < CreateDna.MaxRows {
        var first := if availableTopics == [] then None else Some(availableTopics[0]);
        selections := selections + [CreateDna.Row(now, first, Medium)];
      }
    }

    /** `removeRow(id)`. */
    method RemoveRow(id: int)
      requires Valid()
      modifies this`selections
      ensures Valid()
      ensures selections == CreateDna.RemoveId(old(selections), id)
    {
      selections := CreateDna.RemoveId(selections, id);
    }

    /** `updateRow(id, field, value)`. */
    method UpdateRow(id: int, field: CreateDna.Field, value: string)
      requires Valid()
      modifies this`selections
      ensures Valid()
      ensures selections == CreateDna.UpdateId(old(selections), id, field, value)
    {
      selections := CreateDna.UpdateId(selections, id, field, value);
    }

    /** `handleGenerate`: one card per row, in row order, each from its own query. */
    method HandleGenerate(table: seq<Question>, draws: LegacyDraws) returns (cards: Option<seq<Card>>)
      ensures cards == CardsUpTo(table, selections, |selections|, draws)
    {
      var rows := selections;
      var generated: seq<Card> := [];
      var i := 0;
      while i < |rows|
        invariant 0 <= i <= |rows|
        invariant CardsUpTo(table, rows, i, draws) == Some(generated)
      {
        var c := CardAt(table, rows, i, draws);
        if c.None? {
          GenerationThrows(table, rows, i, draws, generated);
          return None;
        }
        CardsUpToStep(table, rows, i, draws, generated);
        generated := generated + [c.value];
        i := i + 1;
      }
      cards := Some(generated);
    }
  }
}
