/**
 * The board-design form (src/components/CreateDNA.jsx): up to six selection
 * rows (a topic and a difficulty each), a preview per row, the fetched
 * questions grouped by topic, and the generation of one card per row.
 */
module CreateDna {
  import opened Wrappers
  import opened Seqs
  import opened Records
  import opened Topics
  import Difficulty

  /** The form holds at most this many rows. */
  const MaxRows: nat := 6

  /**
   * A selection row. Its topic is None when it was taken from an empty topic
   * list (`availableTopics[0]` is `undefined`).
   */
  datatype Row = Row(id: int, topic: Option<string>, difficulty: string)

  /** The text a topic takes as an object key or inside a template literal. */
  function TopicKey(topic: Option<string>): string {
    topic.GetOr("undefined")
  }

  /** The field `updateRow` sets. */
  datatype Field = TopicField | DifficultyField

  /* ---------------------------------------------------------------------- */
  /* Row operations (shared by the older form in src/CreateDNA.jsx)          */

  /** `[...selections, row]` when there is room (fewer than six rows); otherwise no change. */
  function AddIfRoom(rows: seq<Row>, row: Row): (r: seq<Row>)
    ensures |rows| < MaxRows ==> r == rows + [row]
    ensures |rows| >= MaxRows ==> r == rows
    ensures |rows| <= MaxRows ==> |r| <= MaxRows
  {
    if |rows| < MaxRows then rows + [row] else rows
  }

  /** `selections.filter(s => s.id !== id)`. */
  function RemoveId(rows: seq<Row>, id: int): (r: seq<Row>)
    ensures IsSubseq(r, rows)
    ensures forall i :: 0 <= i < |r| ==> r[i].id != id
    ensures forall i :: 0 <= i < |rows| && rows[i].id != id ==> rows[i] in r
  {
    Filter(rows, (s: Row) => s.id != id)
  }

  /** Removing an id no row has changes nothing. */
  lemma RemoveAbsentId(rows: seq<Row>, id: int)
    requires forall i :: 0 <= i < |rows| ==> rows[i].id != id
    ensures RemoveId(rows, id) == rows
  {
    FilterAll(rows, (s: Row) => s.id != id);
  }

  /** `{ ...s, [field]: value }`. */
  function SetField(s: Row, field: Field, value: string): Row {
    match field
    case TopicField => s.(topic := Some(value))
    case DifficultyField => s.(difficulty := value)
  }

  /** `selections.map(s => s.id === id ? { ...s, [field]: value } : s)`. */
  function UpdateId(rows: seq<Row>, id: int, field: Field, value: string): (r: seq<Row>)
    ensures |r| == |rows|
    ensures forall i :: 0 <= i < |rows| && rows[i].id != id ==> r[i] == rows[i]
    ensures forall i :: 0 <= i < |rows| && rows[i].id == id ==>
              r[i].id == id
              && (field == TopicField ==> r[i] == rows[i].(topic := Some(value)))
              && (field == DifficultyField ==> r[i] == rows[i].(difficulty := value))
  {
    seq(|rows|, i requires 0 <= i < |rows| => if rows[i].id == id then SetField(rows[i], field, value) else rows[i])
  }

  /** Updating a row twice with the same value is the same as once. */
  lemma UpdateIdIdempotent(rows: seq<Row>, id: int, field: Field, value: string)
    ensures UpdateId(UpdateId(rows, id, field, value), id, field, value) == UpdateId(rows, id, field, value)
  {
  }

  /* ---------------------------------------------------------------------- */
  /* Running generators and grouping questions                               */

  /** The `q` and `a` fields read from what `runGenerator` returned. */
  datatype Fields = Fields(q: Option<string>, a: Option<string>)

  /**
   * `runGenerator(code)` of this form: the generator's own value, or
   * `{ q: "Error", a: "..." }` when it throws. None is a `null` or `undefined`
   * value, whose fields cannot be read (the caller then throws).
   */
  function RunGenerator(run: Execution): (r: Option<Fields>)
    ensures run.Throws? ==> r == Some(Fields(Some("Error"), Some("...")))
    ensures r.None? <==> run.Nullish?
    ensures run.Obj? ==> r == Some(Fields(run.q, run.a))
    ensures run.Primitive? ==> r == Some(Fields(None, None))
  {
    match run
    case Throws => Some(Fields(Some("Error"), Some("...")))
    case Nullish => None
    case Primitive => Some(Fields(None, None))
    case Obj(q, a, _) => Some(Fields(q, a))
  }

  /** The questions of `data` with topic `t`, in fetch order. */
  function OfTopic(data: seq<Question>, t: string): (r: seq<Question>)
    ensures forall i :: 0 <= i < |r| ==> r[i].topic == t
    ensures forall i :: 0 <= i < |data| && data[i].topic == t ==> data[i] in r
    ensures IsSubseq(r, data)
  {
    Filter(data, (q: Question) => q.topic == t)
  }

  lemma OfTopicSnoc(data: seq<Question>, q: Question, t: string)
    ensures OfTopic(data + [q], t) == OfTopic(data, t) + (if q.topic == t then [q] else [])
  {
    FilterAppend(data, [q], (x: Question) => x.topic == t);
  }

  /**
   * The `byTopic` cache: `data.forEach(q => { if (!byTopic[q.topic])
   * byTopic[q.topic] = []; byTopic[q.topic].push(q) })`.
   */
  method GroupByTopic(data: seq<Question>) returns (byTopic: map<string, seq<Question>>)
    ensures GroupedBy(byTopic, data)
  {
    byTopic := map[];
    var i := 0;
    while i < |data|
      invariant 0 <= i <= |data|
      invariant GroupedBy(byTopic, data[..i])
    {
      var q := data[i];
      GroupStep(byTopic, data, i);
      var bucket := if q.topic in byTopic then byTopic[q.topic] else [];
      byTopic := byTopic[q.topic := bucket + [q]];
      i := i + 1;
    }
    assert data[..i] == data;
  }

  /** The map after one step of the `forEach`: `q` appended under its topic. */
  function Grouped(byTopic: map<string, seq<Question>>, q: Question): map<string, seq<Question>> {
    byTopic[q.topic := (if q.topic in byTopic then byTopic[q.topic] else []) + [q]]
  }

  /** One step of the `forEach` keeps the cache grouped. */
  lemma GroupStep(byTopic: map<string, seq<Question>>, data: seq<Question>, i: nat)
    requires i < |data| && GroupedBy(byTopic, data[..i])
    ensures GroupedBy(Grouped(byTopic, data[i]), data[..i + 1])
  {
    var prefix, q := data[..i], data[i];
    assert data[..i + 1] == prefix + [q];
    var after := Grouped(byTopic, q);
    forall t ensures (t in after <==> OfTopic(prefix + [q], t) != [])
                     && (t in after ==> after[t] == OfTopic(prefix + [q], t)) {
      OfTopicSnoc(prefix, q, t);
    }
  }

  /** `byTopic` maps exactly the topics of `data` to their questions, in fetch order. */
  ghost predicate GroupedBy(byTopic: map<string, seq<Question>>, data: seq<Question>) {
    (forall t :: t in byTopic <==> OfTopic(data, t) != [])
    && (forall t :: t in byTopic ==> byTopic[t] == OfTopic(data, t))
  }

  /** The cached questions of a row's topic (none when the topic is not a key). */
  function Cached(byTopic: map<string, seq<Question>>, topic: Option<string>): seq<Question> {
    var key := TopicKey(topic);
    if key in byTopic then byTopic[key] else []
  }

  /* ---------------------------------------------------------------------- */
  /* Previews                                                                */

  /** A row's preview: the question and answer text shown under it. */
  datatype Preview = Preview(q: Option<string>, a: Option<string>)

  /**
   * The preview `generatePreview` stores for a topic; `run` is the outcome of
   * the generator of the question it picks. None: the generator returned
   * `null` or `undefined`, so reading its fields throws.
   */
  function PreviewFor(byTopic: map<string, seq<Question>>, topic: Option<string>, run: Execution): (r: Option<Preview>)
    ensures Cached(byTopic, topic) == [] ==> r == Some(Preview(Some("No questions available"), Some("-")))
    ensures Cached(byTopic, topic) != [] ==>
              (r.None? <==> run.Nullish?)
              && (r.Some? ==> r.value.q == RunGenerator(run).value.q && r.value.a == RunGenerator(run).value.a)
  {
    if |Cached(byTopic, topic)| > 0 then
      match RunGenerator(run)
      case None => None
      case Some(f) => Some(Preview(f.q, f.a))
    else Some(Preview(Some("No questions available"), Some("-")))
  }

  /**
   * `setPreviews(prev => ({ ...prev, [rowId]: preview }))`. The updater reads
   * the generated fields itself, and React runs it while rendering: when they
   * cannot be read the render throws, no error boundary catches it, and the
   * whole app unmounts (None).
   */
  function StorePreview(previews: map<int, Preview>, rowId: int, p: Option<Preview>): (r: Option<map<int, Preview>>)
    ensures r.None? <==> p.None?
    ensures r.Some? ==> rowId in r.value && r.value[rowId] == p.value
    ensures r.Some? ==>
              forall k :: k != rowId ==> (k in r.value <==> k in previews) && (k in r.value ==> r.value[k] == previews[k])
  {
    match p
    case Some(v) => Some(previews[rowId := v])
    case None => None
  }

  /* ---------------------------------------------------------------------- */
  /* Generating the cards                                                    */

  /**
   * The random draws of one `handleGenerate` run, by row position: the
   * `Math.random()` value that picks row i's question, the outcome of its
   * generator, and the text of the `Math.random()` value in a fallback id.
   */
  datatype Draws = Draws(picks: nat -> Unit, runs: nat -> Execution, noise: nat -> string)

  /** The card for a topic without cached questions. */
  function FallbackCard(row: Row, noise: string): (c: Card)
    ensures c.currentQ == Some("No question found for " + TopicKey(row.topic)) && c.currentA == Some("-")
    ensures c.row.id == "fallback-" + noise && c.row.difficulty == row.difficulty
    ensures !c.revealed && !c.isReview && c.fontSize == CustomFontSize
  {
    Card(Question("fallback-" + noise, row.topic.GetOr(""), "", row.difficulty, "", None, None),
         Some("No question found for " + TopicKey(row.topic)), Some("-"), None,
         false, CustomFontSize, false, None)
  }

  /** The card generated for the row at position `i`; None when reading the generator's value throws. */
  function CardFor(byTopic: map<string, seq<Question>>, row: Row, i: nat, draws: Draws): (r: Option<Card>)
    ensures Cached(byTopic, row.topic) == [] ==> r == Some(FallbackCard(row, draws.noise(i)))
    ensures Cached(byTopic, row.topic) != [] ==>
              (r.None? <==> draws.runs(i).Nullish?)
              && (r.Some? ==> r.value.row in Cached(byTopic, row.topic) && !r.value.revealed && !r.value.isReview
                              && r.value.fontSize == CustomFontSize)
    ensures var qs := Cached(byTopic, row.topic);
            qs != [] && r.Some? ==>
              && RunGenerator(draws.runs(i)).Some?
              && r.value.row == qs[PickIndex(draws.picks(i), |qs|)]
              && r.value.currentQ == RunGenerator(draws.runs(i)).value.q
              && r.value.currentA == RunGenerator(draws.runs(i)).value.a
              && r.value.currentImage == None
  {
    var questions := Cached(byTopic, row.topic);
    if |questions| > 0 then
      var randomQ := questions[PickIndex(draws.picks(i), |questions|)];
      match RunGenerator(draws.runs(i))
      case None => None
      case Some(f) => Some(Card(randomQ, f.q, f.a, None, false, CustomFontSize, false, None))
    else Some(FallbackCard(row, draws.noise(i)))
  }

  /** The cards for the first `n` rows, or None once one of them throws. */
  function CardsUpTo(byTopic: map<string, seq<Question>>, rows: seq<Row>, n: nat, draws: Draws): (r: Option<seq<Card>>)
    requires n <= |rows|
    ensures r.Some? ==> |r.value| == n
    ensures r.Some? ==> forall i :: 0 <= i < n ==> CardFor(byTopic, rows[i], i, draws) == Some(r.value[i])
    ensures r.None? ==> exists i :: 0 <= i < n && CardFor(byTopic, rows[i], i, draws).None?
    ensures r.Some? <==> forall i :: 0 <= i < n ==> CardFor(byTopic, rows[i], i, draws).Some?
  {
    if n == 0 then Some([])
    else
      match CardsUpTo(byTopic, rows, n - 1, draws)
      case None => None
      case Some(cs) =>
        match CardFor(byTopic, rows[n - 1], n - 1, draws)
        case None => None
        case Some(c) => Some(cs + [c])
  }

  /* ---------------------------------------------------------------------- */
  /* The form's state                                                        */

  /** The state of the board-design form. */
  class Form {
    var availableTopics: seq<string>
    var topicQuestions: map<string, seq<Question>>
    var selections: seq<Row>
    var previews: map<int, Preview>
    /** A render threw: the app has unmounted and takes no more events. */
    var crashed: bool

    /** At most six rows. */
    ghost predicate Valid()
      reads this
    {
      |selections| <= MaxRows
    }

    /** The first render: one medium row with an empty topic. */
    constructor ()
      ensures Valid()
      ensures availableTopics == [] && topicQuestions == map[] && previews == map[]
      ensures selections == [Row(1, Some(""), Difficulty.Dot2)] && !crashed
    {
      availableTopics := [];
      topicQuestions := map[];
      selections := [Row(1, Some(""), Difficulty.Dot2)];
      previews := map[];
      crashed := false;
    }

    /**
     * `generatePreview(rowId, topic, cache)`: the row's preview is stored, or
     * the render that applies it throws and the app is gone.
     */
    method GeneratePreview(rowId: int, topic: Option<string>, cache: map<string, seq<Question>>, run: Execution)
      requires !crashed
      modifies this`previews, this`crashed
      ensures var stored := StorePreview(old(previews), rowId, PreviewFor(cache, topic, run));
              crashed == stored.None? && previews == stored.GetOr(old(previews))
    {
      match StorePreview(previews, rowId, PreviewFor(cache, topic, run))
      case None => crashed := true;
      case Some(m) => previews := m;
    }

    /**
     * `fetchTopics`: `data` is the fetched questions (None when null). The
     * topic list and the cache are rebuilt; with at least one topic the rows
     * reset to one medium row on the first topic, with its preview.
     */
    method FetchTopics(data: Option<seq<Question>>, run: Execution)
      requires Valid() && !crashed
      modifies this
      ensures Valid()
      ensures data.None? ==> availableTopics == old(availableTopics) && topicQuestions == old(topicQuestions)
                             && selections == old(selections) && previews == old(previews) && !crashed
      ensures data.Some? ==>
                availableTopics == UniqueTopics(data.value) && GroupedBy(topicQuestions, data.value)
      ensures data.Some? && |availableTopics| > 0 ==>
                selections == [Row(1, Some(availableTopics[0]), Difficulty.Dot2)]
                && var stored := StorePreview(old(previews), 1, PreviewFor(topicQuestions, Some(availableTopics[0]), run));
                   crashed == stored.None? && previews == stored.GetOr(old(previews))
      ensures data.Some? && |availableTopics| == 0 ==> selections == old(selections) && previews == old(previews) && !crashed
    {
      if data.None? {
        return;
      }
      var unique := UniqueTopics(data.value);
      var byTopic := GroupByTopic(data.value);
      availableTopics, topicQuestions := unique, byTopic;
      if |unique| > 0 {
        selections := [Row(1, Some(unique[0]), Difficulty.Dot2)];
        GeneratePreview(1, Some(unique[0]), byTopic, run);
      }
    }

    /** The first topic, `undefined` when there is none. */
    function FirstTopic(): Option<string>
      reads this
    {
      if |availableTopics| > 0 then Some(availableTopics[0]) else None
    }

    /** `addRow`: a medium row on the first topic, `now` being `Date.now()`. */
    method AddRow(now: int, run: Execution)
      requires Valid() && !crashed
      modifies this
      ensures Valid()
      ensures selections == AddIfRoom(old(selections), Row(now, FirstTopic(), Difficulty.Dot2))
      ensures |old(selections)| < MaxRows ==>
                var stored := StorePreview(old(previews), now, PreviewFor(topicQuestions, FirstTopic(), run));
                crashed == stored.None? && previews == stored.GetOr(old(previews))
      ensures |old(selections)| >= MaxRows ==> previews == old(previews) && !crashed
      ensures availableTopics == old(availableTopics) && topicQuestions == old(topicQuestions)
    {
      if |selections| < MaxRows {
        var newTopic := FirstTopic();
        selections := selections + [Row(now, newTopic, Difficulty.Dot2)];
        GeneratePreview(now, newTopic, topicQuestions, run);
      }
    }

    /** `duplicateRow(row)`: a new row with `row`'s topic and difficulty. */
    method DuplicateRow(row: Row, now: int, run: Execution)
      requires Valid() && !crashed
      modifies this
      ensures Valid()
      ensures selections == AddIfRoom(old(selections), Row(now, row.topic, row.difficulty))
      ensures |old(selections)| < MaxRows ==>
                var stored := StorePreview(old(previews), now, PreviewFor(topicQuestions, row.topic, run));
                crashed == stored.None? && previews == stored.GetOr(old(previews))
      ensures |old(selections)| >= MaxRows ==> previews == old(previews) && !crashed
      ensures availableTopics == old(availableTopics) && topicQuestions == old(topicQuestions)
    {
      if |selections| < MaxRows {
        selections := selections + [Row(now, row.topic, row.difficulty)];
        GeneratePreview(now, row.topic, topicQuestions, run);
      }
    }

    /** The topics offered as quick-add chips: the first eight of the list. */
    function QuickTopics(): (r: seq<string>)
      reads this
      ensures |r| <= 8 && r <= availableTopics
      ensures |availableTopics| >= 8 ==> |r| == 8
      ensures |availableTopics| < 8 ==> r == availableTopics
    {
      if |availableTopics| <= 8 then availableTopics else availableTopics[..8]
    }

    /** A quick-add chip: a medium row on the chip's topic. */
    method QuickAdd(topic: string, now: int, run: Execution)
      requires Valid() && !crashed
      requires topic in QuickTopics()
      modifies this
      ensures Valid()
      ensures selections == AddIfRoom(old(selections), Row(now, Some(topic), Difficulty.Dot2))
      ensures |old(selections)| < MaxRows ==>
                var stored := StorePreview(old(previews), now, PreviewFor(topicQuestions, Some(topic), run));
                crashed == stored.None? && previews == stored.GetOr(old(previews))
      ensures |old(selections)| >= MaxRows ==> previews == old(previews) && !crashed
      ensures availableTopics == old(availableTopics) && topicQuestions == old(topicQuestions)
    {
      if |selections| < MaxRows {
        selections := selections + [Row(now, Some(topic), Difficulty.Dot2)];
        GeneratePreview(now, Some(topic), topicQuestions, run);
      }
    }

    /** `removeRow(id)`: the rows with that id and that id's preview go. */
    method RemoveRow(id: int)
      requires Valid() && !crashed
      modifies this
      ensures Valid()
      ensures selections == RemoveId(old(selections), id)
      ensures previews == old(previews) - {id} && !crashed
      ensures availableTopics == old(availableTopics) && topicQuestions == old(topicQuestions)
    {
      selections := RemoveId(selections, id);
      previews := previews - {id};
    }

    /** `updateRow(id, field, value)`: a new topic also gets a new preview. */
    method UpdateRow(id: int, field: Field, value: string, run: Execution)
      requires Valid() && !crashed
      modifies this
      ensures Valid()
      ensures selections == UpdateId(old(selections), id, field, value)
      ensures field == TopicField ==>
                var stored := StorePreview(old(previews), id, PreviewFor(topicQuestions, Some(value), run));
                crashed == stored.None? && previews == stored.GetOr(old(previews))
      ensures field != TopicField ==> previews == old(previews) && !crashed
      ensures availableTopics == old(availableTopics) && topicQuestions == old(topicQuestions)
    {
      selections := UpdateId(selections, id, field, value);
      if field == TopicField {
        GeneratePreview(id, Some(value), topicQuestions, run);
      }
    }

    /**
     * `handleGenerate`: one card per row, in row order; None when a
     * generator's `null` or `undefined` value makes the loop throw.
     */
    method HandleGenerate(draws: Draws) returns (cards: Option<seq<Card>>)
      requires !crashed
      ensures cards == CardsUpTo(topicQuestions, selections, |selections|, draws)
    {
      var generated: seq<Card> := [];
      var i := 0;
      while i < |selections|
        invariant 0 <= i <= |selections|
        invariant CardsUpTo(topicQuestions, selections, i, draws) == Some(generated)
      {
        var c := CardFor(topicQuestions, selections[i], i, draws);
        if c.None? {
          CardsStayNone(topicQuestions, selections, i + 1, |selections|, draws);
          return None;
        }
        generated := generated + [c.value];
        i := i + 1;
      }
      cards := Some(generated);
    }
  }

  /** Once a row's generation throws, the whole generation has. */
  lemma CardsStayNone(byTopic: map<string, seq<Question>>, rows: seq<Row>, k: nat, n: nat, draws: Draws)
    requires k <= n <= |rows|
    requires CardsUpTo(byTopic, rows, k, draws).None?
    ensures CardsUpTo(byTopic, rows, n, draws).None?
  {
  }

  /**
   * With no generator returning `null` or `undefined`, generation gives one
   * card per row; a row whose topic has no cached questions gets the
   * fallback card.
   */
  lemma GenerateOnePerRow(byTopic: map<string, seq<Question>>, rows: seq<Row>, draws: Draws)
    requires forall i: nat :: i < |rows| ==> !draws.runs(i).Nullish?
    ensures CardsUpTo(byTopic, rows, |rows|, draws).Some?
    ensures var cs := CardsUpTo(byTopic, rows, |rows|, draws).value;
            |cs| == |rows|
            && forall i :: 0 <= i < |rows| && Cached(byTopic, rows[i].topic) == [] ==>
                 cs[i] == FallbackCard(rows[i], draws.noise(i))
  {
  }
}
