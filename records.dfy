/**
 * The records the components pass around: a stored question row, a card on a
 * practice board, the outcome of running a question's generator code, and the
 * values of `Math.random()` the components draw.
 */
module Records {
  import opened Wrappers

  /**
   * A row of the `questions` table (or of the due-card function). Text fields
   * whose only use is their truthiness are strings, "" standing for a missing
   * value; the question and answer text may be missing altogether.
   */
  datatype Question = Question(
    id: string,
    topic: string,
    skillName: string,
    difficulty: string,
    generatorCode: string,
    questionText: Option<string>,
    answerText: Option<string>)

  /** Font sizes are kept in hundredths of a rem: 0.95rem is 95, 1.4rem is 140. */
  const BoardFontSize: int := 95
  const CustomFontSize: int := 140

  /**
   * A card: the question row it was made from (`...q`) and the fields the
   * board adds to it.
   */
  datatype Card = Card(
    row: Question,
    currentQ: Option<string>,
    currentA: Option<string>,
    currentImage: Option<string>,
    revealed: bool,
    fontSize: int,
    isReview: bool,
    slotKey: Option<string>)

  /**
   * What `new Function(code)()` did: it threw; it returned `null` or
   * `undefined` (as empty code does); it returned some other value that is not
   * an object (a number, string, boolean or function, whose `q`, `a` and
   * `image` read as `undefined`); or it returned an object whose `q`, `a` and
   * `image` fields may each be missing.
   */
  datatype Execution =
    | Throws
    | Nullish
    | Primitive
    | Obj(q: Option<string>, a: Option<string>, image: Option<string>)

  /** The `{ q, a, image }` triple the practice board shows. */
  datatype Generated = Generated(q: string, a: string, image: Option<string>)

  /** A value returned by `Math.random()`. */
  type Unit = r: real | 0.0 <= r < 1.0

  /** `Math.floor(Math.random() * n)`: an index into a list of `n` elements. */
  function PickIndex(r: Unit, n: nat): (i: nat)
    requires n > 0
    ensures i < n
    ensures i as real <= r * n as real < i as real + 1.0
  {
    var x := r * n as real;
    assert x < n as real by {
      assert r * (n as real) < 1.0 * (n as real);
    }
    x.Floor
  }

  /** `xs.sort(() => 0.5 - Math.random())`: some rearrangement of `xs`. */
  method Shuffle<T(==)>(xs: seq<T>) returns (r: seq<T>)
    ensures multiset(r) == multiset(xs)
  {
    assert multiset(xs) == multiset(xs);
    r :| multiset(r) == multiset(xs);
  }
}
