/**
 * Difficulty normalisation (src/utils/difficulty.js): the alias table that maps
 * the many spellings of a difficulty found in stored questions onto the levels
 * 1 (easy), 2 (medium) and 3 (hard), and the lookups built on it.
 */
module Difficulty {
  import opened Wrappers
  import opened Strings

  /** A difficulty level. */
  type Level = l: int | 1 <= l <= 3 witness 2

  /**
   * The JavaScript value handed to `normalizeToLevel`: a string, a finite
   * number, NaN or an infinity, or anything else (null, undefined, an object).
   */
  datatype Raw = Text(s: string) | Number(x: real) | NonFinite | OtherValue

  const Dot1: string := "\U{2022}"
  const Dot2: string := "\U{2022}\U{2022}"
  const Dot3: string := "\U{2022}\U{2022}\U{2022}"

  /** `DIFFICULTY_ALIASES`: every stored spelling and its level. */
  const Aliases: map<string, Level> := map[
    Dot1 := 1, "1" := 1, "easy" := 1, "Easy" := 1, "level 1" := 1, "Level 1" := 1,
    Dot2 := 2, "2" := 2, "medium" := 2, "Medium" := 2, "level 2" := 2, "Level 2" := 2,
    Dot3 := 3, "3" := 3, "hard" := 3, "Hard" := 3, "level 3" := 3, "Level 3" := 3
  ]

  /** `DIFFICULTY_DISPLAY`: the official dot spelling of each level. */
  function Display(l: Level): (r: string)
    ensures r in Aliases && Aliases[r] == l
  {
    if l == 1 then Dot1 else if l == 2 then Dot2 else Dot3
  }

  /** One entry of `DIFFICULTY_INFO`. */
  datatype Info = Info(level: Level, mark: string, name: string, className: string, color: string)

  /** `DIFFICULTY_INFO[l]`. */
  function InfoOf(l: Level): (r: Info)
    ensures r.level == l && r.mark == Display(l)
    ensures r.className == "level-" + IntToString(l)
  {
    if l == 1 then Info(1, Dot1, "Easy", "level-1", "#22c55e")
    else if l == 2 then Info(2, Dot2, "Medium", "level-2", "#eab308")
    else Info(3, Dot3, "Hard", "level-3", "#ef4444")
  }

  /** The alias lookup of a string: exact first, then lower-cased, else medium. */
  function LookupText(s: string): Level {
    if s in Aliases then Aliases[s]
    else if Lower(s) in Aliases then Aliases[Lower(s)]
    else 2
  }

  /** A number that is exactly one of the levels 1, 2 or 3. */
  predicate IsLevelNumber(x: real) {
    x == 1.0 || x == 2.0 || x == 3.0
  }

  /**
   * `normalizeToLevel` as written: a number inside [1, 3] is returned as it
   * is, so a fractional number such as 1.5 comes back unchanged. The result
   * always lies in [1, 3], and it is a whole level exactly when the input is
   * not such a fraction.
   */
  function NormalizeToLevelAsWritten(d: Raw): (r: real)
    ensures 1.0 <= r <= 3.0
    ensures d.Number? && 1.0 <= d.x <= 3.0 ==> r == d.x
    ensures IsLevelNumber(r) <==> !Fractional(d)
  {
    match d
    case Number(x) => if 1.0 <= x <= 3.0 then x else 2.0
    case Text(s) => LookupText(s) as real
    case NonFinite => 2.0
    case OtherValue => 2.0
  }

  /**
   * `normalizeToLevel` as its documentation promises ("1, 2, or 3, defaults to
   * 2 if unrecognized"): only a whole number of 1, 2 or 3 is kept; it agrees
   * with the code everywhere except on the fractional numbers of (1, 3).
   */
  function NormalizeToLevel(d: Raw): (r: Level)
    ensures d.Number? && IsLevelNumber(d.x) ==> r as real == d.x
    ensures d.Number? && !IsLevelNumber(d.x) ==> r == 2
    ensures d.Text? && d.s in Aliases ==> r == Aliases[d.s]
    ensures d.Text? && d.s !in Aliases && Lower(d.s) in Aliases ==> r == Aliases[Lower(d.s)]
    ensures d.Text? && d.s !in Aliases && Lower(d.s) !in Aliases ==> r == 2
    ensures d.NonFinite? || d.OtherValue? ==> r == 2
    ensures NormalizeToLevelAsWritten(d) == r as real <==> !(d.Number? && 1.0 < d.x < 3.0 && !IsLevelNumber(d.x))
  {
    match d
    case Number(x) => if x == 1.0 then 1 else if x == 3.0 then 3 else 2
    case Text(s) => LookupText(s)
    case NonFinite => 2
    case OtherValue => 2
  }

  /** A level read back as a JavaScript number. */
  function AsRaw(l: Level): Raw {
    Number(l as real)
  }

  /** `normalizeToDisplay`: the dot spelling of the normalised level. */
  function NormalizeToDisplay(d: Raw): (r: string)
    ensures r == Dot1 || r == Dot2 || r == Dot3
    ensures NormalizeToLevel(Text(r)) == NormalizeToLevel(d)
  {
    Display(NormalizeToLevel(d))
  }

  /**
   * `normalizeToDisplay` as written: `DIFFICULTY_DISPLAY` has no entry for a
   * fractional level, so the lookup gives `undefined` (None).
   */
  function NormalizeToDisplayAsWritten(d: Raw): (r: Option<string>)
    ensures r.None? <==> Fractional(d)
    ensures r.Some? ==> r.value in Aliases && Aliases[r.value] as real == NormalizeToLevelAsWritten(d)
  {
    var level := NormalizeToLevelAsWritten(d);
    if level == 1.0 then Some(Dot1)
    else if level == 2.0 then Some(Dot2)
    else if level == 3.0 then Some(Dot3)
    else None
  }

  /** `getDifficultyInfo`: the info record of the normalised level. */
  function DifficultyInfo(d: Raw): (r: Info)
    ensures r.level == NormalizeToLevel(d)
    ensures r.mark == NormalizeToDisplay(d)
  {
    InfoOf(NormalizeToLevel(d))
  }

  /** `getDifficultyInfo` as written: `DIFFICULTY_INFO` has no entry for a fractional level (None). */
  function DifficultyInfoAsWritten(d: Raw): (r: Option<Info>)
    ensures r.None? <==> Fractional(d)
    ensures r.Some? ==> r.value.level as real == NormalizeToLevelAsWritten(d)
                        && NormalizeToDisplayAsWritten(d) == Some(r.value.mark)
  {
    var level := NormalizeToLevelAsWritten(d);
    if level == 1.0 then Some(InfoOf(1))
    else if level == 2.0 then Some(InfoOf(2))
    else if level == 3.0 then Some(InfoOf(3))
    else None
  }

  /**
   * `isSameDifficulty` as written: the two levels of the code compared with
   * `===`. A fraction is never the same as a whole level, and two inputs that
   * are not fractions are the same exactly when their display spellings are.
   */
  predicate IsSameAsWritten(a: Raw, b: Raw): (r: bool)
    ensures Fractional(a) != Fractional(b) ==> !r
    ensures !Fractional(a) && !Fractional(b) ==>
              (r <==> NormalizeToDisplayAsWritten(a) == NormalizeToDisplayAsWritten(b))
  {
    NormalizeToLevelAsWritten(a) == NormalizeToLevelAsWritten(b)
  }

  /** A fractional number strictly between 1 and 3: the only input on which the code and its documentation part. */
  predicate Fractional(d: Raw) {
    d.Number? && 1.0 < d.x < 3.0 && !IsLevelNumber(d.x)
  }

  /**
   * Away from the fractional numbers the documented functions are the code:
   * the display spelling and the info record are defined and agree, and
   * `isSameDifficulty` gives the same answer.
   */
  lemma AgreesWithCodeAsWritten(a: Raw, b: Raw)
    requires !Fractional(a) && !Fractional(b)
    ensures NormalizeToDisplayAsWritten(a) == Some(NormalizeToDisplay(a))
    ensures DifficultyInfoAsWritten(a) == Some(DifficultyInfo(a))
    ensures IsSameAsWritten(a, b) <==> IsSame(a, b)
  {
    assert NormalizeToLevelAsWritten(a) == NormalizeToLevel(a) as real;
    assert NormalizeToLevelAsWritten(b) == NormalizeToLevel(b) as real;
  }

  /**
   * `getDifficultyVariations(level)`: every alias whose level is strictly
   * equal to `level`, as a set (the source lists them in `Object.entries`
   * order, which puts the integer-like key first).
   */
  function Variations(level: int): (r: set<string>)
    ensures forall k :: k in r <==> k in Aliases && Aliases[k] == level
  {
    set k | k in Aliases && Aliases[k] == level
  }

  /** `isSameDifficulty`: the same level, that is the same display spelling and the same info record. */
  predicate IsSame(a: Raw, b: Raw): (r: bool)
    ensures r <==> NormalizeToDisplay(a) == NormalizeToDisplay(b)
    ensures r <==> DifficultyInfo(a) == DifficultyInfo(b)
  {
    NormalizeToLevel(a) == NormalizeToLevel(b)
  }

  /** One entry of `DIFFICULTY_OPTIONS`: the value stored and its level. */
  datatype SelectOption = SelectOption(value: string, caption: string, level: Level)

  /** `DIFFICULTY_OPTIONS`, the choices of a difficulty drop-down. */
  const Options: seq<SelectOption> := [
    SelectOption(Dot1, "Level 1 (" + Dot1 + ")", 1),
    SelectOption(Dot2, "Level 2 (" + Dot2 + ")", 2),
    SelectOption(Dot3, "Level 3 (" + Dot3 + ")", 3)
  ]

  /** Normalising a normalised level changes nothing. */
  lemma NormalizeIdempotent(d: Raw)
    ensures NormalizeToLevel(AsRaw(NormalizeToLevel(d))) == NormalizeToLevel(d)
  {
  }

  /** Every encoding of a level, and every level, normalises to 1, 2 or 3. */
  lemma NormalizeTotal(d: Raw)
    ensures NormalizeToLevel(d) in {1, 2, 3}
  {
  }

  /** The display spelling, and the info record, round-trip to the level. */
  lemma DisplayRoundTrip(d: Raw)
    ensures NormalizeToLevel(Text(NormalizeToDisplay(d))) == NormalizeToLevel(d)
    ensures DifficultyInfo(Text(NormalizeToDisplay(d))) == DifficultyInfo(d)
  {
  }

  /** The alias table's spellings are exactly the union of the three levels' variations. */
  lemma VariationsPartition()
    ensures Variations(1) + Variations(2) + Variations(3) == Aliases.Keys
    ensures Variations(1) * Variations(2) == {} && Variations(1) * Variations(3) == {}
    ensures Variations(2) * Variations(3) == {}
  {
  }

  /** Each variation normalises back to its level; a level outside 1–3 has none. */
  lemma VariationsInverse(level: int, k: string)
    ensures k in Variations(level) ==> NormalizeToLevel(Text(k)) == level
    ensures !(1 <= level <= 3) ==> Variations(level) == {}
  {
  }

  /** The documented variations of level 1, as a set. */
  lemma VariationsOfEasy()
    ensures Variations(1) == LevelOneSpellings
  {
    forall k | k in Variations(1) ensures k in LevelOneSpellings {
      LevelOneOnly(k);
    }
  }

  const LevelOneSpellings: set<string> := {Dot1, "1", "easy", "Easy", "level 1", "Level 1"}

  /** Only the six level-1 spellings map to level 1. */
  lemma LevelOneOnly(k: string)
    requires k in Aliases && Aliases[k] == 1
    ensures k in LevelOneSpellings
  {
  }

  /** `isSameDifficulty` is an equivalence relation. */
  lemma IsSameEquivalence(a: Raw, b: Raw, c: Raw)
    ensures IsSame(a, a)
    ensures IsSame(a, b) ==> IsSame(b, a)
    ensures IsSame(a, b) && IsSame(b, c) ==> IsSame(a, c)
  {
  }

  /** The examples in the documentation of difficulty.js. */
  lemma DocumentedExamples()
    ensures NormalizeToLevel(Text(Dot3)) == 3
    ensures NormalizeToLevel(Text("easy")) == 1
    ensures NormalizeToLevel(Number(2.0)) == 2
    ensures NormalizeToDisplay(Text("easy")) == Dot1
    ensures NormalizeToDisplay(Number(3.0)) == Dot3
    ensures IsSame(Text(Dot1), Text("easy"))
    ensures !IsSame(Text(Dot2), Number(3.0))
    ensures DifficultyInfo(Text(Dot3)) == Info(3, Dot3, "Hard", "level-3", "#ef4444")
  {
  }

  /** Upper-case spellings reach the table through lower-casing. */
  lemma UpperCaseExample()
    ensures NormalizeToLevel(Text("EASY")) == 1
  {
    var l := Lower("EASY");
    assert l[0] == 'e' && l[1] == 'a' && l[2] == 's' && l[3] == 'y';
    assert l == "easy";
    assert "EASY" !in Aliases;
  }

  /** Text that is no spelling of a level, even lower-cased, is medium. */
  lemma UnknownTextExample()
    ensures NormalizeToLevel(Text("foo")) == 2
  {
    var l := Lower("foo");
    assert l[0] == 'f' && l[1] == 'o' && l[2] == 'o';
    assert l == "foo";
    assert "foo" !in Aliases;
  }

  /** Each drop-down option's value normalises to the option's level. */
  lemma OptionsConsistent()
    ensures forall i :: 0 <= i < |Options| ==> NormalizeToLevel(Text(Options[i].value)) == Options[i].level
    ensures forall i :: 0 <= i < |Options| ==> Options[i].value == Display(Options[i].level)
  {
  }

  /** The code returns the fraction 1.5 unchanged, which has no display spelling. */
  lemma FractionalLevelAsWritten()
    ensures NormalizeToLevelAsWritten(Number(1.5)) == 1.5
    ensures NormalizeToDisplayAsWritten(Number(1.5)) == None
    ensures DifficultyInfoAsWritten(Number(1.5)) == None
    ensures !IsSameAsWritten(Number(1.5), Number(2.0))
    ensures NormalizeToLevel(Number(1.5)) == 2
    ensures IsSame(Number(1.5), Number(2.0))
  {
  }
}
