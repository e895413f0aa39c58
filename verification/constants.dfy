/** The static tables of constants.ts: levels, badges, points and per-level prompt context. */
module Constants {
  import opened Types

  /** `LEVELS = Object.values(StudentLevel)`, in declaration order. */
  const Levels: seq<Level> := [
    Primary1_2, Primary3_4, Primary5_6, Junior1, Junior2, Junior3,
    Senior1, Senior2, Senior3, University1_2, University3_4, Graduate, Toefl, Ielts]

  const Badges: seq<BadgeDef> := [
    BadgeDef("novice", "Novice Writer", "🌱", "Complete your first exercise", 10),
    BadgeDef("scholar", "Diligent Scholar", "📚", "Earn 100 points", 100),
    BadgeDef("master", "Wordsmith", "✍️", "Earn 500 points", 500),
    BadgeDef("legend", "English Legend", "👑", "Earn 1000 points", 1000)]

  const PointsPerSentence: int := 20
  const PointsPerEssay: int := 100

  /** Points a finished exercise is worth (App.tsx chooses by practice mode). */
  function PointsFor(mode: Mode): int {
    if mode == Essay then PointsPerEssay else PointsPerSentence
  }

  /** `LEVEL_PROMPTS[level]`: the context sentence put into topic prompts. */
  function LevelPrompt(l: Level): string {
    match l
    case Primary1_2 => "simple, focusing on basic vocabulary (colors, animals, family) and simple sentence structures."
    case Primary3_4 => "basic, focusing on daily routines, hobbies, and weather with simple paragraphs."
    case Primary5_6 => "elementary, focusing on past events, future plans, and describing places."
    case Junior1 => "lower-intermediate, simple argumentative or narrative essays about school life."
    case Junior2 => "intermediate, expressing opinions, making comparisons, and writing letters."
    case Junior3 => "intermediate, complex sentences, past/present perfect tenses, preparation for high school entrance."
    case Senior1 => "upper-intermediate, logical reasoning, social issues, and more formal vocabulary."
    case Senior2 => "advanced, analyzing charts, literary appreciation, and structured arguments."
    case Senior3 => "advanced,高考 (Gaokao) standard, complex grammar, and rich vocabulary."
    case University1_2 => "CET-4 standard, academic or semi-formal writing, clear structure."
    case University3_4 => "CET-6 standard, sophisticated arguments, complex sentence variety."
    case Graduate => "Graduate entrance exam standard, academic rigor, formal tone."
    case Toefl => "TOEFL standard, integrated and independent writing tasks, academic and campus contexts."
    case Ielts => "IELTS standard, Task 1 (data description) and Task 2 (argumentative essay)."
  }

  /** True when the ids of a badge table are pairwise distinct. */
  predicate DistinctIds(table: seq<BadgeDef>) {
    forall i, j :: 0 <= i < j < |table| ==> table[i].id != table[j].id
  }

  /** The badge table's thresholds strictly increase and its ids are distinct. */
  lemma BadgeTableWellFormed()
    ensures forall i, j :: 0 <= i < j < |Badges| ==> Badges[i].threshold < Badges[j].threshold
    ensures DistinctIds(Badges)
  {
  }

  /** Position of a level in `LEVELS`: every level is listed. */
  function LevelIndex(l: Level): (i: nat)
    ensures i < |Levels| && Levels[i] == l
  {
    match l
    case Primary1_2 => 0
    case Primary3_4 => 1
    case Primary5_6 => 2
    case Junior1 => 3
    case Junior2 => 4
    case Junior3 => 5
    case Senior1 => 6
    case Senior2 => 7
    case Senior3 => 8
    case University1_2 => 9
    case University3_4 => 10
    case Graduate => 11
    case Toefl => 12
    case Ielts => 13
  }

  /** `LEVELS` lists every level exactly once. */
  lemma LevelsEnumerateAll()
    ensures |Levels| == 14
    ensures forall l: Level :: l in Levels
    ensures forall i, j :: 0 <= i < j < |Levels| ==> Levels[i] != Levels[j]
  {
    forall l: Level ensures l in Levels {
      assert Levels[LevelIndex(l)] == l;
    }
  }

  /** Distinct levels have distinct wire values, so the value identifies the level. */
  lemma LevelValueInjective(a: Level, b: Level)
    requires LevelValue(a) == LevelValue(b)
    ensures a == b
  {
  }

  /** A worked example: from zero points, one essay clears exactly the first two badge thresholds. */
  lemma OneEssayFromZero()
    ensures 0 + PointsFor(Essay) == 100
    ensures Badges[0].threshold <= 100 && Badges[1].threshold <= 100
    ensures Badges[2].threshold > 100 && Badges[3].threshold > 100
    ensures PointsFor(Sentence) == 20
  {
  }
}
