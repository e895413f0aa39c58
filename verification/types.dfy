/**
 * The records of the tutor: the client's domain types (types.ts) and the
 * server's stored user record (functions/api/types.ts).
 */
module Types {
  import opened Wrappers

  /** A JSON field as JavaScript sees it: missing (`undefined`), `null`, or a value. */
  datatype Field<+T> = Absent | Null | Present(value: T)

  /** JavaScript truthiness of an optional string field: present and non-empty. */
  predicate Truthy(f: Field<string>) {
    f.Present? && f.value != ""
  }

  /** The fourteen proficiency levels (enum StudentLevel). */
  datatype Level =
    | Primary1_2 | Primary3_4 | Primary5_6
    | Junior1 | Junior2 | Junior3
    | Senior1 | Senior2 | Senior3
    | University1_2 | University3_4 | Graduate
    | Toefl | Ielts

  /** The enum's string value, which is what gets stored and sent over the wire. */
  function LevelValue(l: Level): string {
    match l
    case Primary1_2 => "小学 1-2年级"
    case Primary3_4 => "小学 3-4年级"
    case Primary5_6 => "小学 5-6年级"
    case Junior1 => "初中一年级"
    case Junior2 => "初中二年级"
    case Junior3 => "初中三年级"
    case Senior1 => "高中一年级"
    case Senior2 => "高中二年级"
    case Senior3 => "高中三年级"
    case University1_2 => "大学 1-2年级 (CET-4)"
    case University3_4 => "大学 3-4年级 (CET-6)"
    case Graduate => "研究生 (考研英语)"
    case Toefl => "TOEFL (托福)"
    case Ielts => "IELTS (雅思)"
  }

  datatype Mode = Sentence | Essay

  datatype Lang = En | Cn

  datatype CorrectionItem = CorrectionItem(original: string, correction: string, explanation: string)

  datatype EvaluationResult = EvaluationResult(
    score: int,
    generalFeedback: string,
    detailedCorrections: seq<CorrectionItem>,
    improvedVersion: string,
    handwritingScore: Option<int>,
    handwritingComment: Option<string>,
    transcribedText: Option<string>)

  datatype HistoryRecord = HistoryRecord(
    id: string,
    date: string,
    level: Level,
    topic: string,
    mode: Mode,
    userContent: string,
    evaluation: EvaluationResult)

  /**
   * Provider settings. `provider` is kept as free text because the server
   * receives whatever JSON the client sends; a missing `apiKey` reads as "".
   */
  datatype UserConfig = UserConfig(apiKey: string, provider: string, model: string)

  datatype BadgeDef = BadgeDef(id: string, name: string, icon: string, description: string, threshold: int)
}
