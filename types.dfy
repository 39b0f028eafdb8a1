/** Data shapes shared by the three controllers (types.ts). Only the parts of
    the records that the controllers inspect are kept: a question's option ids
    and its correct id, an exam's code and name, a domain's id and title. */
module Types {

  datatype Option<+T> = None | Some(value: T)

  /** A quiz question: the ids of its options, in display order, and the id of
      the correct one. The multilingual texts are opaque to the controllers. */
  datatype QuizQuestion = QuizQuestion(id: string, optionIds: seq<int>, correctId: int)

  /** A certification exam of the static catalogue. */
  datatype Exam = Exam(code: string, name: string)

  /** A weighted knowledge area of an exam's syllabus. */
  datatype Domain = Domain(id: string, title: string)

  /** Which languages the question texts are rendered in. */
  datatype LanguageMode = All | En | Zh | Jp | JpRuby

  /** What an awaited call to the content provider settled with. */
  datatype FetchOutcome = Fetched(question: QuizQuestion) | FetchFailed
}
