/** Types of the shared summary package that both textbook apps import. */
module SummaryTypes {

  /**
   * The error codes a summary submission can end with. `Internal` and
   * `LanguageNotEn` are the two the forms produce themselves; every other code
   * comes out of the summary validator, whose rules are not part of this model,
   * and is carried as `Rejected(code)`.
   */
  datatype ErrorType = Internal | LanguageNotEn | Rejected(code: string)
}
