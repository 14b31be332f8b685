// src/error.rs: `HoneyIdError` and its conversion from `eyre::Report`, plus
// the error values the rest of the crate raises.
module Errors {
  import opened Entities

  /** endpoint_libs' `ErrorCode`, a numeric code (`ErrorCode::new(u32)`). */
  datatype ErrorCode = ErrorCode(code: u32)

  /** endpoint_libs' `ErrorCode::INTERNAL_ERROR`. */
  const INTERNAL_ERROR: ErrorCode := ErrorCode(100500)

  /** The crate's `ErrorCode` / `HoneyErrorCode` enum (the `enums` module), by variant. */
  datatype HoneyErrorCode = BadRequest | InternalError

  datatype HoneyIdError = HoneyIdError(code: ErrorCode, msg: string)

  /**
   * An `eyre::Report`, by what it wraps:
   * - HoneyId: a `HoneyIdError` (`bail!(HoneyIdError::new(..))`);
   * - Custom: endpoint_libs' `CustomError::new(code, msg)`;
   * - AlreadyExists: worktable's rejection of an insert that breaks a unique index;
   * - Message: any other report, by its display text (`bail!("..")`, `eyre!(..)`,
   *   library errors, `wrap_err`).
   */
  datatype Report =
    | HoneyId(err: HoneyIdError)
    | Custom(kind: HoneyErrorCode, msg: string)
    | AlreadyExists
    | Message(text: string)

  /** `#[display("{msg}")]`: a `HoneyIdError` displays its message and nothing else. */
  function Display(e: HoneyIdError): string
  {
    e.msg
  }

  /** The display text of a report (`e.to_string()`). */
  function ReportText(r: Report): string
  {
    match r
    case HoneyId(e) => Display(e)
    case Custom(_, msg) => msg
    case AlreadyExists => "AlreadyExists"
    case Message(text) => text
  }

  /**
   * `impl From<eyre::Report> for HoneyIdError`: a report wrapping a
   * `HoneyIdError` gives it back; any other report becomes an
   * INTERNAL_ERROR carrying the report's text.
   */
  function FromReport(r: Report): (e: HoneyIdError)
    ensures r.HoneyId? ==> e == r.err
    ensures !r.HoneyId? ==> e.code == INTERNAL_ERROR
    ensures Display(e) == ReportText(r)
  {
    match r
    case HoneyId(e) => e
    case _ => HoneyIdError(INTERNAL_ERROR, ReportText(r))
  }

  /** Wrapping a `HoneyIdError` in a report and converting back is the identity. */
  lemma FromReportRoundTrip(e: HoneyIdError)
    ensures FromReport(HoneyId(e)) == e
    ensures ReportText(HoneyId(e)) == Display(e)
  {
  }
}
