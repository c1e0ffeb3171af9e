/**
 * The exception materializer: a filter on the root logger that replaces a
 * live traceback by its formatted text before handlers see the record.
 */
module StringifyTraceback {
  import opened Wrappers
  import opened Records

  /**
   * The exception attributes after the filter has run on `e`; None when the
   * standard library's `format_exception` raised, which `filter` does not catch.
   */
  function Materialize(e: ExcFields, fmt: FormatException): (r: Option<ExcFields>)
    // once materialized, no live traceback is left
    ensures r.Some? ==> !HasLiveTraceback(r.value)
    // a record without a live traceback is left as it is
    ensures !HasLiveTraceback(e) ==> r == Some(e)
    // a live traceback is always dropped from exc_info
    ensures HasLiveTraceback(e) && r.Some? ==> r.value.info.None?
    // an exc_text that is already there survives
    ensures Truthy(e.text) ==> r.Some? && r.value.text == e.text
    // an empty exc_text is replaced by the formatted exception
    ensures HasLiveTraceback(e) && !Truthy(e.text) && r.Some? ==> r.value.text == fmt(e.info.value)
    // the only failure is the formatting call itself
    ensures r.None? <==> HasLiveTraceback(e) && !Truthy(e.text) && fmt(e.info.value).None?
  {
    if HasLiveTraceback(e) then
      if !Truthy(e.text) then
        match fmt(e.info.value)
        case Some(text) => Some(ExcFields(None, Some(text)))
        case None => None
      else
        Some(ExcFields(None, e.text))
    else
      Some(e)
  }

  /** Running the filter a second time changes nothing. */
  lemma MaterializeIdempotent(e: ExcFields, fmt: FormatException)
    requires Materialize(e, fmt).Some?
    ensures Materialize(Materialize(e, fmt).value, fmt) == Materialize(e, fmt)
  {
  }

  /** How `filter` ends: it returns a boolean, or an exception escapes it. */
  datatype FilterOutcome = Returned(value: bool) | Raised

  class StringifyTracebackFilter {
    constructor ()
    {
    }

    /**
     * `StringifyTracebackFilter.filter`: formats a live traceback into
     * `exc_text` unless a non-empty text is already there, then clears
     * `exc_info`. It never rejects a record.
     */
    method Filter(record: LogRecord, fmt: FormatException) returns (outcome: FilterOutcome)
      modifies record`excInfo, record`excText
      ensures outcome != Returned(false)
      ensures outcome == Raised <==> Materialize(old(record.Exc()), fmt).None?
      ensures outcome.Returned? ==> record.Exc() == Materialize(old(record.Exc()), fmt).value
      ensures outcome.Raised? ==> record.Exc() == old(record.Exc())
    {
      if record.excInfo.Some? && record.excInfo.value.tb.Some? {
        if !Truthy(record.excText) {
          var text := fmt(record.excInfo.value);
          if text.None? {
            return Raised;
          }
          record.excText := text;
        }
        record.excInfo := None;
      }
      return Returned(true);
    }
  }
}
