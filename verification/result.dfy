/** The per-item verdict of validation/result.py. */
module ValidationResults {
  import opened Wrappers
  import opened Models

  datatype ValidationResult = ValidationResult(
    isValid: bool,
    notes: string,
    suggestions: seq<Suggestion>,
    metadata: map<string, int>)

  /** `ValidationResult(is_valid, notes, suggestions=None, metadata=None)`:
      validity and notes are kept as given; an absent suggestion list becomes
      the empty list and absent metadata the empty map, so a result always
      carries a list and a map. */
  function NewValidationResult(
    isValid: bool,
    notes: string,
    suggestions: Option<seq<Suggestion>> := None,
    metadata: Option<map<string, int>> := None): (r: ValidationResult)
    ensures r.isValid == isValid && r.notes == notes
    ensures suggestions.None? ==> r.suggestions == []
    ensures suggestions.Some? ==> r.suggestions == suggestions.value
    ensures metadata.None? ==> r.metadata == map[]
    ensures metadata.Some? ==> r.metadata == metadata.value
  {
    ValidationResult(isValid, notes, suggestions.GetOr([]), metadata.GetOr(map[]))
  }
}
