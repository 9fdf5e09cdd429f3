/** `noLeadingSpaceValidator`: rejects a text value whose first character is a space. */
module NoLeadingSpaceValidation {
  import opened Wrappers
  import opened Strings

  /** A form control's value: a string, or any other JavaScript value. */
  datatype ControlValue = Text(text: string) | NonText

  /** Angular's ValidationErrors: error key to message. */
  type ValidationErrors = map<string, string>

  const LeadingSpaceKey: string := "leadingSpace"
  const LeadingSpaceMessage: string := "Input cannot start with a space"

  /** The error map every leading-space rejection sets. */
  const LeadingSpaceErrors: ValidationErrors := map[LeadingSpaceKey := LeadingSpaceMessage]

  /**
   * The validator: an error exactly when the value is a string whose first
   * character is the ASCII space; null (no error) otherwise.
   */
  function NoLeadingSpaceValidator(value: ControlValue): (r: Option<ValidationErrors>)
    ensures r.Some? <==> value.Text? && |value.text| > 0 && value.text[0] == ' '
    ensures r.Some? ==> r.value == LeadingSpaceErrors
  {
    if value.Text? && StartsWith(value.text, " ") then Some(LeadingSpaceErrors) else None
  }

  /** Non-strings, the empty string, inner or trailing spaces and a leading tab all pass. */
  lemma ValidatorAccepts()
    ensures NoLeadingSpaceValidator(NonText) == None
    ensures NoLeadingSpaceValidator(Text("")) == None
    ensures NoLeadingSpaceValidator(Text("abc def ")) == None
    ensures NoLeadingSpaceValidator(Text("\tabc")) == None
    ensures NoLeadingSpaceValidator(Text(" abc")) == Some(LeadingSpaceErrors)
  {
  }
}
