/**
 * `NoLeadingSpaceDirective`: the keydown, paste and input handlers that keep
 * a leading space out of a text control, as transitions on the element's
 * value, the control's value and the control's error map.
 */
module NoLeadingSpaceInput {
  import opened Wrappers
  import opened Strings
  import opened NoLeadingSpaceValidation

  /** `errors['leadingSpace']` is truthy. */
  predicate HasLeadingSpaceError(errors: ValidationErrors) {
    LeadingSpaceKey in errors && errors[LeadingSpaceKey] != ""
  }

  /**
   * `delete errors['leadingSpace']; setErrors(keys.length ? errors : null)`,
   * done only when that error is set: every other error stays, and no error
   * left means null.
   */
  function WithoutLeadingSpace(errors: Option<ValidationErrors>): (r: Option<ValidationErrors>)
    ensures !(errors.Some? && HasLeadingSpaceError(errors.value)) ==> r == errors
    ensures errors.Some? && HasLeadingSpaceError(errors.value) ==>
      && (r.None? <==> errors.value.Keys == {LeadingSpaceKey})
      && (r.Some? ==> r.value.Keys == errors.value.Keys - {LeadingSpaceKey}
                      && forall k :: k in r.value ==> r.value[k] == errors.value[k])
  {
    if errors.Some? && HasLeadingSpaceError(errors.value) then
      var rest := errors.value - {LeadingSpaceKey};
      if |rest| == 0 then None else Some(rest)
    else errors
  }

  /** Afterwards no leading-space error is set, so removing it a second time changes nothing. */
  lemma WithoutLeadingSpaceClears(errors: Option<ValidationErrors>)
    ensures var r := WithoutLeadingSpace(errors); r.None? || !HasLeadingSpaceError(r.value)
    ensures WithoutLeadingSpace(WithoutLeadingSpace(errors)) == WithoutLeadingSpace(errors)
  {
  }

  class NoLeadingSpaceDirective {
    /** The input element's DOM value. */
    var elementValue: string
    /** The bound form control's value and errors. */
    var controlValue: string
    var errors: Option<ValidationErrors>
    var touched: bool
    var dirty: bool

    /** Attached to a control holding `initial`, whose own validators have produced `initialErrors`. */
    constructor (initial: string, initialErrors: Option<ValidationErrors>)
      ensures elementValue == initial && controlValue == initial
      ensures errors == initialErrors && !touched && !dirty
    {
      elementValue, controlValue := initial, initial;
      errors := initialErrors;
      touched, dirty := false, false;
    }

    /**
     * `onKeyDown`: a space typed with the caret at 0 is prevented and the
     * error map becomes exactly {leadingSpace}; any other key, while the
     * element holds a non-empty value not starting with a space, removes the
     * leading-space error.
     */
    method OnKeyDown(key: string, selectionStart: Option<int>) returns (prevented: bool)
      modifies this
      ensures prevented <==> key == " " && selectionStart == Some(0)
      ensures prevented ==> errors == Some(LeadingSpaceErrors) && touched && dirty
      ensures !prevented && elementValue != "" && !StartsWith(elementValue, " ") ==>
        errors == WithoutLeadingSpace(old(errors)) && touched == old(touched) && dirty == old(dirty)
      ensures !prevented && !(elementValue != "" && !StartsWith(elementValue, " ")) ==>
        errors == old(errors) && touched == old(touched) && dirty == old(dirty)
      ensures elementValue == old(elementValue) && controlValue == old(controlValue)
    {
      prevented := key == " " && selectionStart == Some(0);
      if prevented {
        errors := Some(LeadingSpaceErrors);
        touched, dirty := true, true;
      } else if elementValue != "" && !StartsWith(elementValue, " ") {
        errors := WithoutLeadingSpace(errors);
      }
    }

    /** `onPaste`: pasted text starting with a space is prevented and sets {leadingSpace}; other pastes change nothing. */
    method OnPaste(clipboardText: Option<string>) returns (prevented: bool)
      modifies this
      ensures prevented <==> StartsWith(OrDefault(clipboardText, ""), " ")
      ensures prevented ==> errors == Some(LeadingSpaceErrors) && touched && dirty
      ensures !prevented ==> errors == old(errors) && touched == old(touched) && dirty == old(dirty)
      ensures elementValue == old(elementValue) && controlValue == old(controlValue)
    {
      var pastedText := OrDefault(clipboardText, "");
      prevented := StartsWith(pastedText, " ");
      if prevented {
        errors := Some(LeadingSpaceErrors);
        touched, dirty := true, true;
      }
    }

    /**
     * `onInput`, given the element's new value: one starting with a space is
     * wiped from both the element and the control and sets {leadingSpace};
     * any other is copied into the control, whose validators then give
     * `revalidated` for it, and the leading-space error is removed from those.
     * Either way the control's value never starts with a space.
     */
    method OnInput(newValue: string, revalidated: Option<ValidationErrors>)
      modifies this
      ensures !StartsWith(controlValue, " ") && elementValue == controlValue
      ensures StartsWith(newValue, " ") ==>
        elementValue == "" && errors == Some(LeadingSpaceErrors) && touched && dirty
      ensures !StartsWith(newValue, " ") ==>
        controlValue == newValue && errors == WithoutLeadingSpace(revalidated)
        && touched == old(touched) && dirty == old(dirty)
    {
      elementValue := newValue;
      if StartsWith(elementValue, " ") {
        elementValue := "";
        controlValue := "";
        errors := Some(LeadingSpaceErrors);
        touched, dirty := true, true;
      } else {
        controlValue := elementValue;
        errors := WithoutLeadingSpace(revalidated);
      }
    }
  }
}
