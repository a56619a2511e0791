/** The errors Django's required text fields report. */
module FormFields {
  import opened Common
  import opened Strings

  /** The errors of a required `forms.CharField` whose stripped value is `v`,
      attached to `f`: an empty value is missing; otherwise every validator
      reports: at most `maxLength` characters when there is a limit, and no
      NUL character. */
  function StrippedTextErrors(f: Field, v: string, maxLength: Option<nat>): (r: seq<FieldError>)
    ensures r == [] <==> v != "" && (maxLength.Some? ==> |v| <= maxLength.value) && '\0' !in v
    ensures |r| <= 2 && forall i :: 0 <= i < |r| ==> r[i].field == f
    ensures maxLength.None? ==> |r| <= 1
  {
    if v == "" then [FieldError(f, Required)]
    else
      var tooLong := if maxLength.Some? && |v| > maxLength.value then [FieldError(f, MaxLength(maxLength.value, |v|))] else [];
      var hasNul := if '\0' in v then [FieldError(f, NullCharacters)] else [];
      assert |tooLong + hasNul| == |tooLong| + |hasNul|;
      tooLong + hasNul
  }

  /** The errors of a required `forms.CharField` holding `value`: the field
      strips the value first. */
  function TextFieldErrors(f: Field, value: string, maxLength: Option<nat>): (r: seq<FieldError>)
    ensures r == [] <==> Strip(value) != "" && (maxLength.Some? ==> |Strip(value)| <= maxLength.value)
                         && '\0' !in Strip(value)
    ensures |r| <= 2 && forall i :: 0 <= i < |r| ==> r[i].field == f
    ensures maxLength.None? ==> |r| <= 1
  {
    StrippedTextErrors(f, Strip(value), maxLength)
  }
}
