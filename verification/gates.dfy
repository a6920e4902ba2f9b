/**
 The forward-navigation gates the step views enforce through `disabled=` on
 their Next and Submit buttons. Each gate is written here the way the view
 writes it (JavaScript truthiness of strings, `&&` on strings returning one
 of its operands), and its contract states what it means.
 */
module Gates {
  import opened Form

  /** A JavaScript string is truthy exactly when it is not empty. */
  predicate Truthy(s: string)
  {
    s != ""
  }

  /** JavaScript `a && b` on strings: the first operand if it is falsy,
      otherwise the second. */
  function And(a: string, b: string): (r: string)
    ensures Truthy(r) <==> Truthy(a) && Truthy(b)
    ensures r == a || r == b
  {
    if Truthy(a) then b else a
  }

  /** A multi-select step disables Next while its list has no element. */
  predicate ListNextDisabled(values: seq<string>)
  {
    |values| == 0
  }

  /** A free-text step disables Next while its text is falsy. */
  predicate TextNextDisabled(value: string)
  {
    !Truthy(value)
  }

  /** The contact step's validity value: the four contact fields chained
      left to right with JavaScript `&&`. */
  function ContactValidity(fd: FormData): (r: string)
    ensures Truthy(r) <==> fd.firstName != "" && fd.lastName != "" && fd.email != "" && fd.phone != ""
  {
    And(And(And(fd.firstName, fd.lastName), fd.email), fd.phone)
  }

  /** The step 8 Submit button is disabled when the validity value is falsy
      or a submission is in flight. */
  predicate SubmitDisabled(fd: FormData, isSubmitting: bool)
  {
    !Truthy(ContactValidity(fd)) || isSubmitting
  }

  /** Whether the step view at `step` shows an enabled Next button. Steps 1
      and 2 advance by selection and have no Next; step 8 has Submit instead. */
  function NextEnabled(step: int, fd: FormData): (r: bool)
    ensures step == 3 ==> (r <==> |fd.insuranceLines| > 0)
    ensures step == 4 ==> (r <==> |fd.improvements| > 0)
    ensures step == 5 ==> (r <==> fd.annualRevenue != "")
    ensures step == 6 ==> (r <==> |fd.leadGeneration| > 0)
    ensures step == 7 ==> (r <==> fd.website != "")
    ensures step !in {3, 4, 5, 6, 7} ==> !r
  {
    match step
    case 3 => !ListNextDisabled(fd.insuranceLines)
    case 4 => !ListNextDisabled(fd.improvements)
    case 5 => !TextNextDisabled(fd.annualRevenue)
    case 6 => !ListNextDisabled(fd.leadGeneration)
    case 7 => !TextNextDisabled(fd.website)
    case _ => false
  }

  /** Whether the step 8 Submit button is enabled. */
  function SubmitEnabled(fd: FormData, isSubmitting: bool): (r: bool)
    ensures r <==> fd.firstName != "" && fd.lastName != "" && fd.email != "" && fd.phone != "" && !isSubmitting
  {
    !SubmitDisabled(fd, isSubmitting)
  }
}
