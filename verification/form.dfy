/**
 The record of answers the intake wizard accumulates, and the three ways a
 step view writes into it: a single choice, a list of toggled choices, and a
 free-text input. Field names are a closed tagged type instead of a run-time
 property name, so every write names exactly one field.
 */
module Form {

  /** A single-choice answer that may not have been given yet. */
  datatype Option<+T> = None | Some(value: T)

  datatype FormData = FormData(
    insuranceIndustry: Option<string>,
    businessType: Option<string>,
    insuranceLines: seq<string>,
    improvements: seq<string>,
    annualRevenue: string,
    leadGeneration: seq<string>,
    website: string,
    firstName: string,
    lastName: string,
    email: string,
    phone: string)

  /** The answers the widget starts with when it mounts. */
  const Empty: FormData := FormData(None, None, [], [], "", [], "", "", "", "", "")

  datatype SingleField = InsuranceIndustry | BusinessType
  datatype ListField = InsuranceLines | Improvements | LeadGeneration
  datatype TextField = AnnualRevenue | Website | FirstName | LastName | Email | Phone

  /** Any one of the eleven fields. */
  datatype Field = Single(single: SingleField) | List(list: ListField) | Text(text: TextField)

  /** The value held by a field, whatever its kind. */
  datatype Value = Choice(choice: Option<string>) | Choices(choices: seq<string>) | Typed(typed: string)

  function GetSingle(fd: FormData, f: SingleField): Option<string>
  {
    match f
    case InsuranceIndustry => fd.insuranceIndustry
    case BusinessType => fd.businessType
  }

  function GetList(fd: FormData, f: ListField): seq<string>
  {
    match f
    case InsuranceLines => fd.insuranceLines
    case Improvements => fd.improvements
    case LeadGeneration => fd.leadGeneration
  }

  function GetText(fd: FormData, f: TextField): string
  {
    match f
    case AnnualRevenue => fd.annualRevenue
    case Website => fd.website
    case FirstName => fd.firstName
    case LastName => fd.lastName
    case Email => fd.email
    case Phone => fd.phone
  }

  function Get(fd: FormData, f: Field): Value
  {
    match f
    case Single(s) => Choice(GetSingle(fd, s))
    case List(l) => Choices(GetList(fd, l))
    case Text(t) => Typed(GetText(fd, t))
  }

  /** Every field other than `except` holds the same value in `a` and `b`. */
  ghost predicate OthersUnchanged(a: FormData, b: FormData, except: Field)
  {
    forall f: Field :: f != except ==> Get(a, f) == Get(b, f)
  }

  /** Stores a single-choice answer in the named field, copying every other field. */
  function SetSingle(fd: FormData, f: SingleField, v: string): (r: FormData)
    ensures GetSingle(r, f) == Some(v)
    ensures OthersUnchanged(fd, r, Single(f))
  {
    match f
    case InsuranceIndustry => fd.(insuranceIndustry := Some(v))
    case BusinessType => fd.(businessType := Some(v))
  }

  /** Choosing twice keeps only the second answer. */
  lemma SetSingleLastWins(fd: FormData, f: SingleField, a: string, b: string)
    ensures SetSingle(SetSingle(fd, f, a), f, b) == SetSingle(fd, f, b)
  {
  }

  /** Replaces the named list field, copying every other field. */
  function SetList(fd: FormData, f: ListField, xs: seq<string>): (r: FormData)
    ensures GetList(r, f) == xs
    ensures OthersUnchanged(fd, r, List(f))
  {
    match f
    case InsuranceLines => fd.(insuranceLines := xs)
    case Improvements => fd.(improvements := xs)
    case LeadGeneration => fd.(leadGeneration := xs)
  }

  /** Stores typed text in the named field, copying every other field. */
  function SetText(fd: FormData, f: TextField, v: string): (r: FormData)
    ensures GetText(r, f) == v
    ensures OthersUnchanged(fd, r, Text(f))
  {
    match f
    case AnnualRevenue => fd.(annualRevenue := v)
    case Website => fd.(website := v)
    case FirstName => fd.(firstName := v)
    case LastName => fd.(lastName := v)
    case Email => fd.(email := v)
    case Phone => fd.(phone := v)
  }
}
