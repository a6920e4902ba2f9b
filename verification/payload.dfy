/**
 The body the wizard POSTs to its webhook: the four contact fields verbatim,
 seven custom fields in a fixed order, and fixed source and tags metadata.
 List answers travel joined with ", "; `SplitJoined` reads them back.
 */
module Payload {
  import opened Form

  const Separator: string := ", "

  /** The values in order with ", " between neighbours, as JavaScript's
      array join with that separator produces. */
  function Join(xs: seq<string>): string
    decreases |xs|
  {
    if xs == [] then ""
    else if |xs| == 1 then xs[0]
    else xs[0] + Separator + Join(xs[1..])
  }

  /** Joining one more value onto a non-empty list appends the separator and
      the value: the left-to-right reading of `join`. */
  lemma {:induction false} JoinSnoc(xs: seq<string>, y: string)
    requires xs != []
    ensures Join(xs + [y]) == Join(xs) + Separator + y
    decreases |xs|
  {
    if |xs| == 1 {
      assert (xs + [y])[1..] == [y];
    } else {
      assert (xs + [y])[1..] == xs[1..] + [y];
      JoinSnoc(xs[1..], y);
    }
  }

  /** Splits a string at every ", "; the inverse of `Join` on lists whose
      values are non-empty and contain no comma. */
  function Split(s: string): (r: seq<string>)
    ensures |r| >= 1
    decreases |s|
  {
    if s == [] then [""]
    else if |s| >= 2 && s[..2] == Separator then [""] + Split(s[2..])
    else
      var rest := Split(s[1..]);
      [[s[0]] + rest[0]] + rest[1..]
  }

  /** Reads back a joined list; the empty string stands for the empty list. */
  function SplitJoined(s: string): seq<string>
  {
    if s == "" then [] else Split(s)
  }

  /** A value that survives a join and a split unchanged. */
  predicate Plain(x: string)
  {
    x != "" && ',' !in x
  }

  predicate AllPlain(xs: seq<string>)
  {
    forall i :: 0 <= i < |xs| ==> Plain(xs[i])
  }

  lemma {:induction false} SplitNoComma(x: string)
    requires ',' !in x
    ensures Split(x) == [x]
    decreases |x|
  {
    if x != [] {
      SplitNoComma(x[1..]);
      assert [x[0]] + x[1..] == x;
    }
  }

  lemma {:induction false} SplitAfterValue(x: string, t: string)
    requires ',' !in x
    ensures Split(x + Separator + t) == [x] + Split(t)
    decreases |x|
  {
    var s := x + Separator + t;
    if x == [] {
      assert s == Separator + t;
      assert s[..2] == Separator;
      assert s[2..] == t;
    } else {
      assert s[0] == x[0];
      assert s[1..] == x[1..] + Separator + t;
      SplitAfterValue(x[1..], t);
      assert [x[0]] + x[1..] == x;
    }
  }

  /** Round trip: a joined list of plain values splits back into the list. */
  lemma {:induction false} SplitJoin(xs: seq<string>)
    requires AllPlain(xs)
    ensures SplitJoined(Join(xs)) == xs
    decreases |xs|
  {
    if |xs| == 1 {
      SplitNoComma(xs[0]);
    } else if |xs| > 1 {
      assert Plain(xs[0]) && Plain(xs[1]);
      SplitJoin(xs[1..]);
      SplitAfterValue(xs[0], Join(xs[1..]));
      assert Join(xs[1..]) != "";
    }
  }

  datatype CustomField = CustomField(key: string, value: Option<string>)

  datatype Payload = Payload(
    firstName: string,
    lastName: string,
    email: string,
    phone: string,
    customFields: seq<CustomField>,
    source: string,
    tags: seq<string>)

  const CustomFieldKeys: seq<string> := [
    "insurance_industry", "business_type", "insurance_lines", "improvements",
    "annual_revenue", "lead_generation_methods", "website"]

  const Source: string := "Intake Funnel"
  const Tags: seq<string> := ["intake-funnel", "new-lead"]

  const RevenueDefault: string := "Prefer not to answer"
  const LeadGenerationDefault: string := "None"
  const WebsiteDefault: string := "No website"

  /** JavaScript `||` on strings: the first operand when it is truthy. */
  function Or(a: string, b: string): (r: string)
    ensures r != "" <==> a != "" || b != ""
    ensures r == a || r == b
  {
    if a != "" then a else b
  }

  /** The payload literal of the submit handler. */
  function Build(fd: FormData): (p: Payload)
    ensures p.firstName == fd.firstName && p.lastName == fd.lastName
    ensures p.email == fd.email && p.phone == fd.phone
    ensures |p.customFields| == |CustomFieldKeys| == 7
    ensures forall i :: 0 <= i < 7 ==> p.customFields[i].key == CustomFieldKeys[i]
    ensures p.customFields[0].value == fd.insuranceIndustry
    ensures p.customFields[1].value == fd.businessType
    ensures p.customFields[2].value == Some(Join(fd.insuranceLines))
    ensures p.customFields[3].value == Some(Join(fd.improvements))
    ensures p.customFields[4].value == Some(if fd.annualRevenue == "" then RevenueDefault else fd.annualRevenue)
    ensures p.customFields[5].value == Some(if fd.leadGeneration == [] then LeadGenerationDefault else Join(fd.leadGeneration))
    ensures p.customFields[6].value == Some(if fd.website == "" then WebsiteDefault else fd.website)
    ensures p.source == "Intake Funnel" && p.tags == ["intake-funnel", "new-lead"]
  {
    Payload(
      fd.firstName, fd.lastName, fd.email, fd.phone,
      [ CustomField("insurance_industry", fd.insuranceIndustry),
        CustomField("business_type", fd.businessType),
        CustomField("insurance_lines", Some(Join(fd.insuranceLines))),
        CustomField("improvements", Some(Join(fd.improvements))),
        CustomField("annual_revenue", Some(Or(fd.annualRevenue, RevenueDefault))),
        CustomField("lead_generation_methods",
          Some(if |fd.leadGeneration| > 0 then Join(fd.leadGeneration) else LeadGenerationDefault)),
        CustomField("website", Some(Or(fd.website, WebsiteDefault)))
      ],
      Source, Tags)
  }

  /** The list answers can be read back from the payload: insurance lines and
      improvements by splitting, lead-generation methods by splitting unless
      the value is the "None" placeholder (which no plain list other than
      ["None"] joins to). */
  lemma ListAnswersRecoverable(fd: FormData)
    requires AllPlain(fd.insuranceLines) && AllPlain(fd.improvements) && AllPlain(fd.leadGeneration)
    requires fd.leadGeneration != [LeadGenerationDefault]
    ensures SplitJoined(Build(fd).customFields[2].value.value) == fd.insuranceLines
    ensures SplitJoined(Build(fd).customFields[3].value.value) == fd.improvements
    ensures var v := Build(fd).customFields[5].value.value;
            (if v == LeadGenerationDefault then [] else SplitJoined(v)) == fd.leadGeneration
  {
    SplitJoin(fd.insuranceLines);
    SplitJoin(fd.improvements);
    SplitJoin(fd.leadGeneration);
    if fd.leadGeneration != [] && Join(fd.leadGeneration) == LeadGenerationDefault {
      SplitNoComma(LeadGenerationDefault);
      assert false;
    }
  }

  /** Skipping a step leaves its answer in place, so what was typed before a
      skip is what the payload carries; an untouched optional answer gets its
      placeholder. */
  lemma UntouchedOptionalAnswers(fd: FormData)
    requires fd.annualRevenue == "" && fd.leadGeneration == [] && fd.website == ""
    ensures Build(fd).customFields[4].value == Some("Prefer not to answer")
    ensures Build(fd).customFields[5].value == Some("None")
    ensures Build(fd).customFields[6].value == Some("No website")
  {
  }
}
