/** The three-step application wizard: personal details, loan details with
    an external eligibility verdict, and the success screen. */
module Application {
  import opened Common

  // ---------------------------------------------------------------------
  // Values held by the form.

  /** A form field: the initial `amount` is a number, text inputs deliver
      strings, the terms checkbox delivers a boolean. */
  datatype FieldValue = Text(text: string) | Num(num: int) | Flag(flag: bool)

  /** A change event from one input: its `name`, its `type`, its `value`
      and its `checked` state. */
  datatype InputEvent = InputEvent(name: string, kind: string, value: string, checked: bool)

  /** The external eligibility verdict. */
  datatype Verdict = Verdict(eligible: bool, reasoning: string, recommendedAmount: Option<int>)

  /** The arguments of the eligibility query: amount, term in days, income. */
  datatype EligibilityQuery = EligibilityQuery(amount: int, termDays: int, income: int)

  /** The term sent with every eligibility query, whatever the offer said. */
  const AnalysisTermDays: int := 30
  /** The requested amount when no offer (or a zero one) was passed in. */
  const DefaultAmount: int := 5000
  /** The monthly income the form starts with. */
  const DefaultIncome: string := "25000"

  /** The keys of the form record. */
  const FormKeys: set<string> :=
    {"fullName", "idNumber", "phoneNumber", "income", "amount", "termsAccepted"}

  /** JavaScript truthiness of a field value. */
  predicate Truthy(v: FieldValue) {
    match v
    case Text(s) => s != ""
    case Num(n) => n != 0
    case Flag(b) => b
  }

  /** `initialOffer?.amount || 5000`. */
  function InitialAmount(initialOffer: Option<LoanOffer>): (n: int)
    ensures n != 0
    ensures initialOffer.Some? && initialOffer.value.amount != 0 ==> n == initialOffer.value.amount
    ensures initialOffer.None? || initialOffer.value.amount == 0 ==> n == DefaultAmount
  {
    match initialOffer
    case Some(o) => if o.amount != 0 then o.amount else DefaultAmount
    case None => DefaultAmount
  }

  /** The form record on entry to the page. */
  function InitialForm(initialOffer: Option<LoanOffer>): (f: map<string, FieldValue>)
    ensures f.Keys == FormKeys
    ensures f["fullName"] == f["idNumber"] == f["phoneNumber"] == Text("")
    ensures f["income"] == Text(DefaultIncome) && f["termsAccepted"] == Flag(false)
    ensures f["amount"] == Num(InitialAmount(initialOffer))
  {
    map[
      "fullName" := Text(""),
      "idNumber" := Text(""),
      "phoneNumber" := Text(""),
      "income" := Text(DefaultIncome),
      "amount" := Num(InitialAmount(initialOffer)),
      "termsAccepted" := Flag(false)]
  }

  /** What a change event writes into its field: the boolean `checked` for
      a checkbox, the raw string `value` for every other input. */
  function ChangedValue(e: InputEvent): FieldValue
  {
    if e.kind == "checkbox" then Flag(e.checked) else Text(e.value)
  }

  /** The inputs rendered, and not read-only, at a step, as (name, type):
      the identity inputs at step 1, the income, amount and terms inputs at
      step 2 (amount only when no offer was passed in), nothing at step 3. */
  predicate Editable(step: int, amountReadOnly: bool, name: string, kind: string) {
    (step == 1 && (name, kind) in {("fullName", "text"), ("idNumber", "number"), ("phoneNumber", "tel")}) ||
    (step == 2 && (name, kind) in {("income", "number"), ("termsAccepted", "checkbox")}) ||
    (step == 2 && !amountReadOnly && name == "amount" && kind == "number")
  }

  /** `Number(v)` of a field value; `toNumber` stands for JavaScript's
      string-to-number conversion, which this model does not define. */
  function ToNumber(v: FieldValue, toNumber: string -> int): int
  {
    match v
    case Text(s) => toNumber(s)
    case Num(n) => n
    case Flag(b) => if b then 1 else 0
  }

  // ---------------------------------------------------------------------
  // Decimal rendering of the recommended amount.

  /** The decimal digit for d. */
  function DigitChar(d: int): (c: char)
    requires 0 <= d < 10
    ensures '0' <= c <= '9' && (c as int) - ('0' as int) == d
  {
    ('0' as int + d) as char
  }

  /** The decimal digits of n, without leading zeros. */
  function NatToString(n: nat): (s: string)
    ensures |s| >= 1
    ensures forall i :: 0 <= i < |s| ==> '0' <= s[i] <= '9'
    ensures s[0] == '0' ==> n == 0 && s == "0"
    ensures n < 10 ==> s == [DigitChar(n)]
    decreases n
  {
    if n < 10 then [DigitChar(n)] else NatToString(n / 10) + [DigitChar(n % 10)]
  }

  /** How a JavaScript template literal renders an integer. */
  function IntToString(n: int): (s: string)
    ensures |s| >= 1
    ensures n < 0 <==> s[0] == '-'
    ensures n < 0 ==> s[1..] == NatToString(-n)
    ensures n >= 0 ==> s == NatToString(n)
  {
    if n < 0 then "-" + NatToString(-n) else NatToString(n)
  }

  /** The value of a string of decimal digits. */
  function DigitsValue(s: string): int
    requires forall i :: 0 <= i < |s| ==> '0' <= s[i] <= '9'
  {
    if s == [] then 0
    else 10 * DigitsValue(s[..|s| - 1]) + ((s[|s| - 1] as int) - ('0' as int))
  }

  /** Reading the digits back gives the number. */
  lemma {:induction false} NatToStringRoundTrip(n: nat)
    ensures DigitsValue(NatToString(n)) == n
    decreases n
  {
    var s := NatToString(n);
    if n >= 10 {
      NatToStringRoundTrip(n / 10);
      assert s[..|s| - 1] == NatToString(n / 10);
    }
  }

  /** Distinct integers are rendered as distinct strings. */
  lemma IntToStringInjective(m: int, n: int)
    requires IntToString(m) == IntToString(n)
    ensures m == n
  {
    if m < 0 {
      NatToStringInjective(-m, -n);
    } else {
      NatToStringInjective(m, n);
    }
  }

  /** Distinct naturals have distinct digit strings. */
  lemma NatToStringInjective(a: nat, b: nat)
    requires NatToString(a) == NatToString(b)
    ensures a == b
  {
    NatToStringRoundTrip(a);
    NatToStringRoundTrip(b);
  }

  /** `analysis.recommendedAmount || 0`: an absent amount reads as 0 (and
      a present 0 stays 0). */
  function RecommendedOrZero(v: Verdict): int
  {
    match v.recommendedAmount
    case Some(r) => r
    case None => 0
  }

  const DeclinePrefix: string := "Application declined: "
  const RecommendedInfix: string := ". Recommended: KES "

  /** The error shown when the verdict is negative: the fixed prefix, the
      verdict's reasoning, the fixed infix, and the recommended amount (0
      when absent) in decimal. */
  function DeclineMessage(v: Verdict): (m: string)
    ensures |m| == |DeclinePrefix| + |v.reasoning| + |RecommendedInfix| + |IntToString(RecommendedOrZero(v))|
    ensures m[..|DeclinePrefix|] == "Application declined: "
    ensures m[|DeclinePrefix|..|DeclinePrefix| + |v.reasoning|] == v.reasoning
    ensures m[|DeclinePrefix| + |v.reasoning|..|DeclinePrefix| + |v.reasoning| + |RecommendedInfix|] == ". Recommended: KES "
    ensures m[|m| - |IntToString(RecommendedOrZero(v))|..] == IntToString(RecommendedOrZero(v))
    ensures v.recommendedAmount.None? ==> m[|m| - 1..] == "0"
  {
    DeclinePrefix + v.reasoning + RecommendedInfix + IntToString(RecommendedOrZero(v))
  }

  /** Given the reasoning, the decline message determines the recommended
      amount it reports. */
  lemma DeclineMessageDeterminesAmount(v1: Verdict, v2: Verdict)
    requires v1.reasoning == v2.reasoning
    requires DeclineMessage(v1) == DeclineMessage(v2)
    ensures RecommendedOrZero(v1) == RecommendedOrZero(v2)
  {
    var head := DeclinePrefix + v1.reasoning + RecommendedInfix;
    var s1, s2 := IntToString(RecommendedOrZero(v1)), IntToString(RecommendedOrZero(v2));
    assert DeclineMessage(v1) == head + s1 && DeclineMessage(v2) == head + s2;
    assert s1 == (head + s1)[|head|..] && s2 == (head + s2)[|head|..];
    IntToStringInjective(RecommendedOrZero(v1), RecommendedOrZero(v2));
  }

  // ---------------------------------------------------------------------
  // When the browser lets the form submit.

  /** An input marked `required` passes the browser's check: a text or
      number input is non-empty, a checkbox is checked. */
  predicate Filled(v: FieldValue) {
    match v
    case Text(s) => s != ""
    case Num(_) => true
    case Flag(b) => b
  }

  /** The `required` inputs rendered at a step are all filled. A read-only
      input is exempt from the check. */
  predicate RequiredFilled(step: int, amountReadOnly: bool, f: map<string, FieldValue>)
    requires FormKeys <= f.Keys
  {
    (step == 1 ==>
      Filled(f["fullName"]) && Filled(f["idNumber"]) && Filled(f["phoneNumber"])) &&
    (step == 2 ==>
      Filled(f["income"]) && (amountReadOnly || Filled(f["amount"])) && Filled(f["termsAccepted"]))
  }

  // ---------------------------------------------------------------------
  // The page.

  /** The state of the application page. */
  class ApplyPage {
    /** The offer handed over by the calculator, if the page was reached
        from it. */
    const initialOffer: Option<LoanOffer>
    var step: int
    var loading: bool
    var error: string
    var formData: map<string, FieldValue>
    /** The number of eligibility analyses started and not yet resolved. */
    ghost var pending: nat
    /** Some analysis was started while the terms box was checked. */
    ghost var startedWithTerms: bool

    /** The page invariant. */
    ghost predicate Valid()
      reads this
    {
      1 <= step <= 3 &&
      formData.Keys == FormKeys &&
      (initialOffer.Some? ==> formData["amount"] == Num(InitialAmount(initialOffer))) &&
      (step >= 2 ==> RequiredFilled(1, initialOffer.Some?, formData)) &&
      (loading ==> pending > 0) &&
      (pending > 0 ==> step >= 2 && startedWithTerms) &&
      (step == 3 ==> startedWithTerms)
    }

    /** The page on entry, with the offer passed in (if any). */
    constructor (offer: Option<LoanOffer>)
      ensures Valid()
      ensures initialOffer == offer
      ensures step == 1 && !loading && error == ""
      ensures formData == InitialForm(offer)
      ensures forall k :: k in {"fullName", "idNumber", "phoneNumber"} ==> formData[k] == Text("")
      ensures formData["income"] == Text("25000") && formData["termsAccepted"] == Flag(false)
      ensures offer.Some? && offer.value.amount != 0 ==> formData["amount"] == Num(offer.value.amount)
      ensures offer.None? || offer.value.amount == 0 ==> formData["amount"] == Num(5000)
      ensures pending == 0 && !startedWithTerms
    {
      initialOffer := offer;
      step, loading, error := 1, false, "";
      formData := InitialForm(offer);
      pending, startedWithTerms := 0, false;
    }

    /** The amount input is read-only when an offer was passed in. */
    predicate AmountReadOnly()
      reads this
    {
      initialOffer.Some?
    }

    /** The submit button is disabled at step 2 while the terms are not
        accepted. */
    predicate SubmitDisabled()
      reads this
      ensures SubmitDisabled() ==> step == 2
      ensures step == 2 && "termsAccepted" in formData ==>
        (SubmitDisabled() <==> !Truthy(formData["termsAccepted"]))
    {
      step == 2 && !("termsAccepted" in formData && Truthy(formData["termsAccepted"]))
    }

    /** A submit event can occur: the form is rendered (steps 1 and 2), its
        required inputs are filled and the submit button is enabled. */
    predicate CanSubmit()
      reads this
    {
      step < 3 && FormKeys <= formData.Keys &&
      RequiredFilled(step, AmountReadOnly(), formData) && !SubmitDisabled()
    }

    /** `handleChange`: writes the event's value into the named field and
        leaves everything else as it was. Only inputs rendered at the
        current step, and not read-only, produce change events. */
    method HandleChange(e: InputEvent)
      requires Valid()
      requires Editable(step, AmountReadOnly(), e.name, e.kind)
      modifies this
      ensures Valid()
      ensures formData == old(formData)[e.name := ChangedValue(e)]
      ensures e.kind == "checkbox" ==> formData[e.name] == Flag(e.checked)
      ensures e.kind != "checkbox" ==> formData[e.name] == Text(e.value)
      ensures forall k :: k in formData && k != e.name ==> formData[k] == old(formData)[k]
      ensures step == old(step) && loading == old(loading) && error == old(error)
      ensures pending == old(pending) && startedWithTerms == old(startedWithTerms)
    {
      formData := formData[e.name := ChangedValue(e)];
    }

    /** The synchronous start of `handleAnalysis`: sets the busy flag,
        clears the error and returns the query it will issue, which always
        asks about a 30-day term. */
    method StartAnalysis(toNumber: string -> int) returns (query: EligibilityQuery)
      requires Valid() && step == 2 && Truthy(formData["termsAccepted"])
      modifies this
      ensures Valid()
      ensures loading && error == "" && step == 2 && formData == old(formData)
      ensures query.amount == ToNumber(formData["amount"], toNumber)
      ensures query.termDays == AnalysisTermDays
      ensures query.income == ToNumber(formData["income"], toNumber)
      ensures pending == old(pending) + 1 && startedWithTerms
    {
      loading := true;
      error := "";
      pending, startedWithTerms := pending + 1, true;
      query := EligibilityQuery(
        ToNumber(formData["amount"], toNumber),
        AnalysisTermDays,
        ToNumber(formData["income"], toNumber));
    }

    /** The rest of `handleAnalysis`, once the verdict arrives: clears the
        busy flag, then either moves to the success step or reports the
        decline. The verdict is not checked against the current step. */
    method ResolveAnalysis(verdict: Verdict)
      requires Valid() && pending > 0
      modifies this
      ensures Valid()
      ensures !loading && formData == old(formData) && pending == old(pending) - 1
      ensures startedWithTerms == old(startedWithTerms)
      ensures verdict.eligible ==> step == 3 && error == old(error)
      ensures !verdict.eligible ==> step == old(step) && error == DeclineMessage(verdict)
      ensures step == old(step) || step == old(step) + 1
    {
      pending := pending - 1;
      loading := false;
      if verdict.eligible {
        step := 3;
      } else {
        error := DeclineMessage(verdict);
      }
    }

    /** `handleSubmit`: step 1 moves to step 2 with no checks of its own;
        step 2 starts the eligibility analysis and returns its query. */
    method HandleSubmit(toNumber: string -> int) returns (query: Option<EligibilityQuery>)
      requires Valid() && CanSubmit()
      modifies this
      ensures Valid()
      ensures formData == old(formData)
      ensures old(step) == 1 ==>
        step == 2 && query == None && loading == old(loading) && error == old(error) &&
        pending == old(pending) && startedWithTerms == old(startedWithTerms)
      ensures old(step) == 2 ==>
        step == 2 && loading && error == "" && pending == old(pending) + 1 &&
        query == Some(EligibilityQuery(
          ToNumber(formData["amount"], toNumber),
          AnalysisTermDays,
          ToNumber(formData["income"], toNumber)))
    {
      if step == 1 {
        step := 2;
        query := None;
      } else {
        var q := StartAnalysis(toNumber);
        query := Some(q);
      }
    }
  }
}
