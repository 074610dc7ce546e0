/** A caller's walk through the flow, from the calculator on the home page
    to the success step, using the contracts alone. */
module Scenario {
  import opened Common
  import opened Pricing
  import opened Application

  /** Moving the sliders to 10,000 over 14 days and pressing apply. */
  method Quote() returns (handed: Option<LoanOffer>)
  {
    var widget := new Calculator();
    handed := widget.Apply();
    assert handed == None;
    widget.RecomputeOffer();
    widget.SetAmount(10000);
    widget.SetTerm(14);
    handed := widget.Apply();
    SliderPricesAreExact(10000, 14);
    assert handed == Some(LoanOffer(10000, 14, 1, 11900, 500));
  }

  /** Filling in the identity step for that offer and moving on. */
  method FillInIdentity(toNumber: string -> int) returns (page: ApplyPage)
    ensures fresh(page) && page.Valid() && page.step == 2 && page.AmountReadOnly()
    ensures page.formData["amount"] == Num(10000) && page.formData["income"] == Text("25000")
  {
    page := new ApplyPage(Some(LoanOffer(10000, 14, 1, 11900, 500)));
    assert page.formData["amount"] == Num(10000);
    page.HandleChange(InputEvent("fullName", "text", "Juma Kamau", false));
    page.HandleChange(InputEvent("idNumber", "number", "12345678", false));
    page.HandleChange(InputEvent("phoneNumber", "tel", "0712345678", false));
    var q := page.HandleSubmit(toNumber);
    assert q == None;
  }

  /** Accepting the terms and submitting twice: one decline, then approval. */
  method SubmitLoanDetails(toNumber: string -> int)
  {
    var page := FillInIdentity(toNumber);
    page.HandleChange(InputEvent("termsAccepted", "checkbox", "on", true));
    var q := page.HandleSubmit(toNumber);
    assert q == Some(EligibilityQuery(10000, 30, toNumber("25000")));

    page.ResolveAnalysis(Verdict(false, "Income too low", Some(7500)));
    assert page.step == 2 && !page.loading;
    assert page.error == DeclineMessage(Verdict(false, "Income too low", Some(7500)));

    q := page.HandleSubmit(toNumber);
    page.ResolveAnalysis(Verdict(true, "Within limits", None));
    assert page.step == 3 && page.error == "";
  }
}
