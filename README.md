# Quick-loan pricing and application wizard

This project models the two parts of the loan front end that hold state and
make decisions:

- **The quick-quote calculator** (`components/LoanCalculator.tsx`). Two sliders
  choose a principal (500 to 50,000 KES in steps of 500) and a term (7 to 60
  days). An effect turns them into a `LoanOffer`. The fee is a flat 5% of the
  principal, rounded on its own. The total adds the principal, 1% simple
  interest per day and the fee, then rounds that sum once with `Math.round`,
  which rounds halves up. The apply button hands the current offer to the
  application page.
- **The application wizard** (`pages/Apply.tsx`). It has three steps and holds
  `step`, `loading`, `error` and a `formData` record. `handleChange` writes one
  field. `handleSubmit` moves step 1 to step 2. At step 2 it starts the
  eligibility analysis. The analysis sets the busy flag and clears the error.
  When the verdict arrives, it either moves to step 3 or shows a decline
  message with a recommended amount.

Files:

- `common.dfy`: `Option` and the `LoanOffer` record.
- `pricing.dfy`: module `Pricing`.
  - `ExactOffer` is the reference definition. It is the calculator's
    formula over exact rationals, with `MathRound(x) = floor(x + 1/2)`.
  - `Price`, `Fee` and `Total` are integer formulas: fee `(5a + 50) / 100`
    and total `(a(105 + t) + 50) / 100`. Lemmas prove them equal to the
    reference.
  - Further lemmas prove bounds, monotonicity and exactness on the slider
    grid.
  - The interest is never rounded separately: the summary box shows
    `totalRepayment - amount - fees`.
  - The `Calculator` class holds the slider state.
- `application.dfy`: module `Application`, with the `ApplyPage` class and the
  decline-message rendering.
- `scenario.dfy`: a caller's walk from the calculator to the success step. It
  uses only the contracts.

Modelling choices:

- **The form record.** `formData` is a `map<string, FieldValue>`, so the
  handler's generic `{...prev, [name]: value}` update is modelled as written.
  A field holds a string from a text input, a number (the initial `amount`),
  or a boolean (the checkbox).
- **Number parsing.** JavaScript's `Number(...)` on form strings is a
  function parameter `toNumber`.
- **The await.** It is split in two. `StartAnalysis` is the synchronous part
  of `handleAnalysis` and returns the query it issues. `ResolveAnalysis(verdict)`
  is the continuation, and the external verdict is its argument.
- **Pending analyses.** A ghost counter `pending` counts analyses started and
  not yet resolved. Nothing in `pages/Apply.tsx` stops a second submit while
  one is pending; what `Button` does with `isLoading` is outside this model. So a second verdict can
  still arrive after step 3 was reached. A negative one then sets an error at
  step 3, just as the code does.
- **Browser rules as preconditions.** A browser fires events only in certain
  states, so those states are preconditions on the handlers:
  - A change event comes only from an input rendered at the current step. The
    amount input is not editable when an offer was passed in
    (`pages/Apply.tsx:154`).
  - A submit event happens only while the form is rendered (steps 1 and 2,
    line 91).
  - Every input marked `required` must be filled (lines 101, 113, 125, 142,
    153, 177). The read-only amount is exempt.
  - The button must be enabled: at step 2 the terms must be accepted (line
    194).
- **The terms box.** The box can be unchecked again while an analysis is
  pending. So the invariant the model proves is "step 3 is reached only
  through an analysis started with the terms accepted". It does not claim the
  box is still checked at step 3.
## Model

| member | source | states |
|---|---|---|
| `Pricing.Fee` | components/LoanCalculator.tsx:19-27 | the fee is the nearest whole shilling to 5% of the principal (halves up), rounded on its own; non-negative for a non-negative principal |
| `Pricing.Total` | components/LoanCalculator.tsx:18-26 | the total is the nearest whole shilling (halves up) to principal + 1%·principal·term + 5%·principal, rounded once over the exact sum |
| `Pricing.Price` | components/LoanCalculator.tsx:22-28 | the offer echoes amount and term, quotes a daily rate of 1 (percent), and carries the rounded fee and total |
| `Pricing.DisplayedInterest` | components/LoanCalculator.tsx:87 | the interest line `totalRepayment - amount - fees` of an offer priced from a non-negative principal and term is never negative |
| `Pricing.MathRound` | components/LoanCalculator.tsx:26-27 | `Math.round` gives the integer r with r - 1/2 <= x < r + 1/2 (halves round up) |
| `Pricing.RoundHundredthsIsMathRound` | components/LoanCalculator.tsx:26-27 | integer rounding `(n + 50) / 100` equals `Math.round(n / 100)` for every integer n, negative ones included |
| `Pricing.PriceIsExactOffer` | components/LoanCalculator.tsx:14-28 | the integer offer equals the calculator's exact formula for all integer inputs: fee is `Math.round(a * 0.05)`; total is `Math.round(a + a*0.01*t + a*0.05)`, rounded once over the sum; the offer echoes amount and term and quotes rate 1 |
| `Pricing.SliderPricesAreExact` | components/LoanCalculator.tsx:18-20 | at every slider position (amount a multiple of 500 in [500, 50000], term in [7, 60]) fee = a/20 and interest = a*t/100 are whole, total = a + fee + interest, and rounding changes nothing |
| `Pricing.DisplayedInterestNonNegative` | components/LoanCalculator.tsx:87 | for a, t >= 0 the displayed interest `totalRepayment - amount - fees` is non-negative, so total >= amount + fee >= amount |
| `Pricing.TotalMonotoneInAmount` | components/LoanCalculator.tsx:18-20 | for a non-negative term the total never decreases as the principal grows |
| `Pricing.TotalMonotoneInTerm` | components/LoanCalculator.tsx:18-20 | for a non-negative principal the total never decreases as the term grows |
| `Pricing.RoundedOnceNotPerPart` | components/LoanCalculator.tsx:20-27 | rounding the sum once is not the same as rounding the fee and the interest separately: some inputs (off the slider grid) make the two differ |
| `Pricing.Calculator.constructor` | components/LoanCalculator.tsx:9-11 | first render: amount 5000, term 30, no offer yet; both sliders in range |
| `Pricing.Calculator.RecomputeOffer` | components/LoanCalculator.tsx:17-29 | the effect sets the offer to the price of the current amount and term and changes nothing else; running it again with the same inputs leaves the offer as it was |
| `Pricing.Calculator.SetAmount` | components/LoanCalculator.tsx:46-54 | moving the amount slider to v sets the amount to v, keeps the term, and the re-derived offer is the price of (v, term) |
| `Pricing.Calculator.SetTerm` | components/LoanCalculator.tsx:67-74 | moving the term slider to v sets the term to v, keeps the amount, and the re-derived offer is the price of (amount, v) |
| `Pricing.Calculator.Apply` | components/LoanCalculator.tsx:101-102 | the apply button hands on exactly the current offer (the price of the current inputs), and nothing while the offer is null |
| `Application.InitialAmount` | pages/Apply.tsx:22 | the logical-or fallback on the offer amount: the passed offer's amount when an offer is present and its amount is non-zero, otherwise 5000; never zero |
| `Application.InitialForm` | pages/Apply.tsx:17-24 | the form starts with exactly the six keys: empty name, ID and phone, income "25000", terms unaccepted, amount as above |
| `Application.ApplyPage.SubmitDisabled` | pages/Apply.tsx:194 | the button is disabled only at step 2, and there exactly when the terms field is falsy |
| `Application.IntToString` | pages/Apply.tsx:53 | an integer renders as its decimal digits, with a leading "-" exactly when it is negative |
| `Application.DeclineMessage` | pages/Apply.tsx:53 | the message is "Application declined: ", then the reasoning, then ". Recommended: KES ", then the recommended amount in decimal; an absent amount ends the message in "0" |
| `Application.ApplyPage.constructor` | pages/Apply.tsx:12-24 | initial state: step 1, not loading, no error, empty identity fields, income "25000", terms unaccepted; amount is the passed offer's amount when present and non-zero, otherwise 5000 |
| `Application.ApplyPage.HandleChange` | pages/Apply.tsx:26-32 | the named field becomes the boolean `checked` for a checkbox and the raw string value otherwise; every other field, the step, the busy flag and the error are unchanged; a read-only amount cannot change |
| `Application.ApplyPage.StartAnalysis` | pages/Apply.tsx:34-46 | sets loading, clears the error, keeps step 2 and the form, and issues the query (Number(amount), 30, Number(income)) |
| `Application.ApplyPage.ResolveAnalysis` | pages/Apply.tsx:48-54 | clears loading; an eligible verdict moves to step 3 and leaves the error; otherwise the step stays and the error is "Application declined: " + reasoning + ". Recommended: KES " + (recommended amount, or 0 if absent); the step moves forward by at most one |
| `Application.ApplyPage.HandleSubmit` | pages/Apply.tsx:57-64 | step 1 moves to step 2 with no field checks and nothing else changed; step 2 starts the analysis as above and returns its query; submitting needs the rendered form, its required inputs filled and, at step 2, the terms accepted; the invariant keeps step in {1, 2, 3} and step 3 reachable only through an analysis started with the terms accepted |
| `Application.NatToString` | pages/Apply.tsx:53 | the rendering of a non-negative amount is a non-empty string of decimal digits with no leading zero; 0 renders as exactly "0" and a single digit as itself |
| `Application.NatToStringRoundTrip` | pages/Apply.tsx:53 | reading the rendered digits back gives the amount |
| `Application.IntToStringInjective` | pages/Apply.tsx:53 | distinct recommended amounts render as distinct strings |
| `Application.DeclineMessageDeterminesAmount` | pages/Apply.tsx:53 | for the same reasoning, equal decline messages report the same recommended amount |

## Left out

- Floating point: amounts are exact integers and rationals. JavaScript's
  binary rounding error in `amount * 0.01 * term` is not modelled, and
  neither is the non-integer `recommendedAmount` a verdict may carry.
- `Number(...)` parsing of form strings, NaN included: it is a function
  parameter the model does not define.
- `toLocaleString` formatting and the progress-bar width `step / 3 * 100`:
  display only.
- Exponent notation for numbers of 10^21 and above in template literals.
  `IntToString` always writes plain decimal digits.
- The one-second delay before the query, and the timing of React renders. The
  calculator's setters run the re-pricing effect straight after the state
  change.
- Duplicate-submit suppression: the `Button` component is not part of this
  model, so a second submit while loading is allowed and counted in
  `pending`.
- The eligibility service's prompt, its JSON parsing and its fallback
  verdict. The verdict is an arbitrary argument of `ResolveAnalysis`.
- The ID-upload input: it is inert.
- Navigation to the dashboard, session storage, the login, dashboard and
  static pages: they are not part of this model.
- Identity, age, PIN and transaction-code validators, credit-limit
  assignment and payment verification: the code has none of them.
