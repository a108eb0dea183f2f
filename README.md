# Shipping quotation demo: session state and email draft

A model of the logic under the single-page shipping-quote demo
(`streamlit_app.py`). The page walks one user through four phases that share
one session store with four slots: `request_data`, `request_id`,
`quote_options` and `selected_option`.

1. *Submit Request* stores the ten-field shipment request and its id.
2. *Generate Quote* is offered once a request is stored. It asks the
   (simulated) Priority1 rate service for quotes and stores the response's
   `quote_options`.
3. *Submit Selection* is offered once the stored quotes are non-empty. It
   stores one of their labels.
4. Once a selection is stored, the page looks up its price and shows a
   templated email draft.

Modules:

- `SessionState` (session.dfy): class `Session` with the four slots as
  `Option` fields, one method per button handler, the draft phase as the
  function `Draft` and the method `RenderDraft`, and two client walkthroughs.
  `Valid()` is the invariant every reachable session keeps. The request and
  its id are stored together. Quotes exist only for a stored request and are
  the three demo options. A selection is always a key of the stored quotes,
  so the price lookup of the draft phase never fails.
- `Requests` (requests.dfy): the form, the request dictionary as a sequence
  of (key, value) pairs in insertion order, and how a value is shown.
- `Quotes` (quotes.dfy): the constant response of `call_priority1_api` on
  both of its paths, and `response.get("quote_options", {})`.
- `Labels` (labels.dfy): `key.replace('_', ' ').capitalize()`.
- `EmailSummary` (email.dfy): `generate_email_summary`. It is a recursive
  specification (`Lines`, `Fill`, `GenerateEmailSummary`) plus the source's
  append loop as the method `BuildEmailSummary`, proved equal to it. The fixed
  paragraphs are kept in one `Template` value, `ShippingTemplate`. Its
  `closing` field is "Best regards,\nYour Shipping Team".
- `Decimal` (decimal.dfy): how the integer `boxes_number` is shown.
- `Wrappers` (wrappers.dfy): `Option`.

Parameters stand for the parts of the program that cannot be modelled.
The request id (`uuid4`) is an argument of `SubmitRequest`. Whether the
collaborator call raised is the `raised` argument of `GenerateQuote`. The
option picked on the radio is the argument of `SubmitSelection`.

## Model

| member | source | states |
|---|---|---|
| `SessionState.Session.Valid` | streamlit_app.py:55-149 | The session invariant. The request and its id are stored together. Quotes are stored only with a request and are the three demo options. A stored selection is a key of the stored quotes. Every handler keeps it, and the draft phase relies on it for the price lookup at line 149. |
| `SessionState.Session.CanGenerate` | streamlit_app.py:63 | Python truthiness of `request_data`: present and not the empty dictionary. It is the precondition of `GenerateQuote`. |
| `SessionState.Session.CanSelect` | streamlit_app.py:113 | Python truthiness of `quote_options`: present and not the empty dictionary. It is the precondition of `SubmitSelection`. |
| `SessionState.Session.DraftShown` | streamlit_app.py:127 | Python truthiness of `get("selected_option")`: present and not the empty string. `Draft` is `Some` exactly when it holds. |
| `SessionState.Session.constructor` | streamlit_app.py:11-18 | A new session has all four slots absent and satisfies the session invariant. |
| `SessionState.Session.SubmitRequest` | streamlit_app.py:40-56 | The request slot becomes the ten-entry dictionary built from the form and the id slot becomes the given id. `quote_options` and `selected_option` keep their old, possibly stale, values. The invariant is kept and *Generate Quote* becomes available. |
| `SessionState.Session.GenerateQuote` | streamlit_app.py:63-107 | Needs a stored, non-empty request. `quote_options` becomes the `quote_options` of the collaborator's response, which is exactly the three demo options and so is non-empty. No other slot changes. |
| `SessionState.Session.SubmitSelection` | streamlit_app.py:113-121 | Needs non-empty stored quotes and a label that is one of their keys. Only `selected_option` changes, and it becomes that label. |
| `SessionState.Session.Draft` | streamlit_app.py:127-150 | A draft exists exactly when the selected option is a non-empty string. Then the request is stored and the selected label is a key of the stored quotes, so the lookup is defined. The draft is the template filled with the current request, the label and its price, and it contains the bold label with that price verbatim. |
| `SessionState.Session.RenderDraft` | streamlit_app.py:147-150 | Running the lookup and the email loop gives exactly `Draft()`. |
| `SessionState.ExampleWalkthrough` | streamlit_app.py:40-150 | For an electronics shipment, submitting, generating and selecting "Express" gives a draft with the line "- Cargo type: electronics" and the text "Express** at a rate of $450". |
| `SessionState.ExampleDraft` | streamlit_app.py:128-145 | The draft for any electronics request with "Express" at "$450" contains both of those texts. |
| `SessionState.ExampleResubmission` | streamlit_app.py:40-56 | After a selection, submitting a second request stores the second request and the id "request-2", and keeps the stale quotes and the selection "Express". The draft shown next is built from the second request alone, with nothing left of the first. |
| `SessionState.CargoTypeLine` | streamlit_app.py:136 | The `cargo_type` entry with value "electronics" is rendered as the line "- Cargo type: electronics". |
| `Requests.WidgetBounds` | streamlit_app.py:27 | The box-count widget's lower bound of one. It is the precondition of `SubmitRequest` and of the walkthroughs. |
| `Requests.Render` | streamlit_app.py:136 | How the f-string shows a value: an integer as `str(i)`, a float as its already-rendered text, a string as itself. |
| `Requests.RequestDataOf` | streamlit_app.py:43-54 | The request's keys are the ten wire names in insertion order. Each value is taken from its form field: the box count as an integer, the four measures as their rendered float text, and the rest as text, including the unit option texts. |
| `Requests.RequestKeysDistinct` | streamlit_app.py:43-54 | No key is repeated, so each form field has exactly one entry. |
| `Requests.RequestDataOfInjective` | streamlit_app.py:43-55 | Two forms give the same request only if they agree on every field, so the stored request fully reflects the latest submission. |
| `Quotes.SimulatedResponse` | streamlit_app.py:87-94 | The normal-path response has the single key `quote_options`, mapping to Standard "$300", Express "$450", Overnight "$600". The three options are the constant `DemoQuotes`. |
| `Quotes.FallbackResponse` | streamlit_app.py:95-103 | The exception-path response is the same single-key dictionary with the same three options. |
| `Quotes.CallPriority1Api` | streamlit_app.py:69-103 | Whatever the request and whether or not the call raised, the response equals both the simulated and the fallback response. |
| `Quotes.QuoteOptionsOf` | streamlit_app.py:106 | Reading `quote_options` from a response gives its value when the key is present and the empty dictionary otherwise. |
| `Quotes.GeneratedQuotes` | streamlit_app.py:87-106 | The stored options are exactly the three demo options, with these three labels, so they are never empty after a generate. |
| `Labels.FormatLabel` | streamlit_app.py:136 | The label has the key's length. Every underscore becomes a space. A first character that is not an underscore is upper-cased, and every later character that is not an underscore is lower-cased. The two steps are the helpers `ReplaceUnderscores` (`replace('_', ' ')`) and `Capitalize` (`capitalize()`). |
| `Labels.FormatLabelShape` | streamlit_app.py:136 | A label holds no underscore, no upper-case ASCII letter after its first character, and no lower-case ASCII letter first. |
| `Labels.FormatLabelIdempotent` | streamlit_app.py:136 | Formatting a formatted label changes nothing. |
| `Labels.FormatLabelCargoType` | streamlit_app.py:136 | `cargo_type` becomes "Cargo type". |
| `Labels.FormatLabelWeightUnit` | streamlit_app.py:136 | `weightUnit` becomes "Weightunit". |
| `Decimal.NatToString` | streamlit_app.py:136 | A count is rendered as a non-empty run of decimal digits with no leading zero. |
| `Decimal.IntToString` | streamlit_app.py:136 | An integer is rendered with a leading minus sign exactly when it is negative. A non-negative integer is its decimal digits. A negative integer is "-" followed by the digits of its magnitude. |
| `Decimal.NatToStringRoundTrip` | streamlit_app.py:136 | Reading the rendered digits of a count back gives the count. |
| `Decimal.NatToStringInjective` | streamlit_app.py:136 | Distinct counts are rendered as distinct texts. |
| `EmailSummary.GenerateEmailSummary` | streamlit_app.py:128-145 | The draft is the shipping template (the constant `ShippingTemplate`, holding the fixed paragraphs of lines 129-131 and 138-144) filled with the request lines, the option and its price. It has no contract of its own. Its properties are the contracts of `EmailFrame`, `EmailListsEntry`, `EmailQuotesSelection` and `BuildEmailSummary`. |
| `EmailSummary.Lines` | streamlit_app.py:135-136 | There are no request lines exactly when the request has no entries. |
| `EmailSummary.EntryLine` | streamlit_app.py:136 | An entry's line is "- ", then the formatted label, then ": ", the shown value and a line break. Each piece sits at a fixed position in the line. Its length is the key's plus the shown value's plus five. |
| `EmailSummary.SelectionSentence` | streamlit_app.py:140 | The sentence is "**", the option, "** at a rate of ", the price and ".", with the option, the connecting text and the price at fixed positions. |
| `EmailSummary.Fill` | streamlit_app.py:129-144 | For any template, the draft starts with the header and ends with the closing. |
| `EmailSummary.EmailFrame` | streamlit_app.py:129-144 | The shipping draft starts with the subject, greeting and introduction, and ends with "Best regards,\nYour Shipping Team". |
| `EmailSummary.LinesAppend` | streamlit_app.py:135-136 | The lines of two consecutive runs of entries are the first run's lines followed by the second's. |
| `EmailSummary.LinesSnoc` | streamlit_app.py:135-136 | Appending one more entry appends exactly its line. |
| `EmailSummary.LinesAt` | streamlit_app.py:135-136 | Entry i's line comes after the lines of the entries before it and before the lines of the entries after it. |
| `EmailSummary.EmailListsEntry` | streamlit_app.py:129-145 | The draft is the header, then the lines of entries before i, then entry i's line "- <label>: <value>", then the rest, then the offer. Every entry's line occurs in the draft. |
| `EmailSummary.FillQuotesSelection` | streamlit_app.py:138-140 | For any template, the draft contains "**<option>** at a rate of <price>." verbatim. |
| `EmailSummary.FillListsLine` | streamlit_app.py:135-136 | For any template, a line that is part of the request lines occurs in the draft. |
| `EmailSummary.EmailQuotesSelection` | streamlit_app.py:140 | The shipping draft contains "**<option>** at a rate of <price>." verbatim. |
| `EmailSummary.QuotesRate` | streamlit_app.py:140 | A draft that quotes a selection contains "<option>** at a rate of <price>" as one run of text. |
| `EmailSummary.ContainsInside` | streamlit_app.py:140 | Proof helper for `QuotesRate`: a text that contains a passage also contains every piece of that passage. |
| `EmailSummary.BuildEmailSummary` | streamlit_app.py:128-145 | The append loop gives exactly the specified draft. So two calls with the same three inputs give identical text. |

## Left out

- Streamlit rendering and widgets (titles, headers, the form, inputs, radio, buttons, success and error notices, JSON view, text area) are UI and are not modelled. The widgets' lower bound of one box is the precondition `WidgetBounds` of `SubmitRequest`.
- The four measures are floats. Their f-string rendering is not modelled: they are kept as already-rendered text (`Value.Float`). The float lower bound of 0.0 therefore has no counterpart.
- `uuid.uuid4()` is randomness. The id is a parameter of `SubmitRequest`, so the uniqueness of ids is not modelled.
- The commented-out HTTP call to the rate service, its headers and the API-key setting are network I/O. Only the two constant responses are modelled. A live collaborator could return other options, and then the invariant `quoteOptions == DemoQuotes` would not hold.
- A response is modelled as a dictionary whose values are all option dictionaries. Non-dictionary JSON values under other keys are not represented.
- The display order of the quote options (the radio's order and its default first choice) is UI. Quote options are a `map`, and the chosen label is a method argument.
- Streamlit re-runs the whole script on every interaction. Each button press is modelled as one method call.
- Labels.FormatLabel: upper- and lower-casing cover ASCII letters only. Python's `capitalize` also changes the case of non-ASCII letters and title-cases the first character.
