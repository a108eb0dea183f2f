/**
 * The four session slots and the three button handlers that write them,
 * with the draft phase that reads them. Each button press is one method
 * call; the Streamlit re-run that follows it is not modelled.
 */
module SessionState {
  import opened Wrappers
  import opened Requests
  import opened Quotes
  import opened EmailSummary

  class Session {
    var requestData: Option<RequestData>
    var requestId: Option<string>
    var quoteOptions: Option<QuoteOptions>
    var selectedOption: Option<string>

    /**
     * What every reachable session satisfies: the request and its id are
     * written together; quotes exist only for a stored request and are the
     * three demo options; a selection is always a key of the stored quotes.
     */
    ghost predicate Valid()
      reads this
    {
      && (requestData.Some? <==> requestId.Some?)
      && (quoteOptions.Some? ==> requestData.Some? && quoteOptions.value == DemoQuotes)
      && (selectedOption.Some? ==> quoteOptions.Some? && selectedOption.value in quoteOptions.value)
    }

    /** A new session: all four slots absent. */
    constructor ()
      ensures Valid()
      ensures requestData == None && requestId == None
      ensures quoteOptions == None && selectedOption == None
    {
      requestData := None;
      requestId := None;
      quoteOptions := None;
      selectedOption := None;
    }

    /** The "Generate Quote" button is shown: a request dictionary is stored and is not empty. */
    predicate CanGenerate()
      reads this
    {
      requestData.Some? && requestData.value != []
    }

    /** The "Submit Selection" button is shown: the stored quote options are not empty. */
    predicate CanSelect()
      reads this
    {
      quoteOptions.Some? && quoteOptions.value != map[]
    }

    /** The draft phase is shown: the selected option is a non-empty string. */
    predicate DraftShown()
      reads this
    {
      selectedOption.Some? && selectedOption.value != ""
    }

    /**
     * "Submit Request": stores the form as the request dictionary and the
     * given id (the source draws it from `uuid4`). The quotes and the
     * selection of an earlier request are kept as they are.
     */
    method SubmitRequest(form: ShipmentForm, id: string)
      requires Valid()
      requires WidgetBounds(form)
      modifies this
      ensures Valid()
      ensures requestData == Some(RequestDataOf(form)) && requestId == Some(id)
      ensures quoteOptions == old(quoteOptions) && selectedOption == old(selectedOption)
      ensures CanGenerate()
    {
      requestData := Some(RequestDataOf(form));
      requestId := Some(id);
    }

    /**
     * "Generate Quote": asks the collaborator for quotes for the stored
     * request and stores its `quote_options`, or an empty dictionary when
     * the response has none. `raised` says whether the call raised.
     */
    method GenerateQuote(raised: bool)
      requires Valid()
      requires CanGenerate()
      modifies this
      ensures Valid()
      ensures quoteOptions == Some(QuoteOptionsOf(CallPriority1Api(old(requestData).value, raised)))
      ensures quoteOptions == Some(DemoQuotes) && CanSelect()
      ensures requestData == old(requestData) && requestId == old(requestId)
      ensures selectedOption == old(selectedOption)
    {
      GeneratedQuotes(requestData.value, raised);
      var response := CallPriority1Api(requestData.value, raised);
      quoteOptions := Some(QuoteOptionsOf(response));
    }

    /** "Submit Selection": stores the option chosen on the radio, one of the stored keys. */
    method SubmitSelection(selected: string)
      requires Valid()
      requires CanSelect()
      requires selected in quoteOptions.value
      modifies this
      ensures Valid()
      ensures selectedOption == Some(selected)
      ensures requestData == old(requestData) && requestId == old(requestId)
      ensures quoteOptions == old(quoteOptions)
    {
      selectedOption := Some(selected);
    }

    /**
     * The draft the last phase shows, if it is shown. In a valid session the
     * lookup of the selected option's price always succeeds.
     */
    function Draft(): (d: Option<string>)
      reads this
      requires Valid()
      ensures d.Some? <==> DraftShown()
      ensures d.Some? ==> requestData.Some? && selectedOption.value in quoteOptions.value
      ensures d.Some? ==> d.value == GenerateEmailSummary(requestData.value, selectedOption.value, quoteOptions.value[selectedOption.value])
      ensures d.Some? ==> Contains(d.value, SelectionSentence(selectedOption.value, quoteOptions.value[selectedOption.value]))
    {
      if DraftShown() then
        var option := selectedOption.value;
        EmailQuotesSelection(requestData.value, option, quoteOptions.value[option]);
        Some(GenerateEmailSummary(requestData.value, option, quoteOptions.value[option]))
      else
        None
    }

    /** The draft phase: looks up the price and runs the email loop. */
    method RenderDraft() returns (d: Option<string>)
      requires Valid()
      ensures d == Draft()
    {
      if DraftShown() {
        var option := selectedOption.value;
        var quoteValue := quoteOptions.value[option];
        var email := BuildEmailSummary(requestData.value, option, quoteValue);
        d := Some(email);
      } else {
        d := None;
      }
    }
  }

  /**
   * One pass through the four phases for a shipment of electronics,
   * choosing "Express".
   */
  method ExampleWalkthrough(form: ShipmentForm) returns (email: string)
    requires WidgetBounds(form) && form.cargoType == "electronics"
    ensures Contains(email, "- Cargo type: electronics\n")
    ensures Contains(email, "Express** at a rate of $450")
  {
    var s := new Session();
    s.SubmitRequest(form, "request-1");
    s.GenerateQuote(false);
    assert "Express" in DemoQuotes;
    s.SubmitSelection("Express");
    var d := s.RenderDraft();
    email := d.value;
    ExampleDraft(form, email);
  }

  /** The draft for an electronics shipment sent Express names the cargo and quotes the rate. */
  lemma ExampleDraft(form: ShipmentForm, email: string)
    requires form.cargoType == "electronics"
    requires email == GenerateEmailSummary(RequestDataOf(form), "Express", "$450")
    ensures Contains(email, "- Cargo type: electronics\n")
    ensures Contains(email, "Express** at a rate of $450")
  {
    var request := RequestDataOf(form);
    assert request[5] == ("cargo_type", Str("electronics"));
    EmailListsEntry(request, "Express", "$450", 5);
    CargoTypeLine();
    EmailQuotesSelection(request, "Express", "$450");
    QuotesRate(email, "Express", "$450");
    ExpressRateText();
  }

  /**
   * A second request keeps the earlier selection and its quotes, and the
   * draft is then built from the second request alone.
   */
  method ExampleResubmission(first: ShipmentForm, second: ShipmentForm) returns (s: Session, d: Option<string>)
    requires WidgetBounds(first) && WidgetBounds(second)
    ensures s.requestData == Some(RequestDataOf(second)) && s.requestId == Some("request-2")
    ensures s.quoteOptions == Some(DemoQuotes) && s.selectedOption == Some("Express")
    ensures d == Some(GenerateEmailSummary(RequestDataOf(second), "Express", "$450"))
  {
    s := new Session();
    s.SubmitRequest(first, "request-1");
    s.GenerateQuote(false);
    assert "Express" in DemoQuotes;
    s.SubmitSelection("Express");
    s.SubmitRequest(second, "request-2");
    d := s.RenderDraft();
  }

  /** Proof step: the pieces of the Express rate sentence, joined. */
  lemma ExpressRateText()
    ensures "Express" + "** at a rate of " + "$450" == "Express** at a rate of $450"
  {
  }

  /** The line the example's cargo type gets. */
  lemma CargoTypeLine()
    ensures EntryLine("cargo_type", Str("electronics")) == "- Cargo type: electronics\n"
  {
    Labels.FormatLabelCargoType();
  }
}
