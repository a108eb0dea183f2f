/**
 * `generate_email_summary`: the fixed-template draft shown in the last
 * phase. A header, one line per request entry in insertion order, and the
 * offer paragraph naming the selected option and its price, then the
 * closing.
 */
module EmailSummary {
  import opened Labels
  import opened Requests

  /** `pat` occurs somewhere in `text`, character for character. */
  predicate Contains(text: string, pat: string) {
    exists k {:trigger text[k..]} :: 0 <= k <= |text| - |pat| && text[k..][..|pat|] == pat
  }

  /** The fixed paragraphs of the draft, around the request lines and the quoted selection. */
  datatype Template = Template(header: string, offerIntro: string, contact: string, closing: string)

  /** The text of the shipping team's draft. */
  const ShippingTemplate: Template := Template(
    "Subject: Your Shipping Quote Proposal\n\n"
    + "Dear Valued Customer,\n\n"
    + "Thank you for your interest in our shipping services. We have received your request with the following details:\n\n",
    "\nBased on the details provided, we are pleased to offer you the following shipping option:\n",
    "\n\nIf you have any questions or need further assistance, please do not hesitate to contact us.\n\n",
    "Best regards,\n"
    + "Your Shipping Team")

  /** The bold option name and its rate, as the offer paragraph quotes them. */
  function SelectionSentence(option: string, quote: string): (s: string)
    ensures |s| == |option| + |quote| + 19
    ensures s[..2] == "**" && s[2..2 + |option|] == option
    ensures s[|s| - 1 - |quote|..|s| - 1] == quote && s[|s| - 1] == '.'
    ensures s[2 + |option|..18 + |option|] == "** at a rate of "
  {
    "**" + option + "** at a rate of " + quote + "."
  }

  /** `- <Label>: <value>` and a line break, for one request entry. */
  function EntryLine(key: string, value: Value): (line: string)
    ensures |line| == |key| + |Render(value)| + 5
    ensures line[..2] == "- " && line[2..2 + |key|] == FormatLabel(key)
    ensures line[2 + |key|..4 + |key|] == ": " && line[4 + |key|..|line| - 1] == Render(value)
    ensures line[|line| - 1] == '\n'
  {
    "- " + FormatLabel(key) + ": " + Render(value) + "\n"
  }

  /** The request lines, one per entry, in the order of the entries; none exactly when there are no entries. */
  function Lines(request: RequestData): (s: string)
    ensures s == "" <==> request == []
  {
    if request == [] then "" else EntryLine(request[0].0, request[0].1) + Lines(request[1..])
  }

  /** The draft a template gives for the request lines and the selection. */
  function Fill(t: Template, lines: string, option: string, quote: string): (email: string)
    ensures |t.header| <= |email| && email[..|t.header|] == t.header
    ensures |t.closing| <= |email| && email[|email| - |t.closing|..] == t.closing
  {
    t.header + lines + t.offerIntro + SelectionSentence(option, quote) + t.contact + t.closing
  }

  /** The draft for a request, the selected option and its price. */
  function GenerateEmailSummary(request: RequestData, option: string, quote: string): string {
    Fill(ShippingTemplate, Lines(request), option, quote)
  }

  /** The draft opens with the subject and greeting, and ends with the sign-off. */
  lemma EmailFrame(request: RequestData, option: string, quote: string)
    ensures var email := GenerateEmailSummary(request, option, quote);
      && |ShippingTemplate.header| <= |email| && email[..|ShippingTemplate.header|] == ShippingTemplate.header
      && |ShippingTemplate.closing| <= |email| && email[|email| - |ShippingTemplate.closing|..] == ShippingTemplate.closing
  {
  }

  /** The lines of two consecutive runs of entries are the two runs' lines, one after the other. */
  lemma {:induction false} LinesAppend(a: RequestData, b: RequestData)
    ensures Lines(a + b) == Lines(a) + Lines(b)
  {
    if a == [] {
      assert a + b == b;
    } else {
      assert (a + b)[1..] == a[1..] + b;
      LinesAppend(a[1..], b);
    }
  }

  /** Appending one entry appends its line. */
  lemma LinesSnoc(request: RequestData, entry: (string, Value))
    ensures Lines(request + [entry]) == Lines(request) + EntryLine(entry.0, entry.1)
  {
    LinesAppend(request, [entry]);
    assert [entry][1..] == [];
  }

  /** Proof step: regrouping a concatenation of three texts. */
  lemma AppendAssoc(a: string, b: string, c: string)
    ensures a + (b + c) == a + b + c
  {
  }

  /**
   * Insertion order: the lines of the entries before i, then the line of
   * entry i, then the lines of the entries after it.
   */
  lemma LinesAt(request: RequestData, i: nat)
    requires i < |request|
    ensures Lines(request) ==
      Lines(request[..i]) + EntryLine(request[i].0, request[i].1) + Lines(request[i + 1..])
  {
    var before, rest := request[..i], request[i..];
    assert before + rest == request;
    LinesAppend(before, rest);
    assert rest[0] == request[i] && rest[1..] == request[i + 1..];
    AppendAssoc(Lines(before), EntryLine(request[i].0, request[i].1), Lines(request[i + 1..]));
  }

  lemma ContainsSelf(p: string)
    ensures Contains(p, p)
  {
    assert p[0..][..|p|] == p;
  }

  lemma ContainsExtendLeft(a: string, b: string, p: string)
    requires Contains(b, p)
    ensures Contains(a + b, p)
  {
    var k :| 0 <= k <= |b| - |p| && b[k..][..|p|] == p;
    assert (a + b)[|a| + k..] == b[k..];
  }

  lemma ContainsExtendRight(a: string, b: string, p: string)
    requires Contains(a, p)
    ensures Contains(a + b, p)
  {
    var k :| 0 <= k <= |a| - |p| && a[k..][..|p|] == p;
    assert (a + b)[k..][..|p|] == a[k..][..|p|];
  }

  /** Whatever the template, the quoted selection appears in the draft verbatim. */
  lemma FillQuotesSelection(t: Template, lines: string, option: string, quote: string)
    ensures Contains(Fill(t, lines, option, quote), SelectionSentence(option, quote))
  {
    var s := SelectionSentence(option, quote);
    ContainsSelf(s);
    ContainsExtendLeft(t.header + lines + t.offerIntro, s, s);
    ContainsExtendRight(t.header + lines + t.offerIntro + s, t.contact, s);
    ContainsExtendRight(t.header + lines + t.offerIntro + s + t.contact, t.closing, s);
  }

  /** Whatever the template, every request line appears in the draft. */
  lemma FillListsLine(t: Template, before: string, line: string, after: string, option: string, quote: string)
    ensures Contains(Fill(t, before + line + after, option, quote), line)
  {
    var lines := before + line + after;
    ContainsSelf(line);
    ContainsExtendLeft(before, line, line);
    ContainsExtendRight(before + line, after, line);
    ContainsExtendLeft(t.header, lines, line);
    ContainsExtendRight(t.header + lines, t.offerIntro, line);
    ContainsExtendRight(t.header + lines + t.offerIntro, SelectionSentence(option, quote), line);
    ContainsExtendRight(t.header + lines + t.offerIntro + SelectionSentence(option, quote), t.contact, line);
    ContainsExtendRight(t.header + lines + t.offerIntro + SelectionSentence(option, quote) + t.contact, t.closing, line);
  }

  /** The email quotes the selected option in bold and its price verbatim. */
  lemma EmailQuotesSelection(request: RequestData, option: string, quote: string)
    ensures Contains(GenerateEmailSummary(request, option, quote), SelectionSentence(option, quote))
  {
    FillQuotesSelection(ShippingTemplate, Lines(request), option, quote);
  }

  /**
   * Every request entry has its own line in the email, after the lines of the
   * entries before it and before those of the entries after it.
   */
  lemma EmailListsEntry(request: RequestData, option: string, quote: string, i: nat)
    requires i < |request|
    ensures GenerateEmailSummary(request, option, quote) ==
      Fill(ShippingTemplate, Lines(request[..i]) + EntryLine(request[i].0, request[i].1) + Lines(request[i + 1..]), option, quote)
    ensures Contains(GenerateEmailSummary(request, option, quote), EntryLine(request[i].0, request[i].1))
  {
    LinesAt(request, i);
    FillListsLine(ShippingTemplate, Lines(request[..i]), EntryLine(request[i].0, request[i].1), Lines(request[i + 1..]), option, quote);
  }

  /** A text that contains `pat` contains every piece of `pat`. */
  lemma ContainsInside(text: string, pat: string, k: nat, piece: string)
    requires Contains(text, pat)
    requires k + |piece| <= |pat| && pat[k..][..|piece|] == piece
    ensures Contains(text, piece)
  {
    var j :| 0 <= j <= |text| - |pat| && text[j..][..|pat|] == pat;
    forall m | 0 <= m < |piece|
      ensures text[j + k..][..|piece|][m] == piece[m]
    {
      assert text[j + k..][..|piece|][m] == text[j..][..|pat|][k + m];
      assert pat[k..][..|piece|][m] == pat[k + m];
    }
    assert text[j + k..][..|piece|] == piece;
  }

  /** A draft that quotes a selection names the option and its rate in one run of text. */
  lemma QuotesRate(email: string, option: string, quote: string)
    requires Contains(email, SelectionSentence(option, quote))
    ensures Contains(email, option + "** at a rate of " + quote)
  {
    var s := SelectionSentence(option, quote);
    var piece := option + "** at a rate of " + quote;
    assert s == "**" + piece + ".";
    assert s[2..][..|piece|] == piece;
    ContainsInside(email, s, 2, piece);
  }

  /**
   * The loop of `generate_email_summary`: start from the header, append one
   * line per entry, then the offer paragraph and the closing.
   */
  method BuildEmailSummary(request: RequestData, option: string, quote: string) returns (email: string)
    ensures email == GenerateEmailSummary(request, option, quote)
  {
    var t := ShippingTemplate;
    email := t.header;
    assert request[..0] == [];
    for i := 0 to |request|
      invariant email == t.header + Lines(request[..i])
    {
      var line := EntryLine(request[i].0, request[i].1);
      LinesSnoc(request[..i], request[i]);
      assert request[..i + 1] == request[..i] + [request[i]];
      AppendAssoc(t.header, Lines(request[..i]), line);
      email := email + line;
    }
    assert request[..|request|] == request;
    email := email + t.offerIntro + SelectionSentence(option, quote) + t.contact + t.closing;
  }
}
