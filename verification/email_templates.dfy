/**
 * The shape of the three HTML email templates of the notification service:
 * where their placeholders sit, the fixed replace chains that fill them,
 * and the layout each chain produces.
 *
 * The literal HTML between the placeholders is kept abstract here (a
 * SubmissionText or DocumentText record); module EmailText supplies the
 * text of the source's templates.
 */
module EmailTemplates {
  import opened JavaString
  import opened Template

  const CompanyName: string := "Loan Company"
  const CurrencySymbol: string := "$"

  /** The literal text of the submission template, between its placeholders. */
  datatype SubmissionText = SubmissionText(
    intro: string,          // before ${applicantName}
    beforeLoanId: string,   // between ${applicantName} and ${loanId}
    beforeAmount: string,   // between ${loanId} and ${currencySymbol}${amount}
    beforeYear: string,     // between ${amount} and ${year}
    footer: string)         // after ${companyName}
  {
    /** No '{' in the literal text. */
    predicate Plain()
    {
      NoBrace(intro) && NoBrace(beforeLoanId) && NoBrace(beforeAmount) && NoBrace(beforeYear) && NoBrace(footer)
    }
  }

  /** The literal text of a document-verification template, between its placeholders. */
  datatype DocumentText = DocumentText(
    heading: string,        // before ${loanId}
    beforeContent: string,  // between ${loanId} and ${htmlContent}
    afterContent: string,   // between ${htmlContent} and ${year}
    footer: string)         // after ${companyName}
  {
    predicate Plain()
    {
      NoBrace(heading) && NoBrace(beforeContent) && NoBrace(afterContent) && NoBrace(footer)
    }
  }

  /** The submission template: ... ${applicantName} ... ${loanId} ... ${currencySymbol}${amount} ... ${year} ${companyName} ... */
  function SubmissionPieces(t: SubmissionText): seq<Piece>
  {
    [ Text(t.intro), Hole("applicantName"),
      Text(t.beforeLoanId), Hole("loanId"),
      Text(t.beforeAmount), Hole("currencySymbol"), Hole("amount"),
      Text(t.beforeYear), Hole("year"), Text(" "), Hole("companyName"),
      Text(t.footer) ]
  }

  /** A document template: ... ${loanId} ... ${htmlContent} ... ${year} ${companyName} ... */
  function DocumentPieces(t: DocumentText): seq<Piece>
  {
    [ Text(t.heading), Hole("loanId"),
      Text(t.beforeContent), Hole("htmlContent"),
      Text(t.afterContent), Hole("year"), Text(" "), Hole("companyName"),
      Text(t.footer) ]
  }

  /** The replace chain of the submission handler, in the source's order. */
  function SubmissionFields(applicantName: string, loanId: string, amount: string, year: string): seq<(string, string)>
  {
    [ ("applicantName", applicantName), ("loanId", loanId), ("currencySymbol", CurrencySymbol),
      ("amount", amount), ("year", year), ("companyName", CompanyName) ]
  }

  /** The replace chain of both document handlers, in the source's order. */
  function DocumentFields(loanId: string, htmlContent: string, year: string): seq<(string, string)>
  {
    [ ("loanId", loanId), ("htmlContent", htmlContent), ("year", year), ("companyName", CompanyName) ]
  }

  /** The submission email body: the template text after the handler's chain of replace calls. */
  function SubmissionBody(t: SubmissionText, applicantName: string, loanId: string, amount: string, year: string): string
  {
    ReplaceChain(Flatten(SubmissionPieces(t)), SubmissionFields(applicantName, loanId, amount, year))
  }

  /** A document email body: the template text after the handler's chain of replace calls. */
  function DocumentBody(t: DocumentText, loanId: string, htmlContent: string, year: string): string
  {
    ReplaceChain(Flatten(DocumentPieces(t)), DocumentFields(loanId, htmlContent, year))
  }

  /**
   * The submission email as laid out by its template, every field in its
   * place (grouped to the right, as rendering produces it).
   */
  function SubmissionLayout(t: SubmissionText, applicantName: string, loanId: string, amount: string, year: string): string
  {
    t.intro + (applicantName + (t.beforeLoanId + (loanId + (t.beforeAmount
      + (CurrencySymbol + (amount + (t.beforeYear + (year + (" " + (CompanyName + t.footer))))))))))
  }

  /** A document email as laid out by its template, every field in its place. */
  function DocumentLayout(t: DocumentText, loanId: string, htmlContent: string, year: string): string
  {
    t.heading + (loanId + (t.beforeContent + (htmlContent + (t.afterContent + (year + (" " + (CompanyName + t.footer)))))))
  }

  lemma SubmissionWellFormed(t: SubmissionText)
    requires t.Plain()
    ensures WellFormed(SubmissionPieces(t))
  {
    ChainConstantsPlain();
  }

  lemma DocumentWellFormed(t: DocumentText)
    requires t.Plain()
    ensures WellFormed(DocumentPieces(t))
  {
    ChainConstantsPlain();
  }

  /** Every placeholder of the submission template has a field, and rendering puts each in its place. */
  lemma SubmissionRender(t: SubmissionText, applicantName: string, loanId: string, amount: string, year: string)
    ensures Render(SubmissionPieces(t), FieldMap(SubmissionFields(applicantName, loanId, amount, year)))
      == SubmissionLayout(t, applicantName, loanId, amount, year)
  {
    var fs := SubmissionFields(applicantName, loanId, amount, year);
    var f := FieldMap(fs);
    FieldMapLookup(fs, 0); FieldMapLookup(fs, 1); FieldMapLookup(fs, 2);
    FieldMapLookup(fs, 3); FieldMapLookup(fs, 4); FieldMapLookup(fs, 5);
    var p11 := [Text(t.footer)];
    var p10 := [Hole("companyName")] + p11;
    var p9 := [Text(" ")] + p10;
    var p8 := [Hole("year")] + p9;
    var p7 := [Text(t.beforeYear)] + p8;
    var p6 := [Hole("amount")] + p7;
    var p5 := [Hole("currencySymbol")] + p6;
    var p4 := [Text(t.beforeAmount)] + p5;
    var p3 := [Hole("loanId")] + p4;
    var p2 := [Text(t.beforeLoanId)] + p3;
    var p1 := [Hole("applicantName")] + p2;
    assert SubmissionPieces(t) == [Text(t.intro)] + p1;
    RenderTextThen(t.intro, p1, f);
    RenderHoleThen("applicantName", p2, f);
    RenderTextThen(t.beforeLoanId, p3, f);
    RenderHoleThen("loanId", p4, f);
    RenderTextThen(t.beforeAmount, p5, f);
    RenderHoleThen("currencySymbol", p6, f);
    RenderHoleThen("amount", p7, f);
    RenderTextThen(t.beforeYear, p8, f);
    RenderHoleThen("year", p9, f);
    RenderTextThen(" ", p10, f);
    RenderHoleThen("companyName", p11, f);
    RenderLast(t.footer, f);
  }

  /** Every placeholder of a document template has a field, and rendering puts each in its place. */
  lemma DocumentRender(t: DocumentText, loanId: string, htmlContent: string, year: string)
    ensures Render(DocumentPieces(t), FieldMap(DocumentFields(loanId, htmlContent, year)))
      == DocumentLayout(t, loanId, htmlContent, year)
  {
    var fs := DocumentFields(loanId, htmlContent, year);
    var f := FieldMap(fs);
    FieldMapLookup(fs, 0); FieldMapLookup(fs, 1); FieldMapLookup(fs, 2); FieldMapLookup(fs, 3);
    var p8 := [Text(t.footer)];
    var p7 := [Hole("companyName")] + p8;
    var p6 := [Text(" ")] + p7;
    var p5 := [Hole("year")] + p6;
    var p4 := [Text(t.afterContent)] + p5;
    var p3 := [Hole("htmlContent")] + p4;
    var p2 := [Text(t.beforeContent)] + p3;
    var p1 := [Hole("loanId")] + p2;
    assert DocumentPieces(t) == [Text(t.heading)] + p1;
    RenderTextThen(t.heading, p1, f);
    RenderHoleThen("loanId", p2, f);
    RenderTextThen(t.beforeContent, p3, f);
    RenderHoleThen("htmlContent", p4, f);
    RenderTextThen(t.afterContent, p5, f);
    RenderHoleThen("year", p6, f);
    RenderTextThen(" ", p7, f);
    RenderHoleThen("companyName", p8, f);
    RenderLast(t.footer, f);
  }

  /** The placeholder names of the chains hold no brace, nor do the two fixed values. */
  lemma ChainConstantsPlain()
    ensures ValidName("applicantName") && ValidName("loanId") && ValidName("currencySymbol")
    ensures ValidName("amount") && ValidName("year") && ValidName("companyName") && ValidName("htmlContent")
    ensures NoBrace(CurrencySymbol) && NoBrace(CompanyName)
  {
  }

  lemma SubmissionFieldsPlain(applicantName: string, loanId: string, amount: string, year: string)
    requires NoBrace(applicantName) && NoBrace(loanId) && NoBrace(amount) && NoBrace(year)
    ensures PlainFields(SubmissionFields(applicantName, loanId, amount, year))
  {
    ChainConstantsPlain();
  }

  lemma DocumentFieldsPlain(loanId: string, htmlContent: string, year: string)
    requires NoBrace(loanId) && NoBrace(htmlContent) && NoBrace(year)
    ensures PlainFields(DocumentFields(loanId, htmlContent, year))
  {
    ChainConstantsPlain();
  }

  /**
   * The submission handler's replace chain lays the email out as its
   * template says, provided no field value holds a '{'.
   */
  lemma SubmissionFill(t: SubmissionText, applicantName: string, loanId: string, amount: string, year: string)
    requires t.Plain()
    requires NoBrace(applicantName) && NoBrace(loanId) && NoBrace(amount) && NoBrace(year)
    ensures SubmissionBody(t, applicantName, loanId, amount, year)
      == SubmissionLayout(t, applicantName, loanId, amount, year)
  {
    SubmissionWellFormed(t);
    var fs := SubmissionFields(applicantName, loanId, amount, year);
    SubmissionFieldsPlain(applicantName, loanId, amount, year);
    ChainRenders(SubmissionPieces(t), fs);
    SubmissionRender(t, applicantName, loanId, amount, year);
  }

  /**
   * A document handler's replace chain lays the email out as its template
   * says, provided no field value holds a '{'.
   */
  lemma DocumentFill(t: DocumentText, loanId: string, htmlContent: string, year: string)
    requires t.Plain()
    requires NoBrace(loanId) && NoBrace(htmlContent) && NoBrace(year)
    ensures DocumentBody(t, loanId, htmlContent, year)
      == DocumentLayout(t, loanId, htmlContent, year)
  {
    DocumentWellFormed(t);
    var fs := DocumentFields(loanId, htmlContent, year);
    DocumentFieldsPlain(loanId, htmlContent, year);
    ChainRenders(DocumentPieces(t), fs);
    DocumentRender(t, loanId, htmlContent, year);
  }

  /**
   * The chain is not a simultaneous substitution: ${htmlContent} is filled
   * before ${year}, so a "${year}" inside the rendered Markdown is replaced
   * by the year as well, wherever it stands in the content.
   */
  lemma DocumentFillRescansContent(t: DocumentText, loanId: string, before: string, after: string, year: string)
    requires t.Plain()
    requires NoBrace(loanId) && NoBrace(before) && NoBrace(after) && NoBrace(year)
    ensures DocumentBody(t, loanId, before + Key("year") + after, year)
         == DocumentLayout(t, loanId, before + year + after, year)
  {
    var ps := DocumentPieces(t);
    var vs := [Text(before), Hole("year"), Text(after)];
    var content := before + Key("year") + after;
    var filled := before + year + after;
    var rest := [("year", year), ("companyName", CompanyName)];
    ChainConstantsPlain();
    DocumentWellFormed(t);
    LastFieldsPlain(loanId, filled, year);
    var f := FieldMap(rest);
    TextAround(before, "year", after, f);
    assert WellFormed(vs) by { assert PieceOk(vs[0]) && PieceOk(vs[1]) && PieceOk(vs[2]); }
    assert DocumentFields(loanId, content, year) == [("loanId", loanId)] + ([("htmlContent", Flatten(vs))] + rest);
    ChainFillsText(ps, "loanId", loanId, [("htmlContent", Flatten(vs))] + rest);
    var ps1 := Expand(ps, "loanId", [Text(loanId)]);
    ChainPlaceholderValue(ps1, "htmlContent", vs, rest);
    var g := f["htmlContent" := filled];
    SubstExpand(ps, "loanId", Text(loanId), g, loanId);
    DocumentRender(t, loanId, filled, year);
  }

  /** The last two replaces of the document chain, and the fields the whole chain then amounts to. */
  lemma LastFieldsPlain(loanId: string, htmlContent: string, year: string)
    requires NoBrace(year)
    ensures PlainFields([("year", year), ("companyName", CompanyName)])
    ensures "year" in FieldMap([("year", year), ("companyName", CompanyName)])
    ensures FieldMap([("year", year), ("companyName", CompanyName)])["year"] == year
    ensures FieldMap([("year", year), ("companyName", CompanyName)])["htmlContent" := htmlContent]["loanId" := loanId]
      == FieldMap(DocumentFields(loanId, htmlContent, year))
  {
    var rest := [("year", year), ("companyName", CompanyName)];
    ChainConstantsPlain();
    FieldMapLookup(rest, 0);
  }

  /** A document email is the text before the content, the content, and the text after it. */
  lemma LayoutAroundContent(t: DocumentText, loanId: string, htmlContent: string, year: string)
    ensures DocumentLayout(t, loanId, htmlContent, year)
         == (t.heading + loanId + t.beforeContent) + htmlContent + (t.afterContent + (year + (" " + (CompanyName + t.footer))))
  {
  }

  /** Texts that differ stay different between the same surroundings. */
  lemma SurroundedDiffer(head: string, x: string, y: string, tail: string)
    requires x != y
    ensures head + x + tail != head + y + tail
  {
    if |x| == |y| {
      var i :| 0 <= i < |x| && x[i] != y[i];
      assert (head + x + tail)[|head| + i] == x[i];
      assert (head + y + tail)[|head| + i] == y[i];
    } else {
      assert |head + x + tail| != |head + y + tail|;
    }
  }

  /** Leaving "${year}" in the content gives a different email than the year in its place. */
  lemma LayoutsDiffer(t: DocumentText, loanId: string, before: string, after: string, year: string)
    requires NoBrace(year)
    ensures DocumentLayout(t, loanId, before + year + after, year)
         != DocumentLayout(t, loanId, before + Key("year") + after, year)
  {
    var filled, verbatim := before + year + after, before + Key("year") + after;
    if |year| == |Key("year")| {
      assert filled[|before| + 1] == year[1];
      assert verbatim[|before| + 1] == Key("year")[1];
    } else {
      assert |filled| != |verbatim|;
    }
    LayoutAroundContent(t, loanId, filled, year);
    LayoutAroundContent(t, loanId, verbatim, year);
    SurroundedDiffer(t.heading + loanId + t.beforeContent, filled, verbatim,
                     t.afterContent + (year + (" " + (CompanyName + t.footer))));
  }
}
