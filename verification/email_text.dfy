/**
 * The literal HTML of the three email templates, as the handlers' Java text
 * blocks spell it (incidental indentation and trailing blanks removed, each
 * ending in a newline).
 *
 * The text is written as lists of fragments, one row per line of the
 * template and split at attribute or word boundaries, so that the absence
 * of '{' can be checked fragment by fragment.
 */
module EmailText {
  import opened Template
  import opened EmailTemplates

  /** The concatenation of a list of text fragments. */
  function Join(parts: seq<string>): string
    decreases |parts|
  {
    if parts == [] then "" else parts[0] + Join(parts[1..])
  }

  predicate AllNoBrace(parts: seq<string>)
  {
    forall i :: 0 <= i < |parts| ==> '{' !in parts[i]
  }

  /** Text joined from fragments free of '{' is free of '{'. */
  lemma {:induction false} JoinNoBrace(parts: seq<string>)
    requires AllNoBrace(parts)
    ensures NoBrace(Join(parts))
    decreases |parts|
  {
    if parts != [] {
      NoBraceNotIn(parts[0]);
      JoinNoBrace(parts[1..]);
      NoBraceAppend(parts[0], Join(parts[1..]));
    }
  }

  const SubmissionTitle: string := "Loan Application Confirmation"
  const FailedTitle: string := "Document Verification Failed"
  const VerifiedTitle: string := "Document Verification Passed"

  /** The document head shared by all three templates, with the page title. */
  function PageHead(title: string): string
  {
    Join(PageHeadLines(title))
  }

  function PageHeadLines(title: string): seq<string>
  {
    [ "<!DOCTYPE html>\n",
      "<html lang=\"en\">\n",
      "<head>\n",
      "  <meta charset=\"UTF-8\">\n",
      "  <title>", title, "</title>\n",
      "</head>\n" ]
  }

  /** The opening body tag of the submission template. */
  const SubmissionBodyTag: string := Join(SubmissionBodyTagLines)
  const SubmissionBodyTagLines: seq<string> := [
    "<body", " style=\"font-family:Arial,", " Helvetica, sans-serif;",
      " background-color:#f6f9fc;", " color:#1f2937;", " margin:0;", " padding:20px;\">\n"]

  /** The opening tag of the card that holds the message, in the submission template. */
  const SubmissionCardTag: string := Join(SubmissionCardTagLines)
  const SubmissionCardTagLines: seq<string> := [
    "  <div", " style=\"max-width:500px;", " margin:auto;", " background:#ffffff;",
      " border-radius:10px;", " padding:24px;", " box-shadow:0 2px 8px", " rgba(0,0,0,0.08);\">\n"]

  const SubmissionGreeting: string := Join(SubmissionGreetingLines)
  const SubmissionGreetingLines: seq<string> := [
    "    <h2", " style=\"color:#2563eb;", " margin-top:0;\">Loan", " Application",
      " Received</h2>\n",
    "    <p>Hi <strong>"]

  /** Everything before ${applicantName}. */
  const SubmissionIntro: string :=
    PageHead(SubmissionTitle) + SubmissionBodyTag + SubmissionCardTag + SubmissionGreeting

  const SubmissionThanks: string := Join(SubmissionThanksLines)
  const SubmissionThanksLines: seq<string> := [
    "</strong>,</p>\n",
    "    <p>Thank you for", " submitting your loan", " application. Here are",
      " the details:</p>\n"]

  const SubmissionDetailsOpen: string := Join(SubmissionDetailsOpenLines)
  const SubmissionDetailsOpenLines: seq<string> := [
    "    <div", " style=\"background:#f3f4f6;", " border-radius:8px;", " padding:16px;",
      " margin:16px 0;\">\n",
    "      <p", " style=\"margin:6px", " 0;\"><strong>Loan", " ID:</strong> "]

  /** Between ${applicantName} and ${loanId}. */
  const SubmissionBeforeLoanId: string := SubmissionThanks + SubmissionDetailsOpen

  /** Between ${loanId} and ${currencySymbol}. */
  const SubmissionBeforeAmount: string := Join(SubmissionBeforeAmountLines)
  const SubmissionBeforeAmountLines: seq<string> := [
    "</p>\n",
    "      <p", " style=\"margin:6px", " 0;\"><strong>Amount:</strong>", " "]

  /** Between ${amount} and ${year}. */
  const SubmissionBeforeYear: string := Join(SubmissionBeforeYearLines)
  const SubmissionBeforeYearLines: seq<string> := [
    "</p>\n",
    "    </div>\n",
    "    <p>We\U{2019}ll review your", " application and update", " you shortly.</p>\n",
    "    <p", " style=\"font-size:12px;", " color:#6b7280;", " margin-top:24px;\">\U{00A9} "]

  /** The opening body tag of the two document templates. */
  const DocumentBodyTag: string := Join(DocumentBodyTagLines)
  const DocumentBodyTagLines: seq<string> := [
    "<body", " style=\"font-family:", " Arial, Helvetica,", " sans-serif;", " background-color:",
      " #f6f9fc; color:", " #1f2937; margin: 0;", " padding: 20px;\">\n"]

  /** The opening tag of the card that holds the message, in the two document templates. */
  const DocumentCardTag: string := Join(DocumentCardTagLines)
  const DocumentCardTagLines: seq<string> := [
    "  <div style=\"max-width:", " 600px; margin: auto;", " background: #ffffff;",
      " border-radius: 10px;", " padding: 24px;", " box-shadow: 0 2px 8px",
      " rgba(0,0,0,0.08);\">\n"]

  /** The heading of a document template, in the given colour, up to ${loanId}. */
  function HeadingLine(colour: string, title: string): string
  {
    Join(HeadingLineParts(colour, title))
  }

  function HeadingLineParts(colour: string, title: string): seq<string>
  {
    [ "    <h2 style=\"color: ", colour, "; margin-top: 0;\">", title, " - Loan #" ]
  }

  /** Everything before ${loanId} in the failure template. */
  const FailedHeading: string :=
    PageHead(FailedTitle) + DocumentBodyTag + DocumentCardTag + HeadingLine("#dc2626", FailedTitle)

  /** Everything before ${loanId} in the success template. */
  const VerifiedHeading: string :=
    PageHead(VerifiedTitle) + DocumentBodyTag + DocumentCardTag + HeadingLine("#16a34a", VerifiedTitle)

  const FailedIssues: string := Join(FailedIssuesLines)
  const FailedIssuesLines: seq<string> := [
    "</h2>\n",
    "\n",
    "    <p style=\"font-size:", " 15px;\">The following", " issues were detected",
      " during validation:</p>\n",
    "\n"]

  /** The opening of the box that holds the rendered Markdown, up to ${htmlContent}. */
  const ContentBoxOpen: string := Join(ContentBoxOpenLines)
  const ContentBoxOpenLines: seq<string> := [
    "    <div", " style=\"background:", " #f9fafb; border: 1px", " solid #e5e7eb;",
      " border-radius: 8px;", " padding: 16px;\">\n",
    "      "]

  /** Between ${loanId} and ${htmlContent} in the failure template. */
  const FailedBeforeContent: string := FailedIssues + ContentBoxOpen

  /** Between ${loanId} and ${htmlContent} in the success template. */
  const VerifiedBeforeContent: string := "</h2>\n\n\n" + ContentBoxOpen

  /** Between ${htmlContent} and ${year} in both document templates. */
  const DocumentAfterContent: string := Join(DocumentAfterContentLines)
  const DocumentAfterContentLines: seq<string> := [
    "  <!-- here goes", " rendered Markdown -->\n",
    "    </div>\n",
    "\n",
    "    <p style=\"font-size:", " 12px; color: #6b7280;", " margin-top: 24px;\">\U{00A9} "]

  /** After ${companyName} in all three templates. */
  const Footer: string := Join(FooterLines)
  const FooterLines: seq<string> := [
    "</p>\n",
    "  </div>\n",
    "</body>\n",
    "</html>\n"]

  /** The text of the "Loan Application Confirmation" template. */
  const Submission: SubmissionText :=
    SubmissionText(SubmissionIntro, SubmissionBeforeLoanId, SubmissionBeforeAmount, SubmissionBeforeYear, Footer)

  /** The text of the "Document Verification Failed" template. */
  const FailedDocument: DocumentText :=
    DocumentText(FailedHeading, FailedBeforeContent, DocumentAfterContent, Footer)

  /** The text of the "Document Verification Passed" template. */
  const VerifiedDocument: DocumentText :=
    DocumentText(VerifiedHeading, VerifiedBeforeContent, DocumentAfterContent, Footer)

  // No '{' in the literal text: each list of fragments is checked on its own.

  lemma TitlesNoBrace()
    ensures NoBrace(SubmissionTitle) && NoBrace(FailedTitle) && NoBrace(VerifiedTitle)
  {
  }

  lemma PageHeadNoBrace(title: string)
    requires NoBrace(title)
    ensures NoBrace(PageHead(title))
  {
    NoBraceNotIn(title);
    JoinNoBrace(PageHeadLines(title));
  }

  lemma HeadingLineNoBrace(colour: string, title: string)
    requires NoBrace(colour) && NoBrace(title)
    ensures NoBrace(HeadingLine(colour, title))
  {
    NoBraceNotIn(colour);
    NoBraceNotIn(title);
    JoinNoBrace(HeadingLineParts(colour, title));
  }

  lemma SubmissionBodyTagLinesOk() ensures AllNoBrace(SubmissionBodyTagLines) { }
  lemma SubmissionCardTagLinesOk() ensures AllNoBrace(SubmissionCardTagLines) { }
  lemma SubmissionGreetingLinesOk() ensures AllNoBrace(SubmissionGreetingLines) { }
  lemma SubmissionThanksLinesOk() ensures AllNoBrace(SubmissionThanksLines) { }
  lemma SubmissionDetailsOpenLinesOk() ensures AllNoBrace(SubmissionDetailsOpenLines) { }
  lemma SubmissionBeforeAmountLinesOk() ensures AllNoBrace(SubmissionBeforeAmountLines) { }
  lemma SubmissionBeforeYearLinesOk() ensures AllNoBrace(SubmissionBeforeYearLines) { }
  lemma DocumentBodyTagLinesOk() ensures AllNoBrace(DocumentBodyTagLines) { }
  lemma DocumentCardTagLinesOk() ensures AllNoBrace(DocumentCardTagLines) { }
  lemma FailedIssuesLinesOk() ensures AllNoBrace(FailedIssuesLines) { }
  lemma ContentBoxOpenLinesOk() ensures AllNoBrace(ContentBoxOpenLines) { }
  lemma DocumentAfterContentLinesOk() ensures AllNoBrace(DocumentAfterContentLines) { }
  lemma FooterLinesOk() ensures AllNoBrace(FooterLines) { }

  lemma SubmissionBodyTagNoBrace() ensures NoBrace(SubmissionBodyTag) { SubmissionBodyTagLinesOk(); JoinNoBrace(SubmissionBodyTagLines); }
  lemma SubmissionCardTagNoBrace() ensures NoBrace(SubmissionCardTag) { SubmissionCardTagLinesOk(); JoinNoBrace(SubmissionCardTagLines); }
  lemma SubmissionGreetingNoBrace() ensures NoBrace(SubmissionGreeting) { SubmissionGreetingLinesOk(); JoinNoBrace(SubmissionGreetingLines); }
  lemma SubmissionThanksNoBrace() ensures NoBrace(SubmissionThanks) { SubmissionThanksLinesOk(); JoinNoBrace(SubmissionThanksLines); }
  lemma SubmissionDetailsOpenNoBrace() ensures NoBrace(SubmissionDetailsOpen) { SubmissionDetailsOpenLinesOk(); JoinNoBrace(SubmissionDetailsOpenLines); }
  lemma SubmissionBeforeAmountNoBrace() ensures NoBrace(SubmissionBeforeAmount) { SubmissionBeforeAmountLinesOk(); JoinNoBrace(SubmissionBeforeAmountLines); }
  lemma SubmissionBeforeYearNoBrace() ensures NoBrace(SubmissionBeforeYear) { SubmissionBeforeYearLinesOk(); JoinNoBrace(SubmissionBeforeYearLines); }
  lemma DocumentBodyTagNoBrace() ensures NoBrace(DocumentBodyTag) { DocumentBodyTagLinesOk(); JoinNoBrace(DocumentBodyTagLines); }
  lemma DocumentCardTagNoBrace() ensures NoBrace(DocumentCardTag) { DocumentCardTagLinesOk(); JoinNoBrace(DocumentCardTagLines); }
  lemma FailedIssuesNoBrace() ensures NoBrace(FailedIssues) { FailedIssuesLinesOk(); JoinNoBrace(FailedIssuesLines); }
  lemma ContentBoxOpenNoBrace() ensures NoBrace(ContentBoxOpen) { ContentBoxOpenLinesOk(); JoinNoBrace(ContentBoxOpenLines); }
  lemma DocumentAfterContentNoBrace() ensures NoBrace(DocumentAfterContent) { DocumentAfterContentLinesOk(); JoinNoBrace(DocumentAfterContentLines); }
  lemma FooterNoBrace() ensures NoBrace(Footer) { FooterLinesOk(); JoinNoBrace(FooterLines); }

  lemma SubmissionIntroNoBrace()
    ensures NoBrace(SubmissionIntro)
  {
    TitlesNoBrace();
    PageHeadNoBrace(SubmissionTitle);
    SubmissionBodyTagNoBrace();
    SubmissionCardTagNoBrace();
    SubmissionGreetingNoBrace();
    NoBraceAppend(PageHead(SubmissionTitle), SubmissionBodyTag);
    NoBraceAppend(PageHead(SubmissionTitle) + SubmissionBodyTag, SubmissionCardTag);
    NoBraceAppend(PageHead(SubmissionTitle) + SubmissionBodyTag + SubmissionCardTag, SubmissionGreeting);
  }

  lemma DocumentHeadingNoBrace(title: string, colour: string)
    requires NoBrace(title) && NoBrace(colour)
    ensures NoBrace(PageHead(title) + DocumentBodyTag + DocumentCardTag + HeadingLine(colour, title))
  {
    PageHeadNoBrace(title);
    HeadingLineNoBrace(colour, title);
    DocumentBodyTagNoBrace();
    DocumentCardTagNoBrace();
    NoBraceAppend(PageHead(title), DocumentBodyTag);
    NoBraceAppend(PageHead(title) + DocumentBodyTag, DocumentCardTag);
    NoBraceAppend(PageHead(title) + DocumentBodyTag + DocumentCardTag, HeadingLine(colour, title));
  }

  /** The literal text of the submission template holds no '{'. */
  lemma SubmissionPlain()
    ensures Submission.Plain()
  {
    SubmissionIntroNoBrace();
    SubmissionThanksNoBrace();
    SubmissionDetailsOpenNoBrace();
    NoBraceAppend(SubmissionThanks, SubmissionDetailsOpen);
    SubmissionBeforeAmountNoBrace();
    SubmissionBeforeYearNoBrace();
    FooterNoBrace();
  }

  lemma FailedHeadingNoBrace()
    ensures NoBrace(FailedHeading)
  {
    TitlesNoBrace();
    assert NoBrace("#dc2626");
    DocumentHeadingNoBrace(FailedTitle, "#dc2626");
  }

  lemma VerifiedHeadingNoBrace()
    ensures NoBrace(VerifiedHeading)
  {
    TitlesNoBrace();
    assert NoBrace("#16a34a");
    DocumentHeadingNoBrace(VerifiedTitle, "#16a34a");
  }

  lemma FailedBeforeContentNoBrace()
    ensures NoBrace(FailedBeforeContent)
  {
    FailedIssuesNoBrace();
    ContentBoxOpenNoBrace();
    NoBraceAppend(FailedIssues, ContentBoxOpen);
  }

  lemma VerifiedBeforeContentNoBrace()
    ensures NoBrace(VerifiedBeforeContent)
  {
    assert NoBrace("</h2>\n\n\n");
    ContentBoxOpenNoBrace();
    NoBraceAppend("</h2>\n\n\n", ContentBoxOpen);
  }

  lemma FailedPlain()
    ensures FailedDocument.Plain()
  {
    FailedHeadingNoBrace();
    FailedBeforeContentNoBrace();
    DocumentAfterContentNoBrace();
    FooterNoBrace();
  }

  lemma VerifiedPlain()
    ensures VerifiedDocument.Plain()
  {
    VerifiedHeadingNoBrace();
    VerifiedBeforeContentNoBrace();
    DocumentAfterContentNoBrace();
    FooterNoBrace();
  }
}
