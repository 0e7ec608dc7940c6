/**
 * The three notification handlers of EmailConsumer, each as a function from
 * the event it receives to the email it hands to the mail sender, or None
 * when an exception is thrown and swallowed by the handler's catch.
 *
 * The clock (Year.now()), the amount formatting (String.format("%.2f", ...))
 * and the Markdown renderer are inputs: the year and the amount arrive as
 * text, and the renderer as a function that yields None where it throws.
 *
 * Each builder takes the literal text of its template as an argument;
 * LoanSubmit, DocumentFailed and DocumentVerified bind it to the text of
 * the source's templates (module EmailText).
 */
module EmailConsumer {
  import opened Wrappers
  import opened JavaString
  import opened Template
  import opened EmailTemplates
  import opened EmailText
  import opened Destination
  import opened Payload

  /** The message handed to the mail sender: recipient, sender, subject and HTML body. */
  datatype Email = Email(to: string, from: string, subject: string, htmlBody: string)

  datatype Applicant = Applicant(firstName: NString, lastName: NString, email: NString)

  /** A loan application; amountText is the loan amount as "%.2f" formats it. */
  datatype LoanApplication = LoanApplication(loanId: NString, amountText: string, applicant: Option<Applicant>)

  /** An ApplicationSubmitEvent; None stands for a null loan application. */
  datatype SubmitEvent = SubmitEvent(loanApplication: Option<LoanApplication>)

  /** A document-outcome message: its solace_destination header and its payload. */
  datatype Message = Message(destination: Header, payload: Payload)

  /** firstName + " " + lastName, where string concatenation spells null as "null". */
  function FullName(a: Applicant): (r: string)
    ensures |r| == |ValueOf(a.firstName)| + 1 + |ValueOf(a.lastName)|
    ensures r[|ValueOf(a.firstName)|] == ' '
    ensures r[..|ValueOf(a.firstName)|] == ValueOf(a.firstName)
    ensures r[|ValueOf(a.firstName)| + 1..] == ValueOf(a.lastName)
  {
    ValueOf(a.firstName) + " " + ValueOf(a.lastName)
  }

  /**
   * The loanSubmit handler: the confirmation email goes to the applicant and is sent from
   * the applicant's own address. A null loan application or applicant, a null
   * loan id (replace throws on a null replacement) or a null address (the
   * message helper refuses it) leaves no email.
   */
  function SubmissionEmail(t: SubmissionText, event: SubmitEvent, year: string): (r: Option<Email>)
    ensures r.Some? <==>
      && event.loanApplication.Some?
      && event.loanApplication.value.applicant.Some?
      && event.loanApplication.value.loanId.Str?
      && event.loanApplication.value.applicant.value.email.Str?
    ensures r.Some? ==>
      && r.value.to == event.loanApplication.value.applicant.value.email.value
      && r.value.from == r.value.to
      && r.value.subject == SubmissionTitle
  {
    match event.loanApplication
    case None => None
    case Some(loan) =>
      match loan.applicant
      case None => None
      case Some(a) =>
        match loan.loanId
        case Null => None
        case Str(id) =>
          match a.email
          case Null => None
          case Str(address) =>
            Some(Email(address, address, SubmissionTitle, SubmissionBody(t, FullName(a), id, loan.amountText, year)))
  }

  /**
   * The submission body is the template with the applicant's name, the loan
   * id, "$", the amount, the year and the company name in its placeholders,
   * when none of the supplied values holds a '{'.
   */
  lemma SubmissionEmailBody(t: SubmissionText, event: SubmitEvent, year: string)
    requires t.Plain()
    requires SubmissionEmail(t, event, year).Some?
    requires NoBrace(FullName(event.loanApplication.value.applicant.value))
    requires NoBrace(event.loanApplication.value.loanId.value)
    requires NoBrace(event.loanApplication.value.amountText)
    requires NoBrace(year)
    ensures SubmissionEmail(t, event, year).value.htmlBody
         == SubmissionLayout(t, FullName(event.loanApplication.value.applicant.value),
                             event.loanApplication.value.loanId.value, event.loanApplication.value.amountText, year)
  {
    var loan := event.loanApplication.value;
    SubmissionFill(t, FullName(loan.applicant.value), loan.loanId.value, loan.amountText, year);
  }

  /**
   * The loan id of a document-outcome message: null while there is no
   * destination, otherwise the destination's last segment.
   */
  function LoanIdOf(destination: Header): (r: NString)
    ensures r.Null? <==> destination.HAbsent? || DestinationName(destination).value == ""
    ensures r.Str? ==> r == GetLastSegment(DestinationName(destination))
  {
    var name := DestinationName(destination);
    if name.Null? then Null else GetLastSegment(name)
  }

  /** A reply topic replyTopic/{loanId}, as a string or a Topic, yields the loan id. */
  lemma LoanIdOfReplyTopic(id: string)
    requires id != "" && '/' !in id
    ensures LoanIdOf(HString("replyTopic/" + id)) == Str(id)
    ensures LoanIdOf(HTopic("replyTopic/" + id)) == Str(id)
  {
    LastSegmentOfJoin("replyTopic", id);
    assert "replyTopic" + "/" + id == "replyTopic/" + id;
  }

  /**
   * documentFailed and documentVerified, one builder for both, which differ
   * only in their template text and subject: the email goes to and comes
   * from the configured mail user name. It exists exactly when the
   * destination gives a loan id and the renderer accepts the content.
   */
  function DocumentEmail(t: DocumentText, subject: string, msg: Message, userName: string, year: string,
                         render: NString -> Option<string>): (r: Option<Email>)
    ensures r.Some? <==> LoanIdOf(msg.destination).Str? && render(ContentText(msg.payload)).Some?
    ensures r.Some? ==> r.value.to == userName && r.value.from == userName && r.value.subject == subject
  {
    var loanId := LoanIdOf(msg.destination);
    var html := render(ContentText(msg.payload));
    if html.None? then None
    else if loanId.Null? then None
    else Some(Email(userName, userName, subject, DocumentBody(t, loanId.value, html.value, year)))
  }

  /**
   * The body of a document email is its template with the loan id, the
   * rendered content, the year and the company name in place, when none of
   * these values holds a '{'.
   */
  lemma DocumentEmailBody(t: DocumentText, subject: string, msg: Message, userName: string, year: string,
                          render: NString -> Option<string>)
    requires t.Plain()
    requires DocumentEmail(t, subject, msg, userName, year, render).Some?
    requires NoBrace(LoanIdOf(msg.destination).value) && NoBrace(render(ContentText(msg.payload)).value)
    requires NoBrace(year)
    ensures DocumentEmail(t, subject, msg, userName, year, render).value.htmlBody
         == DocumentLayout(t, LoanIdOf(msg.destination).value, render(ContentText(msg.payload)).value, year)
  {
    DocumentFill(t, LoanIdOf(msg.destination).value, render(ContentText(msg.payload)).value, year);
  }

  /** An absent or empty destination leaves the loan id null, so no email is built. */
  lemma NoDestinationNoEmail(t: DocumentText, subject: string, msg: Message, userName: string, year: string,
                             render: NString -> Option<string>)
    requires msg.destination.HAbsent? || msg.destination == HString("")
          || msg.destination == HTopic("") || msg.destination == HOther("")
    ensures DocumentEmail(t, subject, msg, userName, year, render) == None
  {
  }

  /**
   * A message on replyTopic/{id} whose content renders to html free of '{'
   * yields the email whose body is the template with id and html in place.
   */
  lemma DocumentEmailOnReplyTopic(t: DocumentText, subject: string, id: string, payload: Payload, userName: string,
                                  year: string, render: NString -> Option<string>)
    requires t.Plain()
    requires id != "" && '/' !in id && NoBrace(id) && NoBrace(year)
    requires render(ContentText(payload)).Some? && NoBrace(render(ContentText(payload)).value)
    ensures DocumentEmail(t, subject, Message(HString("replyTopic/" + id), payload), userName, year, render)
         == Some(Email(userName, userName, subject, DocumentLayout(t, id, render(ContentText(payload)).value, year)))
    ensures DocumentEmail(t, subject, Message(HTopic("replyTopic/" + id), payload), userName, year, render)
         == Some(Email(userName, userName, subject, DocumentLayout(t, id, render(ContentText(payload)).value, year)))
  {
    LoanIdOfReplyTopic(id);
    DocumentFill(t, id, render(ContentText(payload)).value, year);
  }

  /**
   * Rendered content that holds ${year}, as Markdown such as "<p>${year}</p>"
   * renders, is not kept as written: the body carries the year there,
   * unlike a one-pass fill of the template.
   */
  lemma DocumentEmailRescansContent(t: DocumentText, subject: string, msg: Message, userName: string, year: string,
                                    render: NString -> Option<string>, before: string, after: string)
    requires t.Plain()
    requires DocumentEmail(t, subject, msg, userName, year, render).Some?
    requires render(ContentText(msg.payload)) == Some(before + Key("year") + after)
    requires NoBrace(LoanIdOf(msg.destination).value) && NoBrace(before) && NoBrace(after) && NoBrace(year)
    ensures DocumentEmail(t, subject, msg, userName, year, render).value.htmlBody
         == DocumentLayout(t, LoanIdOf(msg.destination).value, before + year + after, year)
    ensures DocumentEmail(t, subject, msg, userName, year, render).value.htmlBody
         != DocumentLayout(t, LoanIdOf(msg.destination).value, before + Key("year") + after, year)
  {
    DocumentFillRescansContent(t, LoanIdOf(msg.destination).value, before, after, year);
    LayoutsDiffer(t, LoanIdOf(msg.destination).value, before, after, year);
  }

  /** The loanSubmit handler, with the text of its template. */
  function LoanSubmit(event: SubmitEvent, year: string): (r: Option<Email>)
    ensures r.Some? <==>
      && event.loanApplication.Some?
      && event.loanApplication.value.applicant.Some?
      && event.loanApplication.value.loanId.Str?
      && event.loanApplication.value.applicant.value.email.Str?
    ensures r.Some? ==>
      && r.value.to == event.loanApplication.value.applicant.value.email.value
      && r.value.from == r.value.to
      && r.value.subject == "Loan Application Confirmation"
  {
    SubmissionEmail(Submission, event, year)
  }

  /** The documentFailed handler, with the text and subject of its template. */
  function DocumentFailed(msg: Message, userName: string, year: string, render: NString -> Option<string>): (r: Option<Email>)
    ensures r.Some? <==> LoanIdOf(msg.destination).Str? && render(ContentText(msg.payload)).Some?
    ensures r.Some? ==> r.value.to == userName && r.value.from == userName
    ensures r.Some? ==> r.value.subject == "Document Verification Failed"
  {
    DocumentEmail(FailedDocument, FailedTitle, msg, userName, year, render)
  }

  /** The documentVerified handler, with the text and subject of its template. */
  function DocumentVerified(msg: Message, userName: string, year: string, render: NString -> Option<string>): (r: Option<Email>)
    ensures r.Some? <==> LoanIdOf(msg.destination).Str? && render(ContentText(msg.payload)).Some?
    ensures r.Some? ==> r.value.to == userName && r.value.from == userName
    ensures r.Some? ==> r.value.subject == "Document Verification Passed"
  {
    DocumentEmail(VerifiedDocument, VerifiedTitle, msg, userName, year, render)
  }

  /** The source's templates hold no '{' in their literal text. */
  lemma HandlerTemplatesPlain()
    ensures Submission.Plain() && FailedDocument.Plain() && VerifiedDocument.Plain()
  {
    SubmissionPlain();
    FailedPlain();
    VerifiedPlain();
  }

  /**
   * The confirmation email's body is the source's submission template with
   * the applicant's name, the loan id, "$", the amount, the year and the
   * company name in place, when none of these values holds a '{'.
   */
  lemma LoanSubmitBody(event: SubmitEvent, year: string)
    requires LoanSubmit(event, year).Some?
    requires NoBrace(FullName(event.loanApplication.value.applicant.value))
    requires NoBrace(event.loanApplication.value.loanId.value)
    requires NoBrace(event.loanApplication.value.amountText)
    requires NoBrace(year)
    ensures LoanSubmit(event, year).value.htmlBody
         == SubmissionLayout(Submission, FullName(event.loanApplication.value.applicant.value),
                             event.loanApplication.value.loanId.value, event.loanApplication.value.amountText, year)
  {
    HandlerTemplatesPlain();
    SubmissionEmailBody(Submission, event, year);
  }

  /**
   * The failed-verification email's body is the source's template with the
   * loan id, the rendered content, the year and the company name in place,
   * when none of these values holds a '{'.
   */
  lemma DocumentFailedBody(msg: Message, userName: string, year: string, render: NString -> Option<string>)
    requires DocumentFailed(msg, userName, year, render).Some?
    requires NoBrace(LoanIdOf(msg.destination).value) && NoBrace(render(ContentText(msg.payload)).value)
    requires NoBrace(year)
    ensures DocumentFailed(msg, userName, year, render).value.htmlBody
         == DocumentLayout(FailedDocument, LoanIdOf(msg.destination).value, render(ContentText(msg.payload)).value, year)
  {
    HandlerTemplatesPlain();
    DocumentEmailBody(FailedDocument, FailedTitle, msg, userName, year, render);
  }

  /** The same for the passed-verification email and its template. */
  lemma DocumentVerifiedBody(msg: Message, userName: string, year: string, render: NString -> Option<string>)
    requires DocumentVerified(msg, userName, year, render).Some?
    requires NoBrace(LoanIdOf(msg.destination).value) && NoBrace(render(ContentText(msg.payload)).value)
    requires NoBrace(year)
    ensures DocumentVerified(msg, userName, year, render).value.htmlBody
         == DocumentLayout(VerifiedDocument, LoanIdOf(msg.destination).value, render(ContentText(msg.payload)).value, year)
  {
    HandlerTemplatesPlain();
    DocumentEmailBody(VerifiedDocument, VerifiedTitle, msg, userName, year, render);
  }
}
