# Loan notification emails: a Dafny model

This project models the string layer of `EmailConsumer`, the notification
service of the loan application system. The service reacts to three events:

- **loanSubmit** receives an `ApplicationSubmitEvent` and sends the applicant
  a "Loan Application Confirmation" email.
- **documentFailed** and **documentVerified** receive a document-outcome
  message. Each sends the configured mail user a "Document Verification
  Failed" or "Document Verification Passed" email. The loan id comes from
  the last segment of the message's `solace_destination`
  (`replyTopic/{loanId}`). The body is built from the payload's `content`,
  rendered from Markdown.

Each handler fills an HTML template by a fixed chain of `String.replace`
calls. Any exception (for example a `null` loan id handed to `replace`) is
swallowed by the handler's catch, and then no email is built. The model
therefore writes every handler as a pure function returning
`Option<Email>`: `None` means no email.

Modules:

- `JavaString` (java_string.dfy) covers the Java string operations the
  handlers rely on:
  - `null` references (`NString`) and `String.valueOf`;
  - `lastIndexOf(char)`;
  - the literal, left-to-right, non-overlapping `replace`.
- `Destination` (destination.dfy) covers `getDestinationName` and
  `getLastSegment`.
- `Payload` (payload.dfy) covers the payload and the extraction of
  `contentText`.
- `Template` (template.dfy) is a theory of `${name}` templates. A template is
  a list of pieces: literal text and placeholders. `Render` is the reference
  meaning: a one-pass, simultaneous substitution. `ReplaceChain` is what the
  code does: one `replace` per field, in order. `ChainRenders` proves the two
  agree when no literal text and no value holds a `{`.
- `EmailTemplates` (email_templates.dfy) covers the placeholder layout of the
  three templates, the fields each handler supplies (in the code's order),
  and what each chain produces. The literal HTML is kept abstract here.
- `EmailText` (email_text.dfy) holds the literal HTML of the three Java text
  blocks, with incidental indentation and trailing blanks removed, and
  proves that it holds no `{`.
- `EmailConsumer` (email_consumer.dfy) holds the three handlers and the
  to/from/subject envelope.
  - `SubmissionEmail` and `DocumentEmail` are builders that take the
    template text as an argument.
  - `DocumentEmail` is the single builder the two document handlers share.
    They differ only in template text and subject.
  - `LoanSubmit`, `DocumentFailed` and `DocumentVerified` bind the builders
    to the source's text.

The chain of `replace` calls is not a one-pass substitution. Each
`replace` rescans the whole text, including the values that earlier
`replace` calls inserted. In the document handlers `${htmlContent}` is
filled before `${year}`. So rendered content that contains `${year}` comes
out with the year in its place.

The model follows the code:

- `ChainPlaceholderValue` proves that a value holding placeholders of later
  fields is itself filled by the later replaces. It holds for any template
  with no `{` in its literal text, any value spelled from text without `{`
  and placeholders, and later values without `{`.
- `DocumentFillRescansContent` proves this rescanning for content of the
  form `before + ${year} + after`, as rendered Markdown wraps it.
- `LayoutsDiffer` proves the result differs from a one-pass fill.
- `DocumentEmailRescansContent` states the same for a whole handler.

## Model

| member | source | states |
|---|---|---|
| JavaString.ValueOf | src/main/java/com/loan/notification/EmailConsumer.java:79 | the text that string concatenation and `String.valueOf` give a reference: the characters of a string, "null" for null; FullName and ContentText state what it yields in place |
| JavaString.LastIndexOf | src/main/java/com/loan/notification/EmailConsumer.java:289 | the result is -1 exactly when the character is absent; otherwise it is a position holding the character, with no occurrence after it |
| JavaString.Replace | src/main/java/com/loan/notification/EmailConsumer.java:78-83 | literal left-to-right `replace` of a non-empty target, resuming after each occurrence; characterised by ReplaceHit, ReplaceSkip and ReplaceAbsent, and over templates by Template.ReplaceExpandsHole |
| JavaString.ReplaceSkip | src/main/java/com/loan/notification/EmailConsumer.java:78-83 | a prefix holding no occurrence of the target is copied unchanged, and the scan continues after it |
| JavaString.ReplaceHit | src/main/java/com/loan/notification/EmailConsumer.java:78-83 | an occurrence at the front is replaced, and the scan resumes after it, so the inserted value is never rescanned by the same call |
| JavaString.ReplaceAbsent | src/main/java/com/loan/notification/EmailConsumer.java:78-83 | a text without the placeholder comes back unchanged |
| Template.ReplaceChain | src/main/java/com/loan/notification/EmailConsumer.java:78-83 | one `replace` per (placeholder, value) pair, in the order given; Template.ChainRenders proves it equals one-pass substitution when no value holds a `{`, and Template.ChainPlaceholderValue what it does otherwise |
| Template.ReplaceExpandsHole | src/main/java/com/loan/notification/EmailConsumer.java:78-83 | one replace of `${name}` over a well-formed template expands exactly the placeholders named name, with the value inserted verbatim |
| Template.ChainRenders | src/main/java/com/loan/notification/EmailConsumer.java:78-83 | when no value holds a `{`, the ordered chain of replaces equals one-pass simultaneous substitution of every field (the first pair for a name wins) |
| Template.RenderUnsupplied | src/main/java/com/loan/notification/EmailConsumer.java:78-83 | a template none of whose placeholders has a field renders as its own text |
| Template.RenderKeepsUnsupplied | src/main/java/com/loan/notification/EmailConsumer.java:78-83 | a placeholder without a field stays verbatim wherever it stands, also in a template whose other placeholders are filled |
| Template.SubstExpand | src/main/java/com/loan/notification/EmailConsumer.java:165-169 | filling a placeholder with a value that a later field turns into v is the same as supplying v for it directly |
| Template.RenderExpand | src/main/java/com/loan/notification/EmailConsumer.java:165-169 | rendering a template whose placeholder was expanded to pieces vs equals rendering the original with that placeholder bound to vs rendered |
| Template.ChainFillsText | src/main/java/com/loan/notification/EmailConsumer.java:165-169 | the first replace of a chain fills its placeholder with plain text and keeps the template well-formed |
| Template.ChainPlaceholderValue | src/main/java/com/loan/notification/EmailConsumer.java:165-169 | a value spelling a template vs (text and placeholders) becomes vs rendered with the fields replaced after it, not vs as written |
| Destination.DestinationName | src/main/java/com/loan/notification/EmailConsumer.java:275-282 | a String header is used as is, a Topic by its name and any other object by its string form; only a missing header gives null |
| Destination.GetLastSegment | src/main/java/com/loan/notification/EmailConsumer.java:284-293 | returns null exactly for a null or empty path; returns the path itself when it has no `/` or ends in `/`; otherwise returns a non-empty, slash-free segment s with path == prefix + "/" + s |
| Destination.LastSegmentIdempotent | src/main/java/com/loan/notification/EmailConsumer.java:284-293 | taking the last segment twice equals taking it once |
| Destination.LastSegmentOfJoin | src/main/java/com/loan/notification/EmailConsumer.java:288-292 | prefix + "/" + id yields id for any non-empty, slash-free id |
| Destination.LastSegmentExamples | src/main/java/com/loan/notification/EmailConsumer.java:285-291 | null and "" give null; "replyTopic/" and "12345" come back unchanged |
| Destination.LastSegmentOfReplyTopic | src/main/java/com/loan/notification/EmailConsumer.java:121-124 | "replyTopic/12345" yields "12345" |
| Payload.ContentText | src/main/java/com/loan/notification/EmailConsumer.java:126-135 | a map payload gives `content.toString()`, or null when `content` is missing or null; any other payload gives `String.valueOf`, so a null payload gives "null" |
| EmailTemplates.SubmissionBody | src/main/java/com/loan/notification/EmailConsumer.java:78-83 | the submission chain over the template, fields in the source order; EmailTemplates.SubmissionFill proves it yields the layout |
| EmailTemplates.DocumentBody | src/main/java/com/loan/notification/EmailConsumer.java:165-169 | a document chain over the template, fields in the source order; EmailTemplates.DocumentFill proves it yields the layout, EmailTemplates.DocumentFillRescansContent what a `${year}` in the content becomes |
| EmailTemplates.SubmissionRender | src/main/java/com/loan/notification/EmailConsumer.java:56-83 | every placeholder of the submission template has a field, and rendering puts each value in its place |
| EmailTemplates.DocumentRender | src/main/java/com/loan/notification/EmailConsumer.java:143-169 | the same for the document templates |
| EmailTemplates.SubmissionWellFormed | src/main/java/com/loan/notification/EmailConsumer.java:56-77 | a submission template with brace-free text is well-formed |
| EmailTemplates.DocumentWellFormed | src/main/java/com/loan/notification/EmailConsumer.java:143-164 | a document template with brace-free text is well-formed |
| EmailTemplates.SubmissionFill | src/main/java/com/loan/notification/EmailConsumer.java:78-83 | the submission chain lays the email out as its template says (name, loan id, "$", amount, year, "Loan Company") when no value holds a `{` |
| EmailTemplates.DocumentFill | src/main/java/com/loan/notification/EmailConsumer.java:165-169 | a document chain lays the email out as its template says (loan id, content, year, "Loan Company") when no value holds a `{` |
| EmailTemplates.DocumentFillRescansContent | src/main/java/com/loan/notification/EmailConsumer.java:165-169 | content `before + ${year} + after` (no other `{`) ends up as `before + year + after` in the content place, because `${htmlContent}` is filled before `${year}` |
| EmailTemplates.LayoutsDiffer | src/main/java/com/loan/notification/EmailConsumer.java:165-169 | that email differs from the template with the content inserted verbatim, for every surrounding text |
| EmailText.SubmissionPlain | src/main/java/com/loan/notification/EmailConsumer.java:56-77 | the literal text of the submission template holds no `{` |
| EmailText.FailedPlain | src/main/java/com/loan/notification/EmailConsumer.java:143-164 | the literal text of the failed-verification template holds no `{` |
| EmailText.VerifiedPlain | src/main/java/com/loan/notification/EmailConsumer.java:228-248 | the literal text of the passed-verification template holds no `{` |
| EmailConsumer.FullName | src/main/java/com/loan/notification/EmailConsumer.java:79 | first name, a space, last name, each null spelled "null" |
| EmailConsumer.SubmissionEmail | src/main/java/com/loan/notification/EmailConsumer.java:47-101 | an email exists exactly when the loan application, its applicant, the loan id and the applicant's address are non-null; it goes to and comes from the applicant's address |
| EmailConsumer.SubmissionEmailBody | src/main/java/com/loan/notification/EmailConsumer.java:78-88 | the body is the template with each value in its place when the values hold no `{` |
| EmailConsumer.LoanIdOf | src/main/java/com/loan/notification/EmailConsumer.java:117-125 | the loan id is null exactly when the header is absent or empty; otherwise it is the destination's last segment |
| EmailConsumer.LoanIdOfReplyTopic | src/main/java/com/loan/notification/EmailConsumer.java:119-124 | a destination replyTopic/{id}, given as a String or a Topic, yields id |
| EmailConsumer.DocumentEmail | src/main/java/com/loan/notification/EmailConsumer.java:111-189 | an email exists exactly when there is a loan id and the renderer accepts the content; it goes to and comes from the user name and carries the given subject |
| EmailConsumer.DocumentEmailBody | src/main/java/com/loan/notification/EmailConsumer.java:165-169 | the body of a document email is its template with loan id, rendered content, year and company name in place, when no value holds a `{` |
| EmailConsumer.NoDestinationNoEmail | src/main/java/com/loan/notification/EmailConsumer.java:119-125 | an absent or empty destination leaves the loan id null, and no email is built |
| EmailConsumer.DocumentEmailOnReplyTopic | src/main/java/com/loan/notification/EmailConsumer.java:117-174 | a message on replyTopic/{id}, as a String or a Topic header, gives exactly the email with the template filled by id, the rendered content and the year, when none of these holds a `{` |
| EmailConsumer.DocumentEmailRescansContent | src/main/java/com/loan/notification/EmailConsumer.java:142-169 | rendered content `before + ${year} + after` (no other `{` in it, the loan id or the year) reaches the email as `before + year + after`, not verbatim |
| EmailConsumer.LoanSubmit | src/main/java/com/loan/notification/EmailConsumer.java:47-101 | an email exists exactly when the loan application, its applicant, the loan id and the applicant's address are non-null; it goes to and comes from the applicant's address, with subject "Loan Application Confirmation" |
| EmailConsumer.DocumentFailed | src/main/java/com/loan/notification/EmailConsumer.java:171-174 | an email exists exactly when there is a loan id and rendering succeeds; it goes to and comes from the user name, with subject "Document Verification Failed" |
| EmailConsumer.DocumentVerified | src/main/java/com/loan/notification/EmailConsumer.java:255-258 | the same with subject "Document Verification Passed" |
| EmailConsumer.HandlerTemplatesPlain | src/main/java/com/loan/notification/EmailConsumer.java:56-77 | the literal text of all three templates holds no `{`; LoanSubmitBody, DocumentFailedBody and DocumentVerifiedBody use it |
| EmailConsumer.LoanSubmitBody | src/main/java/com/loan/notification/EmailConsumer.java:78-87 | the confirmation body is the source's submission template with the full name, loan id, "$", amount, year and "Loan Company" in place, when none holds a `{` |
| EmailConsumer.DocumentFailedBody | src/main/java/com/loan/notification/EmailConsumer.java:165-173 | the failed-verification body is the source's template with loan id, rendered content, year and "Loan Company" in place, when none holds a `{` |
| EmailConsumer.DocumentVerifiedBody | src/main/java/com/loan/notification/EmailConsumer.java:249-257 | the passed-verification body is the source's template with loan id, rendered content, year and "Loan Company" in place, when none holds a `{` |

## Left out

- Mail transport is not modelled. This covers `createMimeMessage`,
  `MimeMessageHelper`, `send`, the inner `MailException` catch, logging and
  `System.out.println`. An `Email` is the message handed to the sender. A
  failing `send` is logged by the code and changes nothing here.
- Markdown rendering (flexmark `Parser`/`HtmlRenderer`) is a foreign
  library. It is the parameter `render`, and `None` stands for a rendering
  that throws. Its behaviour on null content is not known, so nothing is
  assumed about it.
- `Year.now()` reads the clock, so the year is a text parameter.
- `String.format("%.2f", …)` is not modelled. The formatted amount is a text
  field of `LoanApplication`.
- Address checking by `MimeMessageHelper.setTo`/`setFrom` is not modelled.
  - A null applicant address gives `None`.
  - An address that is non-null but malformed (which also throws in the code)
    is not distinguished.
  - The configured user name is taken to be set (Spring refuses to start
    without it).
- A `toString()` that throws or returns null is not modelled. Header
  values, map entries and scalar payloads are represented by the string
  their `toString()` returns.
- A null event object, or a null `Message`, is not modelled. The messaging
  framework does not deliver one.
- Spring `@Bean`/`@Service`/`@Value` wiring and the `Consumer` lambdas are
  left out, as are the internals of the Solace `Topic` class: a topic is its
  name.
- Concurrency is left out. The handlers share no mutable state.
- The order of the exceptions inside a handler is not modelled, only whether
  one occurs. Either way the catch swallows it, and no email results.
- RenderUnsupplied: states only a template none of whose placeholders has
  a field. A single unsupplied placeholder among filled ones is
  RenderKeepsUnsupplied.
- SubmissionEmailBody: the layout is stated only for values without a `{`.
  A value with a placeholder in it is the general `ReplaceChain`, covered by
  ChainPlaceholderValue.
- LoanSubmitBody: the body of the real submission template is stated only
  for values without a `{`.
- DocumentEmailBody: the layout is stated only for values without a `{`.
  DocumentFillRescansContent covers content holding `${year}`.
- DocumentFailedBody: the body of the real failed-verification template is
  stated only for values without a `{`.
- DocumentVerifiedBody: the body of the real passed-verification template
  is stated only for values without a `{`.
