/** The records of src/gmail_categorizer/models.py and their validators.
    Timestamps are seconds as real numbers; pydantic's type coercion and the
    `raw_message` field are not modelled. */
module Models {
  import opened Wrappers
  import opened Text

  type Timestamp = real

  /** Body fields are cut to this many characters (plus "...") on construction. */
  const MaxBodyLength: nat := 10000
  /** The body placed in the text sent for categorisation is cut to this many. */
  const MaxCategorizationBody: nat := 2000

  datatype EmailHeader = EmailHeader(name: string, value: string)

  datatype EmailMessage = EmailMessage(
    id: string,
    threadId: string,
    subject: string,
    sender: string,
    recipient: string,
    date: Option<Timestamp>,
    bodyText: string,
    bodyHtml: string,
    snippet: string,
    labels: seq<string>,
    headers: seq<EmailHeader>,
    attachments: seq<string>)

  /** `clean_body_content`, the validator run on `body_text` and `body_html`:
      empty stays empty, an over-long body is cut to its first 10000
      characters plus "...", and the outcome is stripped. */
  function CleanBodyContent(v: string): (r: string)
    ensures |r| <= MaxBodyLength + 3
    ensures |v| <= MaxBodyLength ==> r == Strip(v)
    ensures |v| > MaxBodyLength ==> r == TrimStart(v[..MaxBodyLength]) + "..."
  {
    if v == [] then ""
    else
      var cut := Ellipsize(v, MaxBodyLength);
      if |v| > MaxBodyLength then
        StripKeepsTail(v[..MaxBodyLength], "...");
        assert cut == v[..MaxBodyLength] + "...";
        Strip(cut)
      else
        Strip(cut)
  }

  /** An over-long body keeps its "..." marker: it is never silently dropped. */
  lemma LongBodyKeepsMarker(v: string)
    requires |v| > MaxBodyLength
    ensures EndsWith(CleanBodyContent(v), "...")
    ensures |CleanBodyContent(v)| < |v| + 3
  {
  }

  /** The constructor's invariant for body fields. */
  predicate BodiesCapped(m: EmailMessage) {
    |m.bodyText| <= MaxBodyLength + 3 && |m.bodyHtml| <= MaxBodyLength + 3
  }

  /** Builds a message the way the pydantic constructor does: the body
      validators run on `body_text` and `body_html`. */
  function NewEmailMessage(
    id: string, threadId: string, subject: string, sender: string, recipient: string,
    date: Option<Timestamp>, bodyText: string, bodyHtml: string, snippet: string,
    labels: seq<string>, headers: seq<EmailHeader>, attachments: seq<string>): (m: EmailMessage)
    ensures BodiesCapped(m)
    ensures m.bodyText == CleanBodyContent(bodyText) && m.bodyHtml == CleanBodyContent(bodyHtml)
  {
    EmailMessage(id, threadId, subject, sender, recipient, date,
                 CleanBodyContent(bodyText), CleanBodyContent(bodyHtml), snippet,
                 labels, headers, attachments)
  }

  /** The body used for categorisation: `body_text`, or `snippet` when that
      is empty. */
  function CategorizationBody(m: EmailMessage): string {
    if m.bodyText != "" then m.bodyText else m.snippet
  }

  function ContentParts(m: EmailMessage): seq<string> {
    var body := CategorizationBody(m);
    (if m.subject != "" then ["Subject: " + m.subject] else [])
    + (if m.sender != "" then ["From: " + m.sender] else [])
    + (if body != "" then ["Content: " + Ellipsize(body, MaxCategorizationBody)] else [])
  }

  /** `get_content_for_categorization`. */
  function ContentForCategorization(m: EmailMessage): string {
    Join(ContentParts(m), "\n")
  }

  lemma {:induction false} JoinStartsWithFirst(parts: seq<string>, sep: string)
    requires parts != []
    ensures StartsWith(Join(parts, sep), parts[0])
  {
  }

  lemma {:induction false} JoinEndsWithLast(parts: seq<string>, sep: string)
    requires parts != []
    ensures EndsWith(Join(parts, sep), parts[|parts| - 1])
  {
    if |parts| > 1 {
      JoinEndsWithLast(parts[1..], sep);
      var j := Join(parts[1..], sep);
      var last := parts[|parts| - 1];
      assert (parts[0] + sep + j)[|parts[0] + sep + j| - |last|..] == j[|j| - |last|..];
    }
  }

  lemma {:induction false} JoinEmptyIff(parts: seq<string>, sep: string)
    requires forall i :: 0 <= i < |parts| ==> parts[i] != ""
    ensures Join(parts, sep) == "" <==> parts == []
  {
    if |parts| > 1 {
      assert |Join(parts, sep)| >= |parts[0]|;
    }
  }

  /** With all three fields present the content is the three lines in order. */
  lemma ContentWithAllFields(m: EmailMessage)
    requires m.subject != "" && m.sender != "" && CategorizationBody(m) != ""
    ensures ContentForCategorization(m)
      == "Subject: " + m.subject + "\nFrom: " + m.sender
         + "\nContent: " + Ellipsize(CategorizationBody(m), MaxCategorizationBody)
  {
    var parts := ContentParts(m);
    var s, f, c := "Subject: " + m.subject, "From: " + m.sender,
                   "Content: " + Ellipsize(CategorizationBody(m), MaxCategorizationBody);
    assert parts == [s, f, c];
    assert Join(parts[1..], "\n") == f + "\n" + c by {
      assert parts[1..] == [f, c];
      assert parts[1..][1..] == [c];
    }
  }

  /** The subject line comes first whenever there is a subject. */
  lemma ContentStartsWithSubject(m: EmailMessage)
    requires m.subject != ""
    ensures StartsWith(ContentForCategorization(m), "Subject: " + m.subject)
  {
    JoinStartsWithFirst(ContentParts(m), "\n");
  }

  /** The content line comes last whenever there is a body; it is cut to 2000
      characters plus "...". */
  lemma ContentEndsWithBody(m: EmailMessage)
    requires CategorizationBody(m) != ""
    ensures EndsWith(ContentForCategorization(m), "Content: " + Ellipsize(CategorizationBody(m), MaxCategorizationBody))
    ensures |CategorizationBody(m)| > MaxCategorizationBody ==> EndsWith(ContentForCategorization(m), "...")
  {
    var parts := ContentParts(m);
    JoinEndsWithLast(parts, "\n");
    var last := "Content: " + Ellipsize(CategorizationBody(m), MaxCategorizationBody);
    var c := ContentForCategorization(m);
    if |CategorizationBody(m)| > MaxCategorizationBody {
      assert c[|c| - 3..] == last[|last| - 3..];
    }
  }

  /** The snippet stands in for an empty plain-text body. */
  lemma ContentFallsBackToSnippet(m: EmailMessage)
    requires m.bodyText == "" && m.snippet != ""
    ensures EndsWith(ContentForCategorization(m), "Content: " + Ellipsize(m.snippet, MaxCategorizationBody))
  {
    ContentEndsWithBody(m);
  }

  /** Nothing is emitted exactly when subject, sender and body are all empty. */
  lemma ContentEmptyIff(m: EmailMessage)
    ensures ContentForCategorization(m) == ""
      <==> m.subject == "" && m.sender == "" && CategorizationBody(m) == ""
  {
    JoinEmptyIff(ContentParts(m), "\n");
  }

  datatype Category = Category(
    name: string,
    labelId: Option<string>,
    confidence: Option<real>,
    reasoning: Option<string>)

  const ConfidenceError: string := "Confidence must be between 0 and 1"

  /** `Category.validate_confidence`: absent or within [0, 1], returned unchanged. */
  function ValidateConfidence(v: Option<real>): (r: Result<Option<real>>)
    ensures r.Ok? <==> (v.None? || 0.0 <= v.value <= 1.0)
    ensures r.Ok? ==> r.value == v
    ensures r.Err? ==> r.error == ConfidenceError
  {
    if v.Some? && !(0.0 <= v.value <= 1.0) then Err(ConfidenceError) else Ok(v)
  }

  /** What the validator guarantees of every constructed Category. */
  predicate ValidCategory(c: Category) {
    ValidateConfidence(c.confidence).Ok?
  }

  /** One message's classification outcome; `processing_time` is left out. */
  datatype CategorizationResult = CategorizationResult(
    messageId: string,
    originalCategory: Option<string>,
    predicted: Category,
    success: bool,
    errorMessage: Option<string>)

  /** The run report; `processing_time` is left out. */
  datatype BatchProcessingResult = BatchProcessingResult(
    totalMessages: int,
    successful: int,
    failed: int,
    results: seq<CategorizationResult>,
    errors: seq<string>)

  datatype GmailLabel = GmailLabel(
    id: string,
    name: string,
    kind: string,
    messagesTotal: Option<int>,
    messagesUnread: Option<int>)

  datatype ProcessingStats = ProcessingStats(
    startTime: Timestamp,
    endTime: Option<Timestamp>,
    messagesProcessed: int,
    messagesCategorized: int,
    messagesFailed: int,
    categoriesCreated: int,
    apiCallsGmail: int,
    apiCallsOpenai: int,
    errors: seq<string>)

  /** `ProcessingStats(start_time=...)`: every counter starts at 0, there is
      no end time and no error yet. */
  function NewStats(start: Timestamp): (s: ProcessingStats)
    ensures s.startTime == start && s.endTime.None?
    ensures s.messagesProcessed == 0 && s.messagesCategorized == 0 && s.messagesFailed == 0
    ensures s.categoriesCreated == 0 && s.apiCallsGmail == 0 && s.apiCallsOpenai == 0
    ensures s.errors == []
  {
    ProcessingStats(start, None, 0, 0, 0, 0, 0, 0, [])
  }

  /** `duration`: seconds from start to end, or nothing before the run ends. */
  function Duration(s: ProcessingStats): (d: Option<real>)
    ensures d.None? <==> s.endTime.None?
    ensures d.Some? ==> s.startTime + d.value == s.endTime.value
  {
    match s.endTime
    case None => None
    case Some(e) => Some(e - s.startTime)
  }

  /** `success_rate`: the percentage of processed messages that were
      categorised, 0 when nothing was processed. */
  function SuccessRate(s: ProcessingStats): (r: real)
    ensures s.messagesProcessed == 0 ==> r == 0.0
    ensures s.messagesProcessed != 0 ==> r * s.messagesProcessed as real == s.messagesCategorized as real * 100.0
    ensures 0 <= s.messagesCategorized <= s.messagesProcessed ==> 0.0 <= r <= 100.0
  {
    if s.messagesProcessed == 0 then 0.0
    else
      var p := s.messagesProcessed as real;
      var c := s.messagesCategorized as real;
      assert (c / p) * 100.0 * p == c * 100.0;
      assert 0.0 <= c <= p && p > 0.0 ==> c / p <= 1.0;
      (c / p) * 100.0
  }
}
