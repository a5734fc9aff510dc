/** `GmailClient._parse_message` and its nested `extract_parts` from
    src/gmail_categorizer/gmail_client.py: turning the Gmail API's raw JSON
    message into an EmailMessage. Base64url decoding (RFC 4648 section 5,
    then UTF-8 with errors ignored) is passed in as a function that may fail,
    as `urlsafe_b64decode` does on bad padding; date parsing is passed in as
    a function too. */
module MimeParse {
  import opened Wrappers
  import opened Text
  import opened Models

  /** One entry of `payload.headers`; a missing key is None. */
  datatype RawHeader = RawHeader(name: Option<string>, value: Option<string>)

  /** A MIME part: `mimeType` and `body.data` and `filename` are "" when
      absent; `hasParts` says whether the key 'parts' is present, and `parts`
      is [] when it is not. */
  datatype Part = Part(mimeType: string, data: string, filename: string, hasParts: bool, parts: seq<Part>)

  /** The raw message; `headers` are the payload's headers. */
  datatype RawMessage = RawMessage(
    id: Option<string>,
    threadId: Option<string>,
    snippet: Option<string>,
    labelIds: Option<seq<string>>,
    headers: seq<RawHeader>,
    payload: Part)

  /** The lower-cased header name, "" when the header has none. */
  function HeaderName(h: RawHeader): string {
    ToLower(h.name.GetOr(""))
  }

  /** The value of the last header whose name, ignoring case, is `key`;
      "" when there is none. */
  function HeaderValue(headers: seq<RawHeader>, key: string): string {
    if headers == [] then ""
    else
      var n := |headers| - 1;
      if HeaderName(headers[n]) == key then headers[n].value.GetOr("")
      else HeaderValue(headers[..n], key)
  }

  /** With no header of that name the value is "". */
  lemma {:induction false} HeaderValueAbsent(headers: seq<RawHeader>, key: string)
    requires forall j :: 0 <= j < |headers| ==> HeaderName(headers[j]) != key
    ensures HeaderValue(headers, key) == ""
  {
    if headers != [] {
      var n := |headers| - 1;
      assert forall j :: 0 <= j < n ==> headers[..n][j] == headers[j];
      HeaderValueAbsent(headers[..n], key);
    }
  }

  /** Otherwise the value is that of the last header of that name: later
      headers override earlier ones. */
  lemma {:induction false} HeaderValueIsLastMatch(headers: seq<RawHeader>, key: string, j: int)
    requires 0 <= j < |headers| && HeaderName(headers[j]) == key
    requires forall k :: j < k < |headers| ==> HeaderName(headers[k]) != key
    ensures HeaderValue(headers, key) == headers[j].value.GetOr("")
  {
    var n := |headers| - 1;
    if j < n {
      assert forall k :: j < k < n ==> headers[..n][k] == headers[k];
      HeaderValueIsLastMatch(headers[..n], key, j);
    }
  }

  lemma HeaderValueSnoc(headers: seq<RawHeader>, h: RawHeader, key: string)
    ensures HeaderValue(headers + [h], key)
            == if HeaderName(h) == key then h.value.GetOr("") else HeaderValue(headers, key)
  {
    assert (headers + [h])[..|headers|] == headers;
  }

  /** How `extract_parts` treats a part: the first test that applies wins. */
  datatype PartRole = PlainBody | HtmlBody | Container | Attachment | Ignored

  function Role(p: Part): PartRole {
    if p.mimeType == "text/plain" then PlainBody
    else if p.mimeType == "text/html" then HtmlBody
    else if Contains(p.mimeType, "multipart") then Container
    else if p.filename != "" then Attachment
    else Ignored
  }

  /** The text of a decoding, "" for one that failed. */
  function DecodedText(r: Result<string>): string {
    match r
    case Ok(text) => text
    case Err(_) => ""
  }

  /** The decoded plain-text bodies met in a depth-first walk, in order. */
  function PlainTexts(parts: seq<Part>, decode: string -> Result<string>): seq<string> {
    if parts == [] then [] else PartPlainTexts(parts[0], decode) + PlainTexts(parts[1..], decode)
  }

  function PartPlainTexts(p: Part, decode: string -> Result<string>): seq<string> {
    match Role(p)
    case PlainBody => if p.data != "" then [DecodedText(decode(p.data))] else []
    case Container => PlainTexts(p.parts, decode)
    case _ => []
  }

  /** The decoded HTML bodies met in a depth-first walk, in order. */
  function HtmlTexts(parts: seq<Part>, decode: string -> Result<string>): seq<string> {
    if parts == [] then [] else PartHtmlTexts(parts[0], decode) + HtmlTexts(parts[1..], decode)
  }

  function PartHtmlTexts(p: Part, decode: string -> Result<string>): seq<string> {
    match Role(p)
    case HtmlBody => if p.data != "" then [DecodedText(decode(p.data))] else []
    case Container => HtmlTexts(p.parts, decode)
    case _ => []
  }

  /** The body data `extract_parts` decodes, plain and HTML alike, in walk
      order. */
  function BodyData(parts: seq<Part>): seq<string> {
    if parts == [] then [] else PartBodyData(parts[0]) + BodyData(parts[1..])
  }

  function PartBodyData(p: Part): seq<string> {
    match Role(p)
    case PlainBody => if p.data != "" then [p.data] else []
    case HtmlBody => if p.data != "" then [p.data] else []
    case Container => BodyData(p.parts)
    case _ => []
  }

  /** The error of the first decoding that fails: the exception that ends
      the walk. */
  function FirstDecodeError(data: seq<string>, decode: string -> Result<string>): Option<string> {
    if data == [] then None
    else
      match decode(data[0])
      case Err(error) => Some(error)
      case Ok(_) => FirstDecodeError(data[1..], decode)
  }

  /** No error iff every datum decodes; otherwise the error is that of a
      datum whose predecessors all decode. */
  lemma {:induction false} FirstDecodeErrorSpec(data: seq<string>, decode: string -> Result<string>)
    ensures FirstDecodeError(data, decode).None? <==> forall i :: 0 <= i < |data| ==> decode(data[i]).Ok?
    ensures FirstDecodeError(data, decode).Some? ==>
              exists i :: 0 <= i < |data| && decode(data[i]) == Err(FirstDecodeError(data, decode).value)
                          && forall k :: 0 <= k < i ==> decode(data[k]).Ok?
  {
    if data != [] && decode(data[0]).Ok? {
      FirstDecodeErrorSpec(data[1..], decode);
      assert forall k :: 0 < k < |data| ==> data[k] == data[1..][k - 1];
      var e := FirstDecodeError(data[1..], decode);
      if e.Some? {
        var j :| 0 <= j < |data[1..]| && decode(data[1..][j]) == Err(e.value)
                 && forall k :: 0 <= k < j ==> decode(data[1..][k]).Ok?;
        assert decode(data[j + 1]) == Err(e.value);
      }
    }
  }

  /** The file names of the attachment parts in a depth-first walk, in order. */
  function Attachments(parts: seq<Part>): seq<string> {
    if parts == [] then [] else PartAttachments(parts[0]) + Attachments(parts[1..])
  }

  function PartAttachments(p: Part): seq<string> {
    match Role(p)
    case Attachment => [p.filename]
    case Container => Attachments(p.parts)
    case _ => []
  }

  /** The last element, or `default` for an empty sequence. */
  function LastOr(xs: seq<string>, default: string): string {
    if xs == [] then default else xs[|xs| - 1]
  }

  lemma LastOrAppend(xs: seq<string>, ys: seq<string>, default: string)
    ensures LastOr(xs + ys, default) == LastOr(ys, LastOr(xs, default))
  {
  }

  lemma {:induction false} FirstDecodeErrorAppend(xs: seq<string>, ys: seq<string>, decode: string -> Result<string>)
    ensures FirstDecodeError(xs + ys, decode)
            == if FirstDecodeError(xs, decode).Some? then FirstDecodeError(xs, decode) else FirstDecodeError(ys, decode)
  {
    if xs != [] {
      assert (xs + ys)[0] == xs[0] && (xs + ys)[1..] == xs[1..] + ys;
      FirstDecodeErrorAppend(xs[1..], ys, decode);
    } else {
      assert xs + ys == ys;
    }
  }

  lemma {:induction false} BodyDataAppend(xs: seq<Part>, ys: seq<Part>)
    ensures BodyData(xs + ys) == BodyData(xs) + BodyData(ys)
  {
    if xs != [] {
      assert (xs + ys)[0] == xs[0] && (xs + ys)[1..] == xs[1..] + ys;
      BodyDataAppend(xs[1..], ys);
    } else {
      assert xs + ys == ys;
    }
  }

  /** A part whose bodies all decode extends a walk prefix without error. */
  lemma WalkContinues(parts: seq<Part>, i: int, decode: string -> Result<string>)
    requires 0 <= i < |parts|
    requires FirstDecodeError(BodyData(parts[..i]), decode).None?
    requires FirstDecodeError(PartBodyData(parts[i]), decode).None?
    ensures FirstDecodeError(BodyData(parts[..i + 1]), decode).None?
    ensures PlainTexts(parts[..i + 1], decode) == PlainTexts(parts[..i], decode) + PartPlainTexts(parts[i], decode)
    ensures HtmlTexts(parts[..i + 1], decode) == HtmlTexts(parts[..i], decode) + PartHtmlTexts(parts[i], decode)
    ensures Attachments(parts[..i + 1]) == Attachments(parts[..i]) + PartAttachments(parts[i])
  {
    var pre, p := parts[..i], parts[i];
    assert parts[..i + 1] == pre + [p];
    assert [p][1..] == [];
    assert BodyData([p]) == PartBodyData(p) + BodyData([]);
    assert BodyData([p]) == PartBodyData(p);
    BodyDataAppend(pre, [p]);
    assert BodyData(parts[..i + 1]) == BodyData(pre) + PartBodyData(p);
    FirstDecodeErrorAppend(BodyData(pre), PartBodyData(p), decode);
    PlainSnoc(parts[..i], parts[i], decode);
    HtmlSnoc(parts[..i], parts[i], decode);
    AttachmentsSnoc(parts[..i], parts[i]);
  }

  /** The first part with a failing body gives the whole walk's error. */
  lemma WalkStops(parts: seq<Part>, i: int, decode: string -> Result<string>)
    requires 0 <= i < |parts|
    requires FirstDecodeError(BodyData(parts[..i]), decode).None?
    requires FirstDecodeError(PartBodyData(parts[i]), decode).Some?
    ensures FirstDecodeError(BodyData(parts), decode) == FirstDecodeError(PartBodyData(parts[i]), decode)
  {
    var pre, tail := parts[..i], parts[i..];
    assert pre + tail == parts;
    assert tail[0] == parts[i] && tail[1..] == parts[i + 1..];
    BodyDataAppend(pre, tail);
    var here, rest := BodyData(tail), BodyData(parts[i + 1..]);
    assert here == PartBodyData(parts[i]) + rest;
    FirstDecodeErrorAppend(BodyData(pre), here, decode);
    FirstDecodeErrorAppend(PartBodyData(parts[i]), rest, decode);
  }

  lemma {:induction false} PlainSnoc(ps: seq<Part>, p: Part, decode: string -> Result<string>)
    ensures PlainTexts(ps + [p], decode) == PlainTexts(ps, decode) + PartPlainTexts(p, decode)
  {
    if ps == [] {
      assert [p][1..] == [];
    } else {
      assert (ps + [p])[1..] == ps[1..] + [p];
      PlainSnoc(ps[1..], p, decode);
    }
  }

  lemma {:induction false} HtmlSnoc(ps: seq<Part>, p: Part, decode: string -> Result<string>)
    ensures HtmlTexts(ps + [p], decode) == HtmlTexts(ps, decode) + PartHtmlTexts(p, decode)
  {
    if ps == [] {
      assert [p][1..] == [];
    } else {
      assert (ps + [p])[1..] == ps[1..] + [p];
      HtmlSnoc(ps[1..], p, decode);
    }
  }

  lemma {:induction false} AttachmentsSnoc(ps: seq<Part>, p: Part)
    ensures Attachments(ps + [p]) == Attachments(ps) + PartAttachments(p)
  {
    if ps == [] {
      assert [p][1..] == [];
    } else {
      assert (ps + [p])[1..] == ps[1..] + [p];
      AttachmentsSnoc(ps[1..], p);
    }
  }

  /** A text/plain or text/html part is never an attachment, whatever its
      file name. */
  lemma TextPartsAreNotAttachments(p: Part)
    requires p.mimeType == "text/plain" || p.mimeType == "text/html"
    ensures Attachments([p]) == []
  {
  }

  /** Walking `parts` from `bodyText`, `bodyHtml` and `attachments` decodes
      every body and ends in `text`, `html` and `files`. */
  predicate Walked(parts: seq<Part>, decode: string -> Result<string>,
                   bodyText: string, bodyHtml: string, attachments: seq<string>,
                   text: string, html: string, files: seq<string>) {
    FirstDecodeError(BodyData(parts), decode).None?
    && text == LastOr(PlainTexts(parts, decode), bodyText)
    && html == LastOr(HtmlTexts(parts, decode), bodyHtml)
    && files == attachments + Attachments(parts)
  }

  /** One more part that decodes extends a walk. */
  lemma WalkStep(parts: seq<Part>, i: int, decode: string -> Result<string>,
                 bodyText: string, bodyHtml: string, attachments: seq<string>,
                 text: string, html: string, files: seq<string>,
                 nextText: string, nextHtml: string, nextFiles: seq<string>)
    requires 0 <= i < |parts|
    requires Walked(parts[..i], decode, bodyText, bodyHtml, attachments, text, html, files)
    requires FirstDecodeError(PartBodyData(parts[i]), decode).None?
    requires nextText == LastOr(PartPlainTexts(parts[i], decode), text)
    requires nextHtml == LastOr(PartHtmlTexts(parts[i], decode), html)
    requires nextFiles == files + PartAttachments(parts[i])
    ensures Walked(parts[..i + 1], decode, bodyText, bodyHtml, attachments, nextText, nextHtml, nextFiles)
  {
    WalkContinues(parts, i, decode);
    LastOrAppend(PlainTexts(parts[..i], decode), PartPlainTexts(parts[i], decode), bodyText);
    LastOrAppend(HtmlTexts(parts[..i], decode), PartHtmlTexts(parts[i], decode), bodyHtml);
  }

  /** `extract_parts`: walks the parts depth first, updating the enclosing
      `body_text`, `body_html` and `attachments` (passed in and returned). The
      walk stops at the first body whose decoding fails, with that error;
      otherwise the last non-empty body of each kind wins and attachments are
      appended in walk order. */
  method ExtractParts(parts: seq<Part>, decode: string -> Result<string>,
                      bodyText: string, bodyHtml: string, attachments: seq<string>)
    returns (text: string, html: string, files: seq<string>, failure: Option<string>)
    ensures failure == FirstDecodeError(BodyData(parts), decode)
    ensures failure.None? ==> text == LastOr(PlainTexts(parts, decode), bodyText)
    ensures failure.None? ==> html == LastOr(HtmlTexts(parts, decode), bodyHtml)
    ensures failure.None? ==> files == attachments + Attachments(parts)
  {
    text, html, files, failure := bodyText, bodyHtml, attachments, None;
    var i := 0;
    assert parts[..0] == [];
    while i < |parts|
      invariant 0 <= i <= |parts| && failure.None?
      invariant Walked(parts[..i], decode, bodyText, bodyHtml, attachments, text, html, files)
    {
      ghost var text0, html0, files0 := text, html, files;
      text, html, files, failure := ExtractPart(parts[i], decode, text, html, files);
      if failure.Some? {
        WalkStops(parts, i, decode);
        return;
      }
      WalkStep(parts, i, decode, bodyText, bodyHtml, attachments, text0, html0, files0, text, html, files);
      i := i + 1;
    }
    assert parts[..i] == parts;
  }

  /** One iteration of `extract_parts`' loop. */
  method ExtractPart(part: Part, decode: string -> Result<string>,
                     bodyText: string, bodyHtml: string, attachments: seq<string>)
    returns (text: string, html: string, files: seq<string>, failure: Option<string>)
    ensures failure == FirstDecodeError(PartBodyData(part), decode)
    ensures failure.None? ==> text == LastOr(PartPlainTexts(part, decode), bodyText)
    ensures failure.None? ==> html == LastOr(PartHtmlTexts(part, decode), bodyHtml)
    ensures failure.None? ==> files == attachments + PartAttachments(part)
  {
    text, html, files, failure := bodyText, bodyHtml, attachments, None;
    var mimeType := part.mimeType;
    if mimeType == "text/plain" {
      if part.data != "" {
        match decode(part.data)
        case Ok(decoded) => text := decoded;
        case Err(error) => failure := Some(error);
      }
    } else if mimeType == "text/html" {
      if part.data != "" {
        match decode(part.data)
        case Ok(decoded) => html := decoded;
        case Err(error) => failure := Some(error);
      }
    } else if Contains(mimeType, "multipart") {
      text, html, files, failure := ExtractParts(part.parts, decode, text, html, files);
    } else if part.filename != "" {
      files := files + [part.filename];
    }
  }

  /** The plain-text body before cleaning: from the walk when the payload has
      parts, else from the payload itself when it is text/plain. */
  function RawBodyText(payload: Part, decode: string -> Result<string>): string {
    if payload.hasParts then LastOr(PlainTexts(payload.parts, decode), "")
    else if payload.mimeType == "text/plain" && payload.data != "" then DecodedText(decode(payload.data))
    else ""
  }

  function RawBodyHtml(payload: Part, decode: string -> Result<string>): string {
    if payload.hasParts then LastOr(HtmlTexts(payload.parts, decode), "")
    else if payload.mimeType == "text/html" && payload.data != "" then DecodedText(decode(payload.data))
    else ""
  }

  /** The body data `_parse_message` decodes: the walk's when the payload has
      parts, else the payload's own text/plain or text/html data. */
  function PayloadData(payload: Part): seq<string> {
    if payload.hasParts then BodyData(payload.parts)
    else if (payload.mimeType == "text/plain" || payload.mimeType == "text/html") && payload.data != "" then [payload.data]
    else []
  }

  /** The KeyError that building the header list raises for the first
      header without a name or a value, if any. */
  function HeaderKeyError(headers: seq<RawHeader>): (e: Option<string>)
    ensures e.None? <==> forall j :: 0 <= j < |headers| ==> headers[j].name.Some? && headers[j].value.Some?
  {
    if headers == [] then None
    else if headers[0].name.None? then Some("'name'")
    else if headers[0].value.None? then Some("'value'")
    else
      var e := HeaderKeyError(headers[1..]);
      assert forall j :: 0 < j < |headers| ==> headers[j] == headers[1..][j - 1];
      e
  }

  /** The header loop of `_parse_message`: the last header of each name,
      compared ignoring case, gives the subject, sender, recipient and date
      strings. */
  method ScanHeaders(headers: seq<RawHeader>)
    returns (subject: string, sender: string, recipient: string, dateStr: string)
    ensures subject == HeaderValue(headers, "subject")
    ensures sender == HeaderValue(headers, "from")
    ensures recipient == HeaderValue(headers, "to")
    ensures dateStr == HeaderValue(headers, "date")
  {
    subject, sender, recipient, dateStr := "", "", "", "";
    var i := 0;
    while i < |headers|
      invariant 0 <= i <= |headers|
      invariant subject == HeaderValue(headers[..i], "subject")
      invariant sender == HeaderValue(headers[..i], "from")
      invariant recipient == HeaderValue(headers[..i], "to")
      invariant dateStr == HeaderValue(headers[..i], "date")
    {
      var name := HeaderName(headers[i]);
      var value := headers[i].value.GetOr("");
      if name == "subject" {
        subject := value;
      } else if name == "from" {
        sender := value;
      } else if name == "to" {
        recipient := value;
      } else if name == "date" {
        dateStr := value;
      }
      HeaderValueSnoc(headers[..i], headers[i], "subject");
      HeaderValueSnoc(headers[..i], headers[i], "from");
      HeaderValueSnoc(headers[..i], headers[i], "to");
      HeaderValueSnoc(headers[..i], headers[i], "date");
      assert headers[..i + 1] == headers[..i] + [headers[i]];
      i := i + 1;
    }
    assert headers[..i] == headers;
  }

  /** The body part of `_parse_message`: a payload with parts is walked; one
      without uses its own text/plain or text/html data and has no
      attachments. A failed decoding is returned as `failure`. */
  method ExtractBodies(payload: Part, decode: string -> Result<string>)
    returns (bodyText: string, bodyHtml: string, attachments: seq<string>, failure: Option<string>)
    ensures failure == FirstDecodeError(PayloadData(payload), decode)
    ensures failure.None? ==> bodyText == RawBodyText(payload, decode) && bodyHtml == RawBodyHtml(payload, decode)
    ensures failure.None? ==> attachments == (if payload.hasParts then Attachments(payload.parts) else [])
  {
    bodyText, bodyHtml, attachments, failure := "", "", [], None;
    if payload.hasParts {
      bodyText, bodyHtml, attachments, failure := ExtractParts(payload.parts, decode, bodyText, bodyHtml, attachments);
    } else if payload.mimeType == "text/plain" {
      if payload.data != "" {
        match decode(payload.data)
        case Ok(decoded) => bodyText := decoded;
        case Err(error) => failure := Some(error);
      }
    } else if payload.mimeType == "text/html" {
      if payload.data != "" {
        match decode(payload.data)
        case Ok(decoded) => bodyHtml := decoded;
        case Err(error) => failure := Some(error);
      }
    }
  }

  /** The date string with any trailing "(zone name)" comment removed, parsed. */
  function ParseDateHeader(dateStr: string, parseDate: string -> Option<Timestamp>): Option<Timestamp> {
    if dateStr != "" then parseDate(Strip(Before(dateStr, '('))) else None
  }

  /** `_parse_message`. Fails with the decoder's error when a body does not
      decode (the first in walk order), else with the KeyError's text when
      'id' or 'threadId' is missing or a header lacks its name or value. */
  method ParseMessage(raw: RawMessage, decode: string -> Result<string>, parseDate: string -> Option<Timestamp>)
    returns (r: Result<EmailMessage>)
    ensures r.Ok? <==> FirstDecodeError(PayloadData(raw.payload), decode).None?
                       && raw.id.Some? && raw.threadId.Some? && HeaderKeyError(raw.headers).None?
    ensures r.Err? ==> r.error == (if FirstDecodeError(PayloadData(raw.payload), decode).Some?
                                   then FirstDecodeError(PayloadData(raw.payload), decode).value
                                   else if raw.id.None? then "'id'"
                                   else if raw.threadId.None? then "'threadId'"
                                   else HeaderKeyError(raw.headers).value)
    ensures r.Ok? ==> r.value.id == raw.id.value && r.value.threadId == raw.threadId.value
    ensures r.Ok? ==> r.value.subject == HeaderValue(raw.headers, "subject")
    ensures r.Ok? ==> r.value.sender == HeaderValue(raw.headers, "from")
    ensures r.Ok? ==> r.value.recipient == HeaderValue(raw.headers, "to")
    ensures r.Ok? ==> r.value.date == ParseDateHeader(HeaderValue(raw.headers, "date"), parseDate)
    ensures r.Ok? ==> r.value.bodyText == CleanBodyContent(RawBodyText(raw.payload, decode))
    ensures r.Ok? ==> r.value.bodyHtml == CleanBodyContent(RawBodyHtml(raw.payload, decode))
    ensures r.Ok? ==> r.value.attachments == (if raw.payload.hasParts then Attachments(raw.payload.parts) else [])
    ensures r.Ok? ==> r.value.snippet == raw.snippet.GetOr("") && r.value.labels == raw.labelIds.GetOr([])
    ensures r.Ok? ==> |r.value.headers| == |raw.headers|
    ensures r.Ok? ==> forall j :: 0 <= j < |raw.headers| ==>
                        r.value.headers[j] == EmailHeader(raw.headers[j].name.value, raw.headers[j].value.value)
  {
    var subject, sender, recipient, dateStr := ScanHeaders(raw.headers);
    var date := ParseDateHeader(dateStr, parseDate);
    var bodyText, bodyHtml, attachments, failure := ExtractBodies(raw.payload, decode);
    if failure.Some? {
      return Err(failure.value);
    }
    if raw.id.None? {
      return Err("'id'");
    }
    if raw.threadId.None? {
      return Err("'threadId'");
    }
    var headers := raw.headers;
    var keyError := HeaderKeyError(headers);
    if keyError.Some? {
      return Err(keyError.value);
    }
    var parsed := seq(|headers|, j requires 0 <= j < |headers| => EmailHeader(headers[j].name.value, headers[j].value.value));
    r := Ok(NewEmailMessage(raw.id.value, raw.threadId.value, subject, sender, recipient, date,
                            bodyText, bodyHtml, raw.snippet.GetOr(""), raw.labelIds.GetOr([]),
                            parsed, attachments));
  }
}
