/** `GPTCategorizer` from src/gmail_categorizer/gpt_categorizer.py: prompt
    shaping, the response parser with its word-scan fallback, the control
    flow around the chat-completion call, the batch loop, the statistics
    and the vocabulary check. The completion service and `json.loads` are
    inputs: the service as a function from request to reply, the decoder as
    the already-decoded value of the response text. */
module Categorizer {
  import opened Wrappers
  import opened Text
  import opened Collections
  import opened Models

  // ---------------------------------------------------------------------
  // Prompts

  const SystemPromptHead: string :=
    "You are an expert email categorization assistant. Your task is to categorize emails into one of the following categories:\n\nCategories: "

  const SystemPromptTail: string :=
    "\n\nInstructions:\n"
    + "1. Analyze the email subject, sender, and content\n"
    + "2. Choose the MOST appropriate category from the list above\n"
    + "3. Provide a confidence score between 0 and 1\n"
    + "4. Give a brief reasoning for your choice\n"
    + "5. Respond ONLY with a valid JSON object in this exact format:\n\n"
    + "{\n"
    + "    \"category\": \"CategoryName\",\n"
    + "    \"confidence\": 0.85,\n"
    + "    \"reasoning\": \"Brief explanation of why this category was chosen\"\n"
    + "}\n\n"
    + "Rules:\n"
    + "- Always use one of the provided categories exactly as listed\n"
    + "- Confidence should reflect how certain you are (0.0 to 1.0)\n"
    + "- Keep reasoning concise (1-2 sentences)\n"
    + "- If unsure, use \"Other\" category with lower confidence\n"
    + "- Focus on the primary purpose/content of the email"

  /** `_build_system_prompt`: the fixed instructions around the
      comma-separated vocabulary. */
  function SystemPrompt(vocab: seq<string>): string {
    SystemPromptHead + Join(vocab, ", ") + SystemPromptTail
  }

  lemma {:induction false} JoinContains(parts: seq<string>, sep: string, i: int)
    requires 0 <= i < |parts|
    ensures Contains(Join(parts, sep), parts[i])
  {
    var j := Join(parts, sep);
    if i == 0 {
      if |parts| > 1 {
        assert j[0..|parts[0]|] == parts[0];
      }
      assert OccursAt(j, parts[0], 0);
    } else {
      JoinContains(parts[1..], sep, i - 1);
      var rest := Join(parts[1..], sep);
      var k :| OccursAt(rest, parts[i], k);
      var off := |parts[0] + sep|;
      assert j == parts[0] + sep + rest;
      assert j[off + k..off + k + |parts[i]|] == rest[k..k + |parts[i]|];
      assert OccursAt(j, parts[i], off + k);
    }
  }

  lemma {:induction false} ContainsInMiddle(a: string, m: string, z: string, x: string)
    requires Contains(m, x)
    ensures Contains(a + m + z, x)
  {
    var k :| OccursAt(m, x, k);
    var s := a + m + z;
    assert s[|a| + k..|a| + k + |x|] == m[k..k + |x|];
    assert OccursAt(s, x, |a| + k);
  }

  /** Every category of the vocabulary is named in the system prompt. */
  lemma SystemPromptNamesEveryCategory(vocab: seq<string>, i: int)
    requires 0 <= i < |vocab|
    ensures Contains(SystemPrompt(vocab), vocab[i])
  {
    JoinContains(vocab, ", ", i);
    ContainsInMiddle(SystemPromptHead, Join(vocab, ", "), SystemPromptTail, vocab[i]);
  }

  const UserPromptHead: string := "Please categorize this email:\n\n"
  const MaxPromptContent: nat := 3000

  /** `_build_user_prompt`: a fixed heading and the content, cut to 3000
      characters plus "..." when longer. */
  function UserPrompt(email: EmailMessage): (p: string)
    ensures StartsWith(p, UserPromptHead)
    ensures var c := ContentForCategorization(email);
            |c| <= MaxPromptContent ==> p == UserPromptHead + c
    ensures var c := ContentForCategorization(email);
            |c| > MaxPromptContent ==> p == UserPromptHead + c[..MaxPromptContent] + "..."
    ensures |p| <= |UserPromptHead| + MaxPromptContent + 3
  {
    var p := UserPromptHead + Ellipsize(ContentForCategorization(email), MaxPromptContent);
    assert p[..|UserPromptHead|] == UserPromptHead;
    p
  }

  // ---------------------------------------------------------------------
  // Decoded responses

  /** A decoded JSON value; composite values and numbers carry `text`, what
      Python's `str()` prints for them. */
  datatype Json =
    | JNull
    | JBool(b: bool)
    | JNumber(value: real, isInt: bool, text: string)
    | JString(s: string)
    | JArray(text: string)
    | JObject(fields: map<string, Json>, text: string)

  /** The outcome of `json.loads` on the response text. */
  datatype Decoding = Decoded(data: Json) | DecodeError

  /** `_parse_gpt_response` either returns a Category or raises. */
  datatype ParseOutcome = Parsed(category: Category) | Raised(message: string)

  /** The Python type name printed in error messages. */
  function TypeName(j: Json): string {
    match j
    case JNull => "NoneType"
    case JBool(_) => "bool"
    case JNumber(_, isInt, _) => if isInt then "int" else "float"
    case JString(_) => "str"
    case JArray(_) => "list"
    case JObject(_, _) => "dict"
  }

  /** `str(value)`. */
  function Render(j: Json): string {
    match j
    case JNull => "None"
    case JBool(b) => if b then "True" else "False"
    case JNumber(_, _, text) => text
    case JString(s) => s
    case JArray(text) => text
    case JObject(_, text) => text
  }

  /** Python's numbers, booleans included (`bool` is a subclass of `int`). */
  function NumberValue(j: Json): Option<real> {
    match j
    case JBool(b) => Some(if b then 1.0 else 0.0)
    case JNumber(v, _, _) => Some(v)
    case _ => None
  }

  function Get(fields: map<string, Json>, key: string, default: Json): Json {
    if key in fields then fields[key] else default
  }

  const NoReasoning: string := "No reasoning provided"

  /** The category field names a vocabulary entry. */
  predicate CategoryAccepted(vocab: seq<string>, category: Json) {
    category.JString? && category.s in vocab
  }

  function Max(a: real, b: real): real {
    if a >= b then a else b
  }

  /** The decoded-record branch: defaults for missing fields, "Other" with
      confidence lowered by 0.3 (not below 0) for a category outside the
      vocabulary, and 0.5 for a confidence that is not a number in [0, 1]. */
  function ParseRecord(vocab: seq<string>, fields: map<string, Json>): ParseOutcome {
    var category := Get(fields, "category", JString("Other"));
    var confidence := Get(fields, "confidence", JNumber(0.0, false, "0.0"));
    var reasoning := Get(fields, "reasoning", JString(NoReasoning));
    var step: Result<(string, Option<real>)> :=
      if CategoryAccepted(vocab, category) then Ok((category.s, NumberValue(confidence)))
      else if NumberValue(confidence).None? then
        Err("unsupported operand type(s) for -: '" + TypeName(confidence) + "' and 'float'")
      else Ok(("Other", Some(Max(0.0, NumberValue(confidence).value - 0.3))));
    match step
    case Err(e) => Raised(e)
    case Ok((name, c)) =>
      var final := if c.Some? && 0.0 <= c.value <= 1.0 then c.value else 0.5;
      Parsed(Category(name, None, Some(final), Some(Render(reasoning))))
  }

  // ---------------------------------------------------------------------
  // The word scan used when the response is not JSON

  /** A regular-expression word character (ASCII letters, digits and `_`). */
  predicate IsWordChar(c: char) {
    ('a' <= c <= 'z') || ('A' <= c <= 'Z') || ('0' <= c <= '9') || c == '_'
  }

  /** `\b` at position `i`: a word character on exactly one side. */
  predicate Boundary(t: string, i: int)
    requires 0 <= i <= |t|
  {
    (i > 0 && IsWordChar(t[i - 1])) != (i < |t| && IsWordChar(t[i]))
  }

  /** `\b` + `alt` (ignoring case) + `\b` matches at position `i`. */
  predicate MatchesAt(t: string, alt: string, i: int) {
    0 <= i && i + |alt| <= |t| && Boundary(t, i)
    && ToLower(t[i..i + |alt|]) == ToLower(alt) && Boundary(t, i + |alt|)
  }

  /** The alternation `cat1|cat2|…`; with no categories the group is empty
      and matches the empty string. */
  function Alternatives(vocab: seq<string>): (alts: seq<string>)
    ensures alts != []
  {
    if vocab == [] then [""] else vocab
  }

  /** The first alternative, at index `k` or later, that matches at `i`. */
  function FirstAlternative(t: string, alts: seq<string>, i: int, k: nat): (r: Option<nat>)
    requires k <= |alts|
    ensures r.Some? ==> k <= r.value < |alts| && MatchesAt(t, alts[r.value], i)
    ensures r.Some? ==> forall m :: k <= m < r.value ==> !MatchesAt(t, alts[m], i)
    ensures r.None? ==> forall m :: k <= m < |alts| ==> !MatchesAt(t, alts[m], i)
    decreases |alts| - k
  {
    if k == |alts| then None
    else if MatchesAt(t, alts[k], i) then Some(k)
    else FirstAlternative(t, alts, i, k + 1)
  }

  datatype Hit = Hit(pos: nat, alt: nat)

  /** `re.search` from position `i`: the leftmost position where some
      alternative matches, and the first such alternative there. */
  function Search(t: string, alts: seq<string>, i: nat): (r: Option<Hit>)
    requires i <= |t|
    ensures r.Some? ==> i <= r.value.pos <= |t| && r.value.alt < |alts|
                        && MatchesAt(t, alts[r.value.alt], r.value.pos)
    ensures r.Some? ==> forall q, m :: i <= q < r.value.pos && 0 <= m < |alts| ==> !MatchesAt(t, alts[m], q)
    ensures r.Some? ==> forall m :: 0 <= m < r.value.alt ==> !MatchesAt(t, alts[m], r.value.pos)
    ensures r.None? ==> forall q, m :: i <= q <= |t| && 0 <= m < |alts| ==> !MatchesAt(t, alts[m], q)
    decreases |t| - i
  {
    var k := FirstAlternative(t, alts, i, 0);
    if k.Some? then Some(Hit(i, k.value))
    else if i == |t| then None
    else Search(t, alts, i + 1)
  }

  /** The vocabulary spelling of a matched word: the first category equal to
      it ignoring case, or the word itself. */
  function Canonical(vocab: seq<string>, word: string): (r: string)
    ensures r in vocab || r == word
    ensures r in vocab ==> ToLower(r) == ToLower(word)
    ensures r !in vocab ==> forall j :: 0 <= j < |vocab| ==> ToLower(vocab[j]) != ToLower(word)
  {
    if vocab == [] then word
    else if ToLower(vocab[0]) == ToLower(word) then vocab[0]
    else
      var r := Canonical(vocab[1..], word);
      assert forall j :: 1 <= j < |vocab| ==> vocab[j] == vocab[1..][j - 1];
      r
  }

  /** The spelling reported is that of the first category equal to the
      word ignoring case. */
  lemma {:induction false} CanonicalIsFirst(vocab: seq<string>, word: string, j: int)
    requires 0 <= j < |vocab| && ToLower(vocab[j]) == ToLower(word)
    requires forall i :: 0 <= i < j ==> ToLower(vocab[i]) != ToLower(word)
    ensures Canonical(vocab, word) == vocab[j]
  {
    if j > 0 {
      CanonicalIsFirst(vocab[1..], word, j - 1);
    }
  }

  const ScanConfidence: real := 0.3
  const ScanReasoning: string := "Extracted from non-JSON response"
  const FallbackReasoning: string := "Could not parse response"

  /** The branch taken when the text is not JSON. */
  function ScanResponse(vocab: seq<string>, t: string): Category {
    var alts := Alternatives(vocab);
    match Search(t, alts, 0)
    case None => Category("Other", None, Some(0.0), Some(FallbackReasoning))
    case Some(hit) =>
      var word := t[hit.pos..hit.pos + |alts[hit.alt]|];
      Category(Canonical(vocab, word), None, Some(ScanConfidence), Some(ScanReasoning))
  }

  /** `_parse_gpt_response`. The only ways it raises are a decoded value
      that is not an object and a non-numeric confidence next to a rejected
      category; whatever it returns has a confidence in [0, 1] and, for a
      non-empty vocabulary, a category name from the vocabulary or "Other". */
  function ParseGptResponse(vocab: seq<string>, t: string, d: Decoding): (r: ParseOutcome)
    ensures r.Raised? <==>
      (d.Decoded? && (!d.data.JObject?
       || (!CategoryAccepted(vocab, Get(d.data.fields, "category", JString("Other")))
           && NumberValue(Get(d.data.fields, "confidence", JNumber(0.0, false, "0.0"))).None?)))
    ensures r.Parsed? ==> ValidCategory(r.category) && r.category.confidence.Some?
                          && r.category.labelId.None? && r.category.reasoning.Some?
    ensures r.Parsed? && vocab != [] ==> r.category.name in vocab || r.category.name == "Other"
    ensures d.Decoded? && !d.data.JObject? ==>
              r == Raised("'" + TypeName(d.data) + "' object has no attribute 'get'")
  {
    match d
    case DecodeError =>
      var c := ScanResponse(vocab, t);
      assert vocab != [] ==> c.name in vocab || c.name == "Other" by {
        var alts := Alternatives(vocab);
        var hit := Search(t, alts, 0);
        if vocab != [] && hit.Some? {
          var h := hit.value;
          var word := t[h.pos..h.pos + |alts[h.alt]|];
          assert alts[h.alt] in vocab && ToLower(alts[h.alt]) == ToLower(word);
        }
      }
      Parsed(c)
    case Decoded(data) =>
      if data.JObject? then ParseRecord(vocab, data.fields)
      else Raised("'" + TypeName(data) + "' object has no attribute 'get'")
  }

  /** Missing fields take their defaults: an empty object gives "Other" with
      confidence 0.0 (or, if "Other" is a category, the same) and the default
      reasoning. */
  lemma EmptyRecordDefaults(vocab: seq<string>)
    ensures ParseRecord(vocab, map[]) == Parsed(Category("Other", None, Some(0.0), Some(NoReasoning)))
  {
  }

  /** A valid category keeps its name and an in-range confidence. */
  lemma ValidRecordKept(vocab: seq<string>, fields: map<string, Json>, name: string, c: real)
    requires "category" in fields && fields["category"] == JString(name) && name in vocab
    requires "confidence" in fields && fields["confidence"].JNumber? && fields["confidence"].value == c
    requires 0.0 <= c <= 1.0
    ensures ParseRecord(vocab, fields).Parsed?
    ensures ParseRecord(vocab, fields).category.name == name
    ensures ParseRecord(vocab, fields).category.confidence == Some(c)
  {
  }

  /** A category outside the vocabulary becomes "Other" with the confidence
      lowered by 0.3, floored at 0, even when "Other" is not a category. */
  lemma RejectedCategoryLowersConfidence(vocab: seq<string>, fields: map<string, Json>, c: real)
    requires !CategoryAccepted(vocab, Get(fields, "category", JString("Other")))
    requires "confidence" in fields && fields["confidence"].JNumber? && fields["confidence"].value == c
    requires c <= 1.3
    ensures ParseRecord(vocab, fields).Parsed?
    ensures ParseRecord(vocab, fields).category.name == "Other"
    ensures ParseRecord(vocab, fields).category.confidence == Some(if c >= 0.3 then c - 0.3 else 0.0)
  {
  }

  /** An out-of-range confidence next to a valid category becomes 0.5. */
  lemma OutOfRangeConfidenceIsHalf(vocab: seq<string>, fields: map<string, Json>, c: real)
    requires CategoryAccepted(vocab, Get(fields, "category", JString("Other")))
    requires "confidence" in fields && fields["confidence"].JNumber? && fields["confidence"].value == c
    requires c < 0.0 || c > 1.0
    ensures ParseRecord(vocab, fields).Parsed?
    ensures ParseRecord(vocab, fields).category.confidence == Some(0.5)
  {
  }

  /** `re.search` finds the leftmost matching position and, there, the
      first matching alternative. */
  lemma {:induction false} SearchFindsLeftmost(t: string, alts: seq<string>, p: nat, k: nat)
    requires k < |alts| && MatchesAt(t, alts[k], p)
    requires forall q, m :: 0 <= q < p && 0 <= m < |alts| ==> !MatchesAt(t, alts[m], q)
    requires forall m :: 0 <= m < k ==> !MatchesAt(t, alts[m], p)
    ensures Search(t, alts, 0) == Some(Hit(p, k))
  {
    assert p <= |t|;
    var hit := Search(t, alts, 0);
    if hit.None? {
      assert false;
    }
  }

  /** When the text is not JSON, the scan reports the vocabulary spelling of
      the leftmost whole-word match, preferring earlier categories at the
      same position, with confidence 0.3. */
  lemma ScanFindsLeftmostWord(vocab: seq<string>, t: string, p: nat, k: nat)
    requires vocab != [] && k < |vocab| && MatchesAt(t, vocab[k], p)
    requires forall q, m :: 0 <= q < p && 0 <= m < |vocab| ==> !MatchesAt(t, vocab[m], q)
    requires forall m :: 0 <= m < k ==> !MatchesAt(t, vocab[m], p)
    ensures var c := ParseGptResponse(vocab, t, DecodeError).category;
            c.name == Canonical(vocab, t[p..p + |vocab[k]|])
            && ToLower(c.name) == ToLower(vocab[k])
            && c.confidence == Some(ScanConfidence) && c.reasoning == Some(ScanReasoning)
  {
    SearchFindsLeftmost(t, vocab, p, k);
    var word := t[p..p + |vocab[k]|];
    assert ToLower(vocab[k]) == ToLower(word);
    ScanAtHit(vocab, t, p, k);
  }

  /** The non-JSON branch reports the vocabulary spelling of the word the
      search hit. */
  lemma ScanAtHit(vocab: seq<string>, t: string, p: nat, k: nat)
    requires vocab != [] && Search(t, vocab, 0) == Some(Hit(p, k))
    ensures k < |vocab| && p + |vocab[k]| <= |t|
    ensures ParseGptResponse(vocab, t, DecodeError).category
            == Category(Canonical(vocab, t[p..p + |vocab[k]|]), None, Some(ScanConfidence), Some(ScanReasoning))
  {
    UndecodedIsScanned(vocab, t);
    ScanResponseAtHit(vocab, t, p, k);
  }

  /** Text that is not JSON goes to the scan. */
  lemma UndecodedIsScanned(vocab: seq<string>, t: string)
    ensures ParseGptResponse(vocab, t, DecodeError) == Parsed(ScanResponse(vocab, t))
  {
  }

  lemma ScanResponseAtHit(vocab: seq<string>, t: string, p: nat, k: nat)
    requires vocab != [] && Search(t, vocab, 0) == Some(Hit(p, k))
    ensures k < |vocab| && p + |vocab[k]| <= |t|
    ensures ScanResponse(vocab, t)
            == Category(Canonical(vocab, t[p..p + |vocab[k]|]), None, Some(ScanConfidence), Some(ScanReasoning))
  {
  }

  /** Without any whole-word match the parser falls back to "Other", 0.0. */
  lemma ScanWithoutMatch(vocab: seq<string>, t: string)
    requires forall q, m :: 0 <= q <= |t| && 0 <= m < |Alternatives(vocab)| ==> !MatchesAt(t, Alternatives(vocab)[m], q)
    ensures ParseGptResponse(vocab, t, DecodeError)
            == Parsed(Category("Other", None, Some(0.0), Some(FallbackReasoning)))
  {
  }

  /** A category word glued to other word characters is not a match. */
  lemma {:induction false} NoMatchInsideWord(t: string, alt: string, i: int)
    requires 0 < i && i + |alt| <= |t| && alt != []
    requires IsWordChar(t[i - 1]) && IsWordChar(t[i])
    ensures !MatchesAt(t, alt, i)
  {
  }

  // ---------------------------------------------------------------------
  // The completion call

  /** What is sent to the chat-completion service: the configured model,
      the system and user messages (rendered from the vocabulary and the
      email by `SystemMessage` and `UserMessage`), the sampling settings and
      whether `response_format={"type": "json_object"}` is passed. */
  datatype Request = Request(model: string, categories: seq<string>, email: EmailMessage,
                             maxTokens: int, temperature: real, jsonMode: bool)

  function SystemMessage(r: Request): string {
    SystemPrompt(r.categories)
  }

  function UserMessage(r: Request): string {
    UserPrompt(r.email)
  }

  /** The service's answer: the first choice's content, or the text of the
      exception it raised. */
  datatype Reply = Completed(content: Option<string>) | Failed(error: string)

  /** The configured model and sampling settings, the completion service
      and the JSON decoder. */
  datatype Backend = Backend(model: string, maxTokens: int, temperature: real,
                             complete: Request -> Reply, decode: string -> Decoding)

  /** The outcome of `categorize_email`, with the requests it sent, in order. */
  datatype Classification = Classification(category: Category, requests: seq<Request>)

  function FailureCategory(message: string): Category {
    Category("Other", None, Some(0.0), Some("Categorization failed: " + message))
  }

  function FirstRequest(vocab: seq<string>, b: Backend, email: EmailMessage): Request {
    Request(b.model, vocab, email, b.maxTokens, b.temperature, true)
  }

  /** What becomes of the service's reply. */
  function Interpret(vocab: seq<string>, b: Backend, reply: Reply): (c: Category)
    ensures ValidCategory(c) && c.confidence.Some?
    ensures vocab != [] ==> c.name in vocab || c.name == "Other"
  {
    match reply
    case Failed(e) => FailureCategory(e)
    case Completed(None) => FailureCategory("'NoneType' object has no attribute 'strip'")
    case Completed(Some(content)) =>
      var t := Strip(content);
      match ParseGptResponse(vocab, t, b.decode(t))
      case Parsed(c) => c
      case Raised(e) => FailureCategory(e)
  }

  /** `categorize_email`: one request in JSON mode, repeated once in text
      mode only if the service rejects it with an error mentioning
      "response_format"; any failure on the way, parser exceptions included,
      becomes "Other" with confidence 0.0 and the error in the reasoning. */
  function CategorizeEmail(vocab: seq<string>, b: Backend, email: EmailMessage): (r: Classification)
    ensures ValidCategory(r.category) && r.category.confidence.Some?
    ensures vocab != [] ==> r.category.name in vocab || r.category.name == "Other"
    ensures 1 <= |r.requests| <= 2 && r.requests[0] == FirstRequest(vocab, b, email)
    ensures r.requests[0].jsonMode && r.requests[0].categories == vocab && r.requests[0].email == email
    ensures |r.requests| == 2 <==>
              b.complete(r.requests[0]).Failed? && Contains(b.complete(r.requests[0]).error, "response_format")
    ensures |r.requests| == 2 ==> r.requests[1] == r.requests[0].(jsonMode := false)
    ensures r.category == Interpret(vocab, b, b.complete(r.requests[|r.requests| - 1]))
  {
    var first := FirstRequest(vocab, b, email);
    var reply1 := b.complete(first);
    if reply1.Failed? && Contains(reply1.error, "response_format") then
      var second := first.(jsonMode := false);
      Classification(Interpret(vocab, b, b.complete(second)), [first, second])
    else
      Classification(Interpret(vocab, b, reply1), [first])
  }

  /** An error that is not about `response_format` is not retried but
      reported in the fallback category. */
  lemma OtherErrorsNotRetried(vocab: seq<string>, b: Backend, email: EmailMessage)
    requires b.complete(FirstRequest(vocab, b, email)).Failed?
    requires !Contains(b.complete(FirstRequest(vocab, b, email)).error, "response_format")
    ensures CategorizeEmail(vocab, b, email)
            == Classification(FailureCategory(b.complete(FirstRequest(vocab, b, email)).error),
                              [FirstRequest(vocab, b, email)])
  {
  }

  /** A response that is not a JSON object makes the parser raise, and
      `categorize_email` turns that into the fallback category. */
  lemma NonRecordBecomesFailure(vocab: seq<string>, b: Backend, email: EmailMessage, content: string)
    requires b.complete(FirstRequest(vocab, b, email)) == Completed(Some(content))
    requires b.decode(Strip(content)).Decoded? && !b.decode(Strip(content)).data.JObject?
    ensures CategorizeEmail(vocab, b, email).category
            == FailureCategory("'" + TypeName(b.decode(Strip(content)).data) + "' object has no attribute 'get'")
  {
    var t := Strip(content);
    assert ParseGptResponse(vocab, t, b.decode(t)).Raised?;
    assert Interpret(vocab, b, Completed(Some(content)))
           == FailureCategory("'" + TypeName(b.decode(t).data) + "' object has no attribute 'get'");
  }

  // ---------------------------------------------------------------------
  // Batch

  /** `categorize_email` as a function from email to category. */
  function CategorizeWith(vocab: seq<string>, b: Backend): EmailMessage -> Category {
    email => CategorizeEmail(vocab, b, email).category
  }

  /** The categories of a batch, one per email in input order. */
  function MapCategories(f: EmailMessage -> Category, emails: seq<EmailMessage>): seq<Category> {
    if emails == [] then []
    else MapCategories(f, emails[..|emails| - 1]) + [f(emails[|emails| - 1])]
  }

  /** The batch holds exactly one category per email, in input order. */
  lemma {:induction false} MapCategoriesPointwise(f: EmailMessage -> Category, emails: seq<EmailMessage>)
    ensures |MapCategories(f, emails)| == |emails|
    ensures forall i :: 0 <= i < |emails| ==> MapCategories(f, emails)[i] == f(emails[i])
  {
    if emails != [] {
      var n := |emails| - 1;
      MapCategoriesPointwise(f, emails[..n]);
      assert forall i :: 0 <= i < n ==> emails[..n][i] == emails[i];
    }
  }

  /** Every category of a batch is what `categorize_email` gives for the
      email at the same position, so it is valid and, for a non-empty
      vocabulary, a category of the vocabulary or "Other". */
  lemma BatchPointwise(vocab: seq<string>, b: Backend, emails: seq<EmailMessage>, i: int)
    requires 0 <= i < |emails|
    ensures |MapCategories(CategorizeWith(vocab, b), emails)| == |emails|
    ensures MapCategories(CategorizeWith(vocab, b), emails)[i] == CategorizeEmail(vocab, b, emails[i]).category
    ensures ValidCategory(MapCategories(CategorizeWith(vocab, b), emails)[i])
  {
    MapCategoriesPointwise(CategorizeWith(vocab, b), emails);
  }

  /** `categorize_emails_batch` with the average logged only for a
      non-empty batch. The loop's exception handler is never entered,
      because `categorize_email` does not raise. */
  method CategorizeBatch(vocab: seq<string>, b: Backend, emails: seq<EmailMessage>)
    returns (categories: seq<Category>)
    ensures categories == MapCategories(CategorizeWith(vocab, b), emails)
  {
    var categorize := CategorizeWith(vocab, b);
    categories := [];
    var i := 0;
    while i < |emails|
      invariant 0 <= i <= |emails|
      invariant categories == MapCategories(categorize, emails[..i])
    {
      var category := categorize(emails[i]);
      assert emails[..i + 1][..i] == emails[..i];
      categories := categories + [category];
      i := i + 1;
    }
    assert emails[..i] == emails;
  }

  /** `categorize_emails_batch` as written: after the loop it logs the
      average time per email, dividing by the number of emails, so an empty
      batch raises ZeroDivisionError instead of returning []. */
  method CategorizeBatchAsWritten(vocab: seq<string>, b: Backend, emails: seq<EmailMessage>)
    returns (r: Result<seq<Category>>)
    ensures r.Err? <==> emails == []
    ensures r.Err? ==> r.error == "float division by zero"
    ensures r.Ok? ==> r.value == MapCategories(CategorizeWith(vocab, b), emails)
  {
    var categories := CategorizeBatch(vocab, b, emails);
    if |emails| == 0 {
      return Err("float division by zero");
    }
    return Ok(categories);
  }

  // ---------------------------------------------------------------------
  // Statistics

  /** A (category name, count) entry of the distribution. */
  datatype Entry = Entry(name: string, count: nat)

  /** What `get_category_stats` reports, average confidence aside. */
  datatype Stats = Stats(
    total: nat,
    distribution: seq<Entry>,
    mostCommon: Option<string>,
    highConfidence: nat,
    lowConfidence: nat)

  function Names(categories: seq<Category>): (names: seq<string>)
    ensures |names| == |categories|
    ensures forall i :: 0 <= i < |categories| ==> names[i] == categories[i].name
  {
    seq(|categories|, i requires 0 <= i < |categories| => categories[i].name)
  }

  /** The count dictionary before sorting: keys in first-seen order. */
  function Tally(keys: seq<string>, names: seq<string>): (es: seq<Entry>)
    ensures |es| == |keys|
    ensures forall i :: 0 <= i < |keys| ==> es[i] == Entry(keys[i], Count(names, keys[i]))
  {
    seq(|keys|, i requires 0 <= i < |keys| => Entry(keys[i], Count(names, keys[i])))
  }

  /** Inserts `e` before the first entry whose count is not larger: the
      step of a stable sort by descending count for an `e` that came first. */
  function Insert(e: Entry, sorted: seq<Entry>): (r: seq<Entry>)
    ensures |r| == |sorted| + 1
    ensures multiset(r) == multiset(sorted) + multiset{e}
  {
    if sorted == [] || sorted[0].count <= e.count then [e] + sorted
    else
      assert sorted == [sorted[0]] + sorted[1..];
      [sorted[0]] + Insert(e, sorted[1..])
  }

  /** `sorted(items, key=count, reverse=True)`: stable, so equal counts keep
      their first-seen order. */
  function SortByCount(es: seq<Entry>): (r: seq<Entry>)
    ensures |r| == |es|
    ensures multiset(r) == multiset(es)
  {
    if es == [] then []
    else
      assert es == [es[0]] + es[1..];
      Insert(es[0], SortByCount(es[1..]))
  }

  /** Each entry's count is at least the next one's. */
  predicate SortedDescending(es: seq<Entry>) {
    forall i :: 0 <= i < |es| - 1 ==> es[i].count >= es[i + 1].count
  }

  lemma {:induction false} InsertSorted(e: Entry, sorted: seq<Entry>)
    requires SortedDescending(sorted)
    ensures SortedDescending(Insert(e, sorted))
  {
    if sorted != [] && sorted[0].count > e.count {
      var rest := sorted[1..];
      InsertSorted(e, rest);
      var r := Insert(e, rest);
      assert r[0] == e || r[0] == rest[0];
      assert forall i :: 0 <= i < |rest| - 1 ==> rest[i] == sorted[i + 1];
      assert forall i :: 0 < i < |r| ==> ([sorted[0]] + r)[i] == r[i - 1];
    }
  }

  lemma {:induction false} SortSorted(es: seq<Entry>)
    ensures SortedDescending(SortByCount(es))
  {
    if es != [] {
      SortSorted(es[1..]);
      InsertSorted(es[0], SortByCount(es[1..]));
    }
  }

  function SumCounts(es: seq<Entry>): nat {
    if es == [] then 0 else es[0].count + SumCounts(es[1..])
  }

  lemma {:induction false} InsertSum(e: Entry, sorted: seq<Entry>)
    ensures SumCounts(Insert(e, sorted)) == e.count + SumCounts(sorted)
  {
    if sorted != [] && sorted[0].count > e.count {
      InsertSum(e, sorted[1..]);
      assert ([sorted[0]] + Insert(e, sorted[1..]))[1..] == Insert(e, sorted[1..]);
    }
  }

  lemma {:induction false} SortSum(es: seq<Entry>)
    ensures SumCounts(SortByCount(es)) == SumCounts(es)
  {
    if es != [] {
      SortSum(es[1..]);
      InsertSum(es[0], SortByCount(es[1..]));
    }
  }

  lemma {:induction false} TallySum(keys: seq<string>, names: seq<string>)
    ensures SumCounts(Tally(keys, names)) == SumOfCounts(keys, names)
  {
    if keys != [] {
      TallySum(keys[1..], names);
      assert Tally(keys, names)[1..] == Tally(keys[1..], names);
    }
  }

  /** The first entry with the largest count. */
  function FirstMax(es: seq<Entry>): (m: Entry)
    requires es != []
    ensures m in es
    ensures forall i :: 0 <= i < |es| ==> es[i].count <= m.count
  {
    if |es| == 1 then es[0]
    else
      var rest := FirstMax(es[1..]);
      assert forall i :: 1 <= i < |es| ==> es[i] == es[1..][i - 1];
      if es[0].count >= rest.count then es[0] else rest
  }

  /** No entry before the first maximum reaches its count. */
  lemma {:induction false} FirstMaxIsFirst(es: seq<Entry>, i: int)
    requires 0 <= i < |es|
    requires es[i] == FirstMax(es)
    requires forall j :: 0 <= j < i ==> es[j] != es[i]
    ensures forall j :: 0 <= j < i ==> es[j].count < es[i].count
  {
    if i > 0 {
      var rest := FirstMax(es[1..]);
      if es[0].count >= rest.count {
        assert false;
      }
      assert es[i] == es[1..][i - 1];
      FirstMaxIsFirst(es[1..], i - 1);
      forall j | 0 < j < i ensures es[j].count < es[i].count {
        assert es[j] == es[1..][j - 1];
      }
    }
  }

  /** The head of the sorted distribution is the first-seen entry with the
      largest count. */
  lemma {:induction false} SortHead(es: seq<Entry>)
    requires es != []
    ensures SortByCount(es)[0] == FirstMax(es)
  {
    var e, rest := es[0], es[1..];
    var sorted := SortByCount(rest);
    assert SortByCount(es) == Insert(e, sorted);
    if rest != [] {
      SortHead(rest);
      SortSorted(rest);
      FirstMaxOfSorted(sorted);
      var m := FirstMax(rest);
      assert FirstMax(es) == if e.count >= m.count then e else m;
      assert Insert(e, sorted)[0] == if sorted[0].count <= e.count then e else sorted[0];
    }
  }

  lemma {:induction false} FirstMaxOfSorted(sorted: seq<Entry>)
    requires sorted != [] && SortedDescending(sorted)
    ensures FirstMax(sorted) == sorted[0]
  {
    if |sorted| > 1 {
      var rest := sorted[1..];
      assert forall i :: 0 <= i < |rest| - 1 ==> rest[i] == sorted[i + 1];
      FirstMaxOfSorted(rest);
    }
  }

  function CountHigh(categories: seq<Category>): nat {
    if categories == [] then 0
    else
      var c := categories[|categories| - 1].confidence;
      CountHigh(categories[..|categories| - 1]) + (if c.Some? && c.value != 0.0 && c.value >= 0.8 then 1 else 0)
  }

  function CountLow(categories: seq<Category>): nat {
    if categories == [] then 0
    else
      var c := categories[|categories| - 1].confidence;
      CountLow(categories[..|categories| - 1]) + (if c.Some? && c.value != 0.0 && c.value < 0.5 then 1 else 0)
  }

  /** `get_category_stats`: nothing for an empty list; otherwise the counts
      per name (a dict filled in list order), sorted stably by descending
      count, its first name, and the numbers of truthy confidences at least
      0.8 and below 0.5. */
  method CategoryStats(categories: seq<Category>) returns (r: Option<Stats>)
    ensures r.None? <==> categories == []
    ensures r.Some? ==>
              var names := Names(categories);
              var dist := SortByCount(Tally(FirstSeen(names), names));
              r.value == Stats(|categories|, dist, Some(dist[0].name), CountHigh(categories), CountLow(categories))
  {
    if categories == [] {
      return None;
    }
    var keys, counts := TallyNames(Names(categories));
    var entries := seq(|keys|, j requires 0 <= j < |keys| => Entry(keys[j], counts[keys[j]]));
    assert entries == Tally(keys, Names(categories));
    var dist := SortByCount(entries);
    r := Some(Stats(|categories|, dist, Some(dist[0].name), CountHigh(categories), CountLow(categories)));
  }

  /** The counting loop of `get_category_stats`: a dict from name to count
      whose keys are in first-seen order. */
  method TallyNames(names: seq<string>) returns (keys: seq<string>, counts: map<string, nat>)
    ensures keys == FirstSeen(names)
    ensures forall k :: k in counts <==> k in keys
    ensures forall k :: k in counts ==> counts[k] == Count(names, k)
  {
    keys, counts := [], map[];
    var i := 0;
    while i < |names|
      invariant 0 <= i <= |names|
      invariant keys == FirstSeen(names[..i])
      invariant forall k :: k in counts <==> k in keys
      invariant forall k :: k in counts ==> counts[k] == Count(names[..i], k)
    {
      var name := names[i];
      ghost var before := names[..i];
      assert names[..i + 1] == before + [name];
      FirstSeenSnoc(before, name);
      ghost var old_counts := counts;
      if name in counts {
        counts := counts[name := counts[name] + 1];
      } else {
        keys := keys + [name];
        counts := counts[name := 1];
      }
      forall k | k in counts ensures counts[k] == Count(before + [name], k) {
        CountSnoc(before, name, k);
      }
      i := i + 1;
    }
    assert names[..i] == names;
  }

  /** The distribution counts every category once: its counts sum to the
      number of categories. */
  lemma DistributionSumsToTotal(categories: seq<Category>)
    ensures var names := Names(categories);
            SumCounts(SortByCount(Tally(FirstSeen(names), names))) == |categories|
  {
    var names := Names(categories);
    var keys := FirstSeen(names);
    SortSum(Tally(keys, names));
    TallySum(keys, names);
    SumOfCountsIsLength(keys, names);
  }

  /** The distribution is ordered by descending count. */
  lemma DistributionSorted(categories: seq<Category>)
    ensures var names := Names(categories);
            SortedDescending(SortByCount(Tally(FirstSeen(names), names)))
  {
    var names := Names(categories);
    SortSorted(Tally(FirstSeen(names), names));
  }

  /** The distribution has an entry for exactly the names that occur, each
      with its number of occurrences. */
  lemma DistributionEntries(categories: seq<Category>, n: string)
    ensures var names := Names(categories);
            var dist := SortByCount(Tally(FirstSeen(names), names));
            n in names <==> Entry(n, Count(names, n)) in multiset(dist)
    ensures var names := Names(categories);
            var dist := SortByCount(Tally(FirstSeen(names), names));
            forall e :: e in multiset(dist) ==> e.name in names && e.count == Count(names, e.name)
  {
    var names := Names(categories);
    var keys := FirstSeen(names);
    var tally := Tally(keys, names);
    if n in names {
      var j :| 0 <= j < |keys| && keys[j] == n;
      assert tally[j] in multiset(tally);
    }
    forall e | e in multiset(tally) ensures e.name in names && e.count == Count(names, e.name) {
      var j :| 0 <= j < |tally| && tally[j] == e;
      assert keys[j] in keys;
    }
  }

  /** The most common category is the first-seen one with the largest count:
      every name seen before it has a smaller count. */
  lemma MostCommonIsFirstSeenMax(categories: seq<Category>)
    requires categories != []
    ensures var names := Names(categories);
            var tally := Tally(FirstSeen(names), names);
            tally != [] && SortByCount(tally)[0] == FirstMax(tally)
            && (forall e :: e in tally ==> e.count <= FirstMax(tally).count)
            && forall k :: 0 <= k < |tally| && tally[k] == FirstMax(tally) ==>
                 forall j :: 0 <= j < k ==> tally[j].count < tally[k].count
  {
    var names := Names(categories);
    var keys := FirstSeen(names);
    var tally := Tally(keys, names);
    assert names[0] in keys;
    SortHead(tally);
    forall k | 0 <= k < |tally| && tally[k] == FirstMax(tally)
      ensures forall j :: 0 <= j < k ==> tally[j].count < tally[k].count
    {
      assert forall j :: 0 <= j < k ==> tally[j].name == keys[j] != keys[k] == tally[k].name;
      FirstMaxIsFirst(tally, k);
    }
  }

  /** An entry without a confidence or with 0.0 counts as neither high nor
      low, wherever it stands in the list: truthiness excludes it. */
  lemma {:induction false} ZeroConfidenceNotCounted(xs: seq<Category>, c: Category, ys: seq<Category>)
    requires c.confidence.None? || c.confidence == Some(0.0)
    ensures CountHigh(xs + [c] + ys) == CountHigh(xs + ys)
    ensures CountLow(xs + [c] + ys) == CountLow(xs + ys)
    decreases |ys|
  {
    var with, without := xs + [c] + ys, xs + ys;
    if ys == [] {
      assert with[..|with| - 1] == xs && without == xs;
    } else {
      var n := |ys| - 1;
      assert with[..|with| - 1] == xs + [c] + ys[..n] && with[|with| - 1] == ys[n];
      assert without[..|without| - 1] == xs + ys[..n] && without[|without| - 1] == ys[n];
      ZeroConfidenceNotCounted(xs, c, ys[..n]);
    }
  }

  // ---------------------------------------------------------------------
  // Vocabulary check

  /** `validate_categories`: false for an empty vocabulary or one with a
      repeated entry; a large vocabulary only draws a warning. */
  function ValidateCategories(vocab: seq<string>): (ok: bool)
    ensures ok <==> vocab != [] && Distinct(vocab)
  {
    SetSizeIffDistinct(vocab);
    vocab != [] && |set c | c in vocab| == |vocab|
  }
}
