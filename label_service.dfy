/** The Gmail label operations the processor relies on (`get_labels`,
    `create_label` and `add_label_to_message` of
    src/gmail_categorizer/gmail_client.py), modelled as an abstract server
    whose state is a value. Other clients of the same account are
    represented by `incoming`: labels that appear in the account just before
    the next create request is handled. */
module LabelService {
  import opened Wrappers
  import opened Text
  import opened Models

  /** A label applied to a message. */
  datatype Applied = Applied(messageId: string, labelId: string)

  datatype Server = Server(
    labels: seq<GmailLabel>,        // the account's labels in listing order
    incoming: seq<GmailLabel>,      // labels another client is about to create
    listingError: Option<string>,   // while present, listing fails with this text
    createError: Option<string>,    // while present, creating a free name fails with this text
    failingMessages: set<string>,   // messages whose modification fails
    nextId: nat,                    // numbering of the ids the server hands out
    listed: nat,                    // successful listings so far
    created: nat,                   // labels created through this client so far
    createCalls: seq<string>,       // names this client asked to create, in order
    applied: seq<Applied>)          // labels applied through this client, in order

  /** The text of the HttpError the API returns for a taken label name,
      shortened: the real text also names the request URI and ends with a
      "Details" part. Only its "409" matters to the processor. */
  const ConflictError: string :=
    "<HttpError " + "409" + " when requesting labels returned \"Label name exists or conflicts\">"

  /** The processor's test for a "label already exists" error. */
  predicate IsConflict(error: string) {
    Contains(error, "409") || Contains(ToLower(error), "exists")
  }

  lemma ConflictErrorIsRecognised()
    ensures IsConflict(ConflictError)
  {
    assert ConflictError[11..14] == "409";
    assert OccursAt(ConflictError, "409", 11);
  }

  /** Some label in `labels` has this name. */
  predicate NameTaken(labels: seq<GmailLabel>, name: string) {
    exists i :: 0 <= i < |labels| && labels[i].name == name
  }

  /** `get_labels`: all labels in order, or the listing error; a failed
      listing leaves the server as it was. */
  function ListLabels(s: Server): (r: (Server, Result<seq<GmailLabel>>))
    ensures r.1.Ok? <==> s.listingError.None?
    ensures r.1.Ok? ==> r.1.value == s.labels && r.0 == s.(listed := s.listed + 1)
    ensures r.1.Err? ==> r.0 == s && r.1.error == s.listingError.value
  {
    match s.listingError
    case Some(e) => (s, Err(e))
    case None => (s.(listed := s.listed + 1), Ok(s.labels))
  }

  /** The id the server gives its next label. */
  function NewLabelId(s: Server): string {
    "Label_" + NatToString(s.nextId)
  }

  /** `create_label` with the HttpError passed on: a taken name (counting
      the labels other clients slipped in) is a 409 conflict, a free name is
      created as a user label unless the server fails the request. */
  function CreateLabel(s: Server, name: string): (r: (Server, Result<GmailLabel>))
    ensures r.0.createCalls == s.createCalls + [name]
    ensures r.0.listed == s.listed && r.0.applied == s.applied && r.0.listingError == s.listingError
    ensures r.1.Ok? <==> !NameTaken(s.labels + s.incoming, name) && s.createError.None?
    ensures NameTaken(s.labels + s.incoming, name) ==> r.1 == Err(ConflictError)
    ensures r.1.Ok? ==> r.1.value == GmailLabel(NewLabelId(s), name, "user", None, None)
                        && r.0.labels == s.labels + s.incoming + [r.1.value]
                        && r.0.created == s.created + 1
    ensures r.1.Err? ==> r.0.labels == s.labels + s.incoming && r.0.created == s.created
    ensures r.0.incoming == []
  {
    var merged := s.labels + s.incoming;
    var s1 := s.(labels := merged, incoming := [], createCalls := s.createCalls + [name]);
    if NameTaken(merged, name) then (s1, Err(ConflictError))
    else if s.createError.Some? then (s1, Err(s.createError.value))
    else
      var made := GmailLabel(NewLabelId(s), name, "user", None, None);
      (s1.(labels := merged + [made], nextId := s.nextId + 1, created := s.created + 1), Ok(made))
  }

  /** `add_label_to_message`: true, with the label recorded, unless the
      server fails the modification. */
  function AddLabel(s: Server, messageId: string, labelId: string): (r: (Server, bool))
    ensures r.1 <==> messageId !in s.failingMessages
    ensures r.1 ==> r.0 == s.(applied := s.applied + [Applied(messageId, labelId)])
    ensures !r.1 ==> r.0 == s
  {
    if messageId in s.failingMessages then (s, false)
    else (s.(applied := s.applied + [Applied(messageId, labelId)]), true)
  }

  const RetryPrefix: string := "RetryError[<Future at "
  const RetrySuffix: string := " state=finished raised HttpError>]"

  /** The text of the tenacity RetryError that `create_label` raises as
      written: its `@retry` has no `reraise=True`, so once the attempts are
      used up the caller sees the wrapper, which names the future's address
      and the exception's class but not its message. */
  function RetryErrorText(futureAddress: string): string {
    RetryPrefix + futureAddress + RetrySuffix
  }

  /** `create_label` as written: any HttpError reaches the caller as a
      RetryError. */
  function CreateLabelAsWritten(s: Server, name: string, futureAddress: string): (r: (Server, Result<GmailLabel>))
    ensures r.0 == CreateLabel(s, name).0
    ensures r.1.Ok? <==> CreateLabel(s, name).1.Ok?
    ensures r.1.Err? ==> r.1.error == RetryErrorText(futureAddress)
  {
    var (s1, result) := CreateLabel(s, name);
    match result
    case Ok(made) => (s1, Ok(made))
    case Err(_) => (s1, Err(RetryErrorText(futureAddress)))
  }

  /** The future's `id()` as `%#x` prints it: "0x" and lower-case hex
      digits. */
  predicate HexAddress(a: string) {
    |a| > 2 && a[0] == '0' && a[1] == 'x'
    && forall i :: 2 <= i < |a| ==> a[i] in "0123456789abcdef"
  }

  /** The wrapper's text passes the processor's conflict test exactly when
      the future's address happens to contain "409": the text never contains
      "exists", and the address is the only part that holds digits. */
  lemma RetryErrorConflictIff(a: string)
    requires HexAddress(a)
    ensures IsConflict(RetryErrorText(a)) <==> Contains(a, "409")
  {
    RetryTextDigits(a);
    RetryTextNoExists(a);
  }

  lemma RetryTextDigits(a: string)
    ensures Contains(RetryErrorText(a), "409") <==> Contains(a, "409")
  {
    RetryFrameHasNoDigits();
    ContainsFramed(RetryPrefix, a, RetrySuffix, "409");
  }

  lemma RetryTextNoExists(a: string)
    requires HexAddress(a)
    ensures !Contains(ToLower(RetryErrorText(a)), "exists")
  {
    RetryTextHasNoEx(a);
    NoPairNoMatch(ToLower(RetryErrorText(a)), "exists");
  }

  /** With the wrapper a 409 is not recognised as a conflict, unless the
      future's address contains "409". */
  lemma ConflictHiddenAsWritten(s: Server, name: string, a: string)
    requires NameTaken(s.labels + s.incoming, name)
    requires HexAddress(a) && !Contains(a, "409")
    ensures CreateLabel(s, name).1.Err? && IsConflict(CreateLabel(s, name).1.error)
    ensures CreateLabelAsWritten(s, name, a).1.Err?
    ensures !IsConflict(CreateLabelAsWritten(s, name, a).1.error)
  {
    ConflictErrorIsRecognised();
    RetryErrorConflictIff(a);
  }

  lemma RetryFrameHasNoDigits()
    ensures forall c :: c in "409" ==> c !in RetryPrefix && c !in RetrySuffix
  {
  }

  /** A needle none of whose characters occur in `p` or `s` occurs in
      `p + a + s` exactly when it occurs in `a`. */
  lemma ContainsFramed(p: string, a: string, s: string, needle: string)
    requires needle != []
    requires forall c :: c in needle ==> c !in p && c !in s
    ensures Contains(p + a + s, needle) <==> Contains(a, needle)
  {
    if Contains(p + a + s, needle) {
      var i :| OccursAt(p + a + s, needle, i);
      OccursInFrame(p, a, s, needle, i);
    }
    if Contains(a, needle) {
      var j :| OccursAt(a, needle, j);
      OccursInMiddle(p, a, s, needle, j);
    }
  }

  lemma OccursInFrame(p: string, a: string, s: string, needle: string, i: int)
    requires needle != []
    requires forall c :: c in needle ==> c !in p && c !in s
    requires OccursAt(p + a + s, needle, i)
    ensures OccursAt(a, needle, i - |p|)
  {
    var t := p + a + s;
    var last := i + |needle| - 1;
    assert t[i] == needle[0] && t[last] == needle[|needle| - 1];
    assert needle[0] in needle && needle[|needle| - 1] in needle;
    forall k | 0 <= k < |p| ensures t[k] != needle[0] {
      assert t[k] == p[k] && p[k] in p;
    }
    forall k | |p| + |a| <= k < |t| ensures t[k] != needle[|needle| - 1] {
      assert t[k] == s[k - |p| - |a|] && s[k - |p| - |a|] in s;
    }
    assert a[i - |p|..i - |p| + |needle|] == t[i..i + |needle|];
  }

  lemma OccursInMiddle(p: string, a: string, s: string, needle: string, j: int)
    requires OccursAt(a, needle, j)
    ensures OccursAt(p + a + s, needle, |p| + j)
  {
    var t := p + a + s;
    assert t[|p| + j..|p| + j + |needle|] == a[j..j + |needle|];
  }

  lemma RetryTextHasNoEx(a: string)
    requires HexAddress(a)
    ensures NoPair(ToLower(RetryErrorText(a)), 'e', 'x')
  {
    var lp, la, ls := ToLower(RetryPrefix), ToLower(a), ToLower(RetrySuffix);
    LowerAppend(RetryPrefix, a);
    LowerAppend(RetryPrefix + a, RetrySuffix);
    PrefixHasNoEx();
    AddressHasNoEx(a);
    SuffixHasNoEx();
    NoPairAppend(lp, la, 'e', 'x');
    NoPairAppend(lp + la, ls, 'e', 'x');
  }

  lemma PrefixHasNoEx()
    ensures NoPair(ToLower(RetryPrefix), 'e', 'x')
    ensures |ToLower(RetryPrefix)| > 0 && ToLower(RetryPrefix)[|RetryPrefix| - 1] == ' '
  {
    LowerKeepsAbsent(RetryPrefix, 'x', 'X');
    NoPairWithout(ToLower(RetryPrefix), 'e', 'x');
  }

  lemma SuffixHasNoEx()
    ensures NoPair(ToLower(RetrySuffix), 'e', 'x')
    ensures |ToLower(RetrySuffix)| > 0 && ToLower(RetrySuffix)[0] == ' '
  {
    LowerKeepsAbsent(RetrySuffix, 'x', 'X');
    NoPairWithout(ToLower(RetrySuffix), 'e', 'x');
  }

  /** Lower-casing leaves a hex address alone, and its one 'x' follows '0'. */
  lemma AddressHasNoEx(a: string)
    requires HexAddress(a)
    ensures ToLower(a) == a
    ensures NoPair(a, 'e', 'x')
  {
    assert forall i :: 2 <= i < |a| ==> a[i] != 'x' && !('A' <= a[i] <= 'Z');
    forall i | 0 <= i < |a| - 1 ensures !(a[i] == 'e' && a[i + 1] == 'x') {
      if i > 0 {
        assert a[i + 1] != 'x';
      }
    }
  }

  lemma LowerKeepsAbsent(s: string, lower: char, upper: char)
    requires lower !in s && upper !in s
    requires forall c :: LowerChar(c) == lower ==> c == lower || c == upper
    ensures lower !in ToLower(s)
  {
  }

  lemma LowerAppend(a: string, b: string)
    ensures ToLower(a + b) == ToLower(a) + ToLower(b)
  {
  }

  /** `a` is never directly followed by `b` in `s`. */
  predicate NoPair(s: string, a: char, b: char) {
    forall i :: 0 <= i < |s| - 1 ==> !(s[i] == a && s[i + 1] == b)
  }

  lemma NoPairWithout(s: string, a: char, b: char)
    requires b !in s
    ensures NoPair(s, a, b)
  {
    forall i | 0 <= i < |s| - 1 ensures !(s[i] == a && s[i + 1] == b) {
      assert s[i + 1] in s;
    }
  }

  lemma NoPairAppend(x: string, y: string, a: char, b: char)
    requires NoPair(x, a, b) && NoPair(y, a, b)
    requires x != [] && y != [] && !(x[|x| - 1] == a && y[0] == b)
    ensures NoPair(x + y, a, b)
  {
    var s := x + y;
    forall i | 0 <= i < |s| - 1 ensures !(s[i] == a && s[i + 1] == b) {
      if i + 1 < |x| {
        assert s[i] == x[i] && s[i + 1] == x[i + 1];
      } else if i >= |x| {
        assert s[i] == y[i - |x|] && s[i + 1] == y[i + 1 - |x|];
      }
    }
  }

  lemma NoPairNoMatch(hay: string, needle: string)
    requires |needle| >= 2 && NoPair(hay, needle[0], needle[1])
    ensures !Contains(hay, needle)
  {
  }
}
