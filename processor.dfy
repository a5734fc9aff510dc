/** `EmailProcessor` of src/gmail_categorizer/processor.py: the label caches,
    the get-or-create protocol against the label server, the grouping of
    results by category and the counters of a run.

    Each step is first written as a function on a `State` value (the two
    caches, the run statistics and the label server); the properties are
    lemmas about those functions. The class `EmailProcessor` at the end keeps
    the same state in fields and its methods, loops included, are proved to
    leave exactly the state those functions describe. */
module Processor {
  import opened Wrappers
  import opened Text
  import opened Collections
  import opened Models
  import opened LabelService
  import Categorizer

  /** Results below this confidence get no label. */
  const LowConfidence: real := 0.3

  /** What the processor changes: `_label_cache` (name to id),
      `_label_lookup_cache` (id to name), `_stats` and the label server. */
  datatype State = State(
    cache: map<string, string>,
    lookup: map<string, string>,
    stats: ProcessingStats,
    server: Server)

  // ---------------------------------------------------------------------
  // The two cache builders

  /** The labels `_build_label_cache` keeps: configured categories and
      every user label. */
  predicate Eligible(vocab: seq<string>, l: GmailLabel) {
    l.name in vocab || l.kind == "user"
  }

  /** The `new_cache` dict of `_build_label_cache`, filled in listing order,
      so that of two eligible labels with one name the later wins. */
  function NameToId(vocab: seq<string>, labels: seq<GmailLabel>): map<string, string> {
    if labels == [] then map[]
    else
      var m := NameToId(vocab, labels[..|labels| - 1]);
      var l := labels[|labels| - 1];
      if Eligible(vocab, l) then m[l.name := l.id] else m
  }

  /** A name is a key of `new_cache` exactly when some eligible label has it. */
  lemma {:induction false} NameToIdKeys(vocab: seq<string>, labels: seq<GmailLabel>, name: string)
    ensures name in NameToId(vocab, labels)
            <==> exists i :: 0 <= i < |labels| && Eligible(vocab, labels[i]) && labels[i].name == name
  {
    if labels != [] {
      var n := |labels| - 1;
      NameToIdKeys(vocab, labels[..n], name);
      if name in NameToId(vocab, labels[..n]) {
        var i :| 0 <= i < n && Eligible(vocab, labels[..n][i]) && labels[..n][i].name == name;
        assert labels[i] == labels[..n][i];
      }
      if i :| 0 <= i < n && Eligible(vocab, labels[i]) && labels[i].name == name {
        assert labels[..n][i] == labels[i];
      }
    }
  }

  /** The id kept for a name is that of the last eligible label with it. */
  lemma {:induction false} NameToIdLast(vocab: seq<string>, labels: seq<GmailLabel>, j: int)
    requires 0 <= j < |labels| && Eligible(vocab, labels[j])
    requires forall k :: j < k < |labels| && Eligible(vocab, labels[k]) ==> labels[k].name != labels[j].name
    ensures labels[j].name in NameToId(vocab, labels)
    ensures NameToId(vocab, labels)[labels[j].name] == labels[j].id
  {
    var n := |labels| - 1;
    if j < n {
      NameToIdLast(vocab, labels[..n], j);
    }
  }

  /** The lookup cache as `_build_label_lookup_cache` fills it. */
  function IdToName(labels: seq<GmailLabel>): map<string, string> {
    if labels == [] then map[]
    else
      var l := labels[|labels| - 1];
      IdToName(labels[..|labels| - 1])[l.id := l.name]
  }

  /** The lookup cache has exactly the listed ids as keys. */
  lemma {:induction false} IdToNameKeys(labels: seq<GmailLabel>)
    ensures forall id :: id in IdToName(labels) <==> exists i :: 0 <= i < |labels| && labels[i].id == id
  {
    if labels != [] {
      var n := |labels| - 1;
      IdToNameKeys(labels[..n]);
      assert forall i :: 0 <= i < n ==> labels[..n][i] == labels[i];
    }
  }

  /** Each listed id looks up as the name of the last label with that id. */
  lemma {:induction false} IdToNameLast(labels: seq<GmailLabel>, j: int)
    requires 0 <= j < |labels|
    requires forall k :: j < k < |labels| ==> labels[k].id != labels[j].id
    ensures labels[j].id in IdToName(labels) && IdToName(labels)[labels[j].id] == labels[j].name
  {
    var n := |labels| - 1;
    if j < n {
      IdToNameLast(labels[..n], j);
    }
  }

  /** `_build_label_cache`: list the labels and merge the eligible ones into
      the cache; a failed listing is logged and changes nothing. */
  function RefreshCache(vocab: seq<string>, st: State): (r: State)
    ensures r.lookup == st.lookup
    ensures r.server == ListLabels(st.server).0
    ensures forall k :: k in st.cache ==> k in r.cache
    ensures forall k :: k in r.cache && k !in st.cache ==> k in NameToId(vocab, st.server.labels)
    ensures st.server.listingError.Some? ==> r == st
    ensures st.server.listingError.None? ==>
              r.cache == st.cache + NameToId(vocab, st.server.labels)
              && r.stats == st.stats.(apiCallsGmail := st.stats.apiCallsGmail + 1)
  {
    var (server, listing) := ListLabels(st.server);
    match listing
    case Err(_) => st
    case Ok(labels) =>
      st.(cache := st.cache + NameToId(vocab, labels), server := server,
          stats := st.stats.(apiCallsGmail := st.stats.apiCallsGmail + 1))
  }

  /** `_build_label_lookup_cache`: the lookup cache becomes exactly the
      listing's id-to-name pairs; a failed listing changes nothing. */
  function RefreshLookup(st: State): (r: State)
    ensures r.cache == st.cache
    ensures r.server == ListLabels(st.server).0
    ensures st.server.listingError.Some? ==> r == st
    ensures st.server.listingError.None? ==>
              r.lookup == IdToName(st.server.labels)
              && r.stats == st.stats.(apiCallsGmail := st.stats.apiCallsGmail + 1)
  {
    var (server, listing) := ListLabels(st.server);
    match listing
    case Err(_) => st
    case Ok(labels) =>
      st.(lookup := IdToName(labels), server := server,
          stats := st.stats.(apiCallsGmail := st.stats.apiCallsGmail + 1))
  }

  /** A refresh never drops a name, and keeps every name's id unless an
      eligible label with that name is listed. */
  lemma RefreshCacheWriteSet(vocab: seq<string>, st: State, name: string)
    requires name in st.cache
    requires forall i :: 0 <= i < |st.server.labels| && Eligible(vocab, st.server.labels[i])
                         ==> st.server.labels[i].name != name
    ensures name in RefreshCache(vocab, st).cache
    ensures RefreshCache(vocab, st).cache[name] == st.cache[name]
  {
    NameToIdKeys(vocab, st.server.labels, name);
  }

  // ---------------------------------------------------------------------
  // Get or create

  /** The `except` branch of `_get_or_create_label`: after a conflict the
      cache is rebuilt and the name looked up again; any other error gives
      nothing. */
  function AfterCreateError(vocab: seq<string>, st: State, name: string, error: string): (r: (State, Option<string>))
    ensures !IsConflict(error) ==> r == (st, None)
    ensures IsConflict(error) ==> r.0 == RefreshCache(vocab, st)
    ensures r.1.Some? ==> name in r.0.cache && r.1.value == r.0.cache[name]
    ensures r.1.None? ==> name !in r.0.cache || !IsConflict(error)
  {
    if IsConflict(error) then
      var st1 := RefreshCache(vocab, st);
      if name in st1.cache then (st1, Some(st1.cache[name])) else (st1, None)
    else (st, None)
  }

  /** `_get_or_create_label`: the cache, then a refresh, then a create, and
      after a conflicting create a second refresh. */
  function GetOrCreate(vocab: seq<string>, st: State, name: string): (r: (State, Option<string>))
    ensures name in st.cache ==> r == (st, Some(st.cache[name]))
    ensures r.1.Some? ==> name in r.0.cache && r.0.cache[name] == r.1.value
    ensures r.0.server.createCalls == st.server.createCalls
            || (r.0.server.createCalls == st.server.createCalls + [name]
                && name !in st.cache && name !in RefreshCache(vocab, st).cache)
    ensures r.0.server.applied == st.server.applied
    ensures forall k :: k in st.cache ==> k in r.0.cache
  {
    if name in st.cache then (st, Some(st.cache[name]))
    else
      var st1 := RefreshCache(vocab, st);
      if name in st1.cache then (st1, Some(st1.cache[name]))
      else
        var (server, created) := CreateLabel(st1.server, name);
        match created
        case Ok(made) =>
          (st1.(cache := st1.cache[name := made.id], lookup := st1.lookup[made.id := made.name],
                server := server,
                stats := st1.stats.(categoriesCreated := st1.stats.categoriesCreated + 1,
                                    apiCallsGmail := st1.stats.apiCallsGmail + 1)),
           Some(made.id))
        case Err(e) => AfterCreateError(vocab, st1.(server := server), name, e)
  }

  /** The counters a step may move and the server activity they record:
      every Gmail call counted in `api_calls_gmail` is a successful listing,
      a created label or an applied label, `categories_created` follows the
      labels created, and the other statistics are left alone. */
  predicate Balanced(st: State, r: State) {
    r.stats.apiCallsGmail - st.stats.apiCallsGmail
      == (r.server.listed - st.server.listed) + (r.server.created - st.server.created)
         + (|r.server.applied| - |st.server.applied|)
    && r.stats.categoriesCreated - st.stats.categoriesCreated == r.server.created - st.server.created
    && r.stats.(apiCallsGmail := st.stats.apiCallsGmail, categoriesCreated := st.stats.categoriesCreated)
       == st.stats
  }

  lemma RefreshBalanced(vocab: seq<string>, st: State)
    ensures Balanced(st, RefreshCache(vocab, st))
    ensures Balanced(st, RefreshLookup(st))
    ensures RefreshCache(vocab, st).server.created == st.server.created
  {
  }

  /** Get-or-create keeps the counters in balance, creates at most one
      label and counts it exactly when it is created. */
  lemma GetOrCreateBalanced(vocab: seq<string>, st: State, name: string)
    ensures Balanced(st, GetOrCreate(vocab, st, name).0)
    ensures st.server.created <= GetOrCreate(vocab, st, name).0.server.created <= st.server.created + 1
  {
    if name !in st.cache {
      var st1 := RefreshCache(vocab, st);
      RefreshBalanced(vocab, st);
      if name !in st1.cache {
        var (server, created) := CreateLabel(st1.server, name);
        if created.Err? {
          RefreshBalanced(vocab, st1.(server := server));
        }
      }
    }
  }

  /** A name found in the cache costs no call: the state is unchanged. */
  lemma CacheHitNoCalls(vocab: seq<string>, st: State, name: string)
    requires name in st.cache
    ensures GetOrCreate(vocab, st, name).0 == st
    ensures GetOrCreate(vocab, st, name).1 == Some(st.cache[name])
  {
  }

  /** Once an id is returned, asking again for the same name returns the
      same id from the cache, with no listing and no create. */
  lemma SecondCallHits(vocab: seq<string>, st: State, name: string)
    requires GetOrCreate(vocab, st, name).1.Some?
    ensures GetOrCreate(vocab, GetOrCreate(vocab, st, name).0, name)
            == (GetOrCreate(vocab, st, name).0, GetOrCreate(vocab, st, name).1)
  {
  }

  /** A successful create, after a refresh that still misses, writes
      name -> id into the cache and id -> name into the lookup cache, adds
      one to `categories_created` and to `api_calls_gmail`, and leaves every
      other entry as the refresh left it. */
  lemma CreateWrites(vocab: seq<string>, st: State, name: string)
    requires name !in st.cache && name !in RefreshCache(vocab, st).cache
    requires CreateLabel(RefreshCache(vocab, st).server, name).1.Ok?
    ensures var st1 := RefreshCache(vocab, st);
            var id := CreateLabel(st1.server, name).1.value.id;
            var r := GetOrCreate(vocab, st, name);
            r.1 == Some(id)
            && r.0.cache == st1.cache[name := id]
            && r.0.lookup == st1.lookup[id := name]
            && r.0.stats.categoriesCreated == st1.stats.categoriesCreated + 1
            && r.0.stats.apiCallsGmail == st1.stats.apiCallsGmail + 1
            && r.0.server.createCalls == st.server.createCalls + [name]
  {
  }

  /** Without an id nothing was created: `categories_created` stays put. */
  lemma FailureCreatesNothing(vocab: seq<string>, st: State, name: string)
    requires GetOrCreate(vocab, st, name).1.None?
    ensures GetOrCreate(vocab, st, name).0.stats.categoriesCreated == st.stats.categoriesCreated
    ensures GetOrCreate(vocab, st, name).0.server.created == st.server.created
  {
    GetOrCreateBalanced(vocab, st, name);
  }

  /** Another client creates the name between our refresh and our create:
      the create meets a 409, the second refresh finds the label, and its id
      is returned without counting a creation. */
  lemma ConflictRecovers(vocab: seq<string>, st: State, name: string, j: int)
    requires st.server.listingError.None?
    requires 0 <= j < |st.server.incoming| && st.server.incoming[j].name == name
    requires Eligible(vocab, st.server.incoming[j])
    ensures GetOrCreate(vocab, st, name).1.Some?
    ensures GetOrCreate(vocab, st, name).0.stats.categoriesCreated == st.stats.categoriesCreated
  {
    GetOrCreateBalanced(vocab, st, name);
    if name !in st.cache {
      var st1 := RefreshCache(vocab, st);
      if name !in st1.cache {
        var merged := st1.server.labels + st1.server.incoming;
        assert merged[|st1.server.labels| + j].name == name;
        assert NameTaken(merged, name);
        var st2 := st1.(server := CreateLabel(st1.server, name).0);
        ConflictErrorIsRecognised();
        assert st2.server.labels == merged;
        NameToIdKeys(vocab, merged, name);
        assert Eligible(vocab, merged[|st1.server.labels| + j]);
      }
    }
  }

  /** As written, the create error reaches the processor as a RetryError
      (see `LabelService.CreateLabelAsWritten`): unless the future's address
      happens to contain "409", its text is not taken for a conflict, so the
      cache is not rebuilt and the label another client just created is not
      found. */
  lemma ConflictLostAsWritten(vocab: seq<string>, st: State, name: string, address: string)
    requires NameTaken(st.server.labels + st.server.incoming, name)
    requires HexAddress(address) && !Contains(address, "409")
    ensures var (server, created) := CreateLabelAsWritten(st.server, name, address);
            created.Err?
            && AfterCreateError(vocab, st.(server := server), name, created.error) == (st.(server := server), None)
  {
    ConflictHiddenAsWritten(st.server, name, address);
  }

  // ---------------------------------------------------------------------
  // Grouping and applying labels

  /** `_apply_labels_to_emails` passes over failed results and over results
      whose confidence is truthy and below 0.3; 0.0 and no confidence at all
      are not skipped. */
  predicate Skipped(r: CategorizationResult) {
    !r.success
    || (r.predicted.confidence.Some? && r.predicted.confidence.value != 0.0
        && r.predicted.confidence.value < LowConfidence)
  }

  /** The predicted names of the results that are not skipped, in order. */
  function KeptNames(results: seq<CategorizationResult>): (names: seq<string>)
    ensures |names| <= |results|
    ensures forall n :: n in names
              <==> exists i :: 0 <= i < |results| && !Skipped(results[i]) && results[i].predicted.name == n
  {
    if results == [] then []
    else
      var k := |results| - 1;
      var names := KeptNames(results[..k]);
      assert forall i :: 0 <= i < k ==> results[..k][i] == results[i];
      if Skipped(results[k]) then names else names + [results[k].predicted.name]
  }

  /** The keys of `category_groups` in insertion order: each kept name
      once, in order of first appearance. */
  function GroupOrder(results: seq<CategorizationResult>): seq<string> {
    FirstSeen(KeptNames(results))
  }

  /** The message ids of the results that are not skipped. */
  function KeptIds(results: seq<CategorizationResult>): set<string> {
    set r | r in results && !Skipped(r) :: r.messageId
  }

  /** `category_groups[name]`: the kept results predicted as `name`, in order. */
  function Members(results: seq<CategorizationResult>, name: string): (ms: seq<CategorizationResult>)
    ensures |ms| <= |results|
    ensures forall k :: 0 <= k < |ms| ==> ms[k] in results && !Skipped(ms[k]) && ms[k].predicted.name == name
  {
    if results == [] then []
    else
      var k := |results| - 1;
      var ms := Members(results[..k], name);
      if !Skipped(results[k]) && results[k].predicted.name == name then ms + [results[k]] else ms
  }

  /** The labels that adding `labelId` to each member records, in order:
      one per member whose modification does not fail. */
  function Applications(group: seq<CategorizationResult>, labelId: string, failing: set<string>): (a: seq<Applied>)
    ensures forall k :: 0 <= k < |a| ==> a[k].labelId == labelId && a[k].messageId !in failing
    ensures forall k :: 0 <= k < |a| ==> exists m :: m in group && m.messageId == a[k].messageId
  {
    if group == [] then []
    else
      var n := |group| - 1;
      var a := Applications(group[..n], labelId, failing);
      assert forall m :: m in group[..n] ==> m in group;
      if group[n].messageId in failing then a else a + [Applied(group[n].messageId, labelId)]
  }

  /** The inner loop of `_apply_labels_to_emails`: one add per member, one
      Gmail call counted per successful add. */
  function AddAll(st: State, group: seq<CategorizationResult>, labelId: string): (r: State)
    ensures r.server.applied == st.server.applied + Applications(group, labelId, st.server.failingMessages)
    ensures r.server.(applied := st.server.applied) == st.server
    ensures r.cache == st.cache && r.lookup == st.lookup
    ensures Balanced(st, r)
  {
    if group == [] then st
    else
      var n := |group| - 1;
      var st1 := AddAll(st, group[..n], labelId);
      var (server, ok) := AddLabel(st1.server, group[n].messageId, labelId);
      if ok then st1.(server := server, stats := st1.stats.(apiCallsGmail := st1.stats.apiCallsGmail + 1))
      else st1.(server := server)
  }

  /** One group: get or create its label once, then label every member
      unless no id (or an empty one) came back. */
  function ApplyGroup(vocab: seq<string>, st: State, results: seq<CategorizationResult>, name: string): State {
    var (st1, labelId) := GetOrCreate(vocab, st, name);
    if labelId.None? || labelId.value == "" then st1
    else AddAll(st1, Members(results, name), labelId.value)
  }

  /** The outer loop, over the group names in order. */
  function ApplyGroups(vocab: seq<string>, st: State, results: seq<CategorizationResult>, names: seq<string>): State {
    if names == [] then st
    else
      var n := |names| - 1;
      ApplyGroup(vocab, ApplyGroups(vocab, st, results, names[..n]), results, names[n])
  }

  /** `_apply_labels_to_emails`: the cache is built first if it is empty. */
  function ApplyLabels(vocab: seq<string>, st: State, results: seq<CategorizationResult>): State {
    var st0 := if |st.cache| == 0 then RefreshCache(vocab, st) else st;
    ApplyGroups(vocab, st0, results, GroupOrder(results))
  }

  lemma BalancedTrans(a: State, b: State, c: State)
    requires Balanced(a, b) && Balanced(b, c)
    ensures Balanced(a, c)
  {
  }

  /** Facts about one group that the batch lemmas put together. */
  lemma {:induction false} ApplyGroupFacts(vocab: seq<string>, st: State, results: seq<CategorizationResult>, name: string)
    ensures var r := ApplyGroup(vocab, st, results, name);
            Balanced(st, r)
            && st.server.created <= r.server.created
            && st.server.applied <= r.server.applied
            && r.server.failingMessages == st.server.failingMessages
            && (r.server.createCalls == st.server.createCalls
                || r.server.createCalls == st.server.createCalls + [name])
            && OnlyKeptLabelled(st, r, results)
  {
    var (st1, labelId) := GetOrCreate(vocab, st, name);
    GetOrCreateBalanced(vocab, st, name);
    assert st1.server.failingMessages == st.server.failingMessages;
    if !(labelId.None? || labelId.value == "") {
      var group := Members(results, name);
      var st2 := AddAll(st1, group, labelId.value);
      BalancedTrans(st, st1, st2);
      var a := Applications(group, labelId.value, st1.server.failingMessages);
      forall k | |st.server.applied| <= k < |st2.server.applied|
        ensures st2.server.applied[k].messageId in KeptIds(results)
      {
        var j := k - |st.server.applied|;
        assert st2.server.applied[k] == a[j];
        var m :| m in group && m.messageId == a[j].messageId;
      }
    }
  }

  /** Every label applied between `st` and `r` went to a kept result's message. */
  predicate OnlyKeptLabelled(st: State, r: State, results: seq<CategorizationResult>) {
    forall k :: |st.server.applied| <= k < |r.server.applied| ==> r.server.applied[k].messageId in KeptIds(results)
  }

  lemma DistinctSnoc(xs: seq<string>, x: string)
    requires Distinct(xs) && x !in xs
    ensures Distinct(xs + [x])
  {
  }

  /** The calls a step made to create labels. */
  function NewCreateCalls(st: State, r: State): seq<string>
    requires |st.server.createCalls| <= |r.server.createCalls|
  {
    r.server.createCalls[|st.server.createCalls|..]
  }

  /** Over all groups: the counters stay balanced, only kept results'
      messages are labelled, and each create asks for a group name, no name
      twice. */
  lemma {:induction false} ApplyGroupsFacts(vocab: seq<string>, st: State, results: seq<CategorizationResult>, names: seq<string>)
    requires Distinct(names)
    ensures var r := ApplyGroups(vocab, st, results, names);
            Balanced(st, r)
            && st.server.applied <= r.server.applied
            && r.server.failingMessages == st.server.failingMessages
            && OnlyKeptLabelled(st, r, results)
            && st.server.createCalls <= r.server.createCalls
            && (forall k :: 0 <= k < |NewCreateCalls(st, r)| ==> NewCreateCalls(st, r)[k] in names)
            && Distinct(NewCreateCalls(st, r))
  {
    if names != [] {
      var n := |names| - 1;
      var prefix := names[..n];
      assert Distinct(prefix);
      ApplyGroupsFacts(vocab, st, results, prefix);
      var mid := ApplyGroups(vocab, st, results, prefix);
      var r := ApplyGroup(vocab, mid, results, names[n]);
      ApplyGroupFacts(vocab, mid, results, names[n]);
      BalancedTrans(st, mid, r);
      var before := NewCreateCalls(st, mid);
      assert forall k :: 0 <= k < |before| ==> before[k] in prefix;
      assert names[n] !in prefix;
      if r.server.createCalls == mid.server.createCalls + [names[n]] {
        assert NewCreateCalls(st, r) == before + [names[n]];
        DistinctSnoc(before, names[n]);
      } else {
        assert NewCreateCalls(st, r) == before;
      }
    }
  }

  /** `_apply_labels_to_emails` over a batch: every Gmail call counted is a
      listing, a creation or an applied label; no message all of whose
      results are skipped gets a label; and no category is created twice. */
  lemma ApplyLabelsFacts(vocab: seq<string>, st: State, results: seq<CategorizationResult>)
    ensures var r := ApplyLabels(vocab, st, results);
            Balanced(st, r)
            && st.server.applied <= r.server.applied
            && OnlyKeptLabelled(st, r, results)
            && st.server.createCalls <= r.server.createCalls
            && (forall k :: 0 <= k < |NewCreateCalls(st, r)| ==> NewCreateCalls(st, r)[k] in GroupOrder(results))
            && Distinct(NewCreateCalls(st, r))
  {
    var st0 := if |st.cache| == 0 then RefreshCache(vocab, st) else st;
    RefreshBalanced(vocab, st);
    ApplyGroupsFacts(vocab, st0, results, GroupOrder(results));
    var r := ApplyLabels(vocab, st, results);
    BalancedTrans(st, st0, r);
    assert NewCreateCalls(st, r) == NewCreateCalls(st0, r);
  }

  /** A message whose results are all skipped (failed, or confidence
      truthy and below 0.3) gets no label. */
  lemma SkippedNeverLabelled(vocab: seq<string>, st: State, results: seq<CategorizationResult>, id: string)
    requires forall i :: 0 <= i < |results| && results[i].messageId == id ==> Skipped(results[i])
    ensures forall k :: |st.server.applied| <= k < |ApplyLabels(vocab, st, results).server.applied|
              ==> ApplyLabels(vocab, st, results).server.applied[k].messageId != id
  {
    ApplyLabelsFacts(vocab, st, results);
  }

  /** A successful result with confidence 0.0, or none, opens its group;
      one with confidence 0.2 does not. */
  lemma ThresholdCases(r: CategorizationResult)
    requires r.success
    ensures r.predicted.confidence == Some(0.0) ==> !Skipped(r) && r.predicted.name in GroupOrder([r])
    ensures r.predicted.confidence == None ==> !Skipped(r) && r.predicted.name in GroupOrder([r])
    ensures r.predicted.confidence == Some(0.2) ==> Skipped(r) && GroupOrder([r]) == []
    ensures r.predicted.confidence == Some(0.3) ==> r.predicted.name in GroupOrder([r])
  {
    assert [r][0] == r;
  }

  /** Every kept result with a given name is in that name's group. */
  lemma {:induction false} MembersComplete(results: seq<CategorizationResult>, i: int)
    requires 0 <= i < |results| && !Skipped(results[i])
    ensures results[i] in Members(results, results[i].predicted.name)
    ensures results[i].predicted.name in GroupOrder(results)
  {
    var k := |results| - 1;
    if i < k {
      MembersComplete(results[..k], i);
    }
  }

  /** One more result extends the group order by its name when it is kept
      and opens a new group, and leaves it as it was otherwise. */
  lemma GroupOrderSnoc(results: seq<CategorizationResult>, r: CategorizationResult)
    ensures GroupOrder(results + [r])
            == if Skipped(r) || r.predicted.name in GroupOrder(results) then GroupOrder(results)
               else GroupOrder(results) + [r.predicted.name]
  {
    assert (results + [r])[..|results|] == results;
    if !Skipped(r) {
      FirstSeenSnoc(KeptNames(results), r.predicted.name);
    }
  }

  /** One more result joins the group of its name when it is kept. */
  lemma MembersSnoc(results: seq<CategorizationResult>, r: CategorizationResult, name: string)
    ensures Members(results + [r], name)
            == Members(results, name) + if !Skipped(r) && r.predicted.name == name then [r] else []
  {
    assert (results + [r])[..|results|] == results;
  }

  /** A name that opened no group has no members. */
  lemma MembersOutsideOrder(results: seq<CategorizationResult>, name: string)
    requires name !in GroupOrder(results)
    ensures Members(results, name) == []
  {
  }

  // ---------------------------------------------------------------------
  // The current category of a message

  /** `_label_lookup_cache.get(label_id, "")`. */
  function LookupName(lookup: map<string, string>, id: string): string {
    if id in lookup then lookup[id] else ""
  }

  /** The position of the first label id whose looked-up name is a
      configured category, or the number of ids when there is none. */
  function FirstKnown(vocab: seq<string>, lookup: map<string, string>, ids: seq<string>): (k: nat)
    ensures k <= |ids|
    ensures forall j :: 0 <= j < k ==> LookupName(lookup, ids[j]) !in vocab
    ensures k < |ids| ==> LookupName(lookup, ids[k]) in vocab
  {
    if ids == [] then 0
    else if LookupName(lookup, ids[0]) in vocab then 0
    else 1 + FirstKnown(vocab, lookup, ids[1..])
  }

  /** `_get_current_category`: the first label, in the message's order,
      that names a configured category; None if there is none (in
      particular for a message without labels). */
  function CurrentCategory(vocab: seq<string>, lookup: map<string, string>, ids: seq<string>): (r: Option<string>)
    ensures r.None? <==> forall j :: 0 <= j < |ids| ==> LookupName(lookup, ids[j]) !in vocab
    ensures r.Some? ==> r.value in vocab
    ensures r.Some? ==> r.value == LookupName(lookup, ids[FirstKnown(vocab, lookup, ids)])
    ensures ids == [] ==> r.None?
  {
    var k := FirstKnown(vocab, lookup, ids);
    if k < |ids| then Some(LookupName(lookup, ids[k])) else None
  }

  /** An id missing from the lookup cache counts as the name "": it
      matches only if "" is itself a configured category. */
  lemma UnknownIdLooksUpEmpty(vocab: seq<string>, lookup: map<string, string>, id: string)
    requires id !in lookup
    ensures CurrentCategory(vocab, lookup, [id]) == if "" in vocab then Some("") else None
  {
  }

  // ---------------------------------------------------------------------
  // Categorising one message

  /** What `gpt_categorizer.categorize_email` does for one message: it
      returns a category or raises. */
  datatype ClassifyOutcome = Classified(category: Category) | Crashed(error: string)

  /** The category `_categorize_single_email` reports when classifying raised. */
  const CrashCategory: Category := Category("Other", None, Some(0.0), None)

  /** `_categorize_single_email`: a returned category is a success and
      counts one OpenAI call; an exception is a failure in "Other" with
      confidence 0.0 and the error's text, and counts nothing. */
  function CategorizeSingle(vocab: seq<string>, st: State, classify: EmailMessage -> ClassifyOutcome,
                            email: EmailMessage): (r: (State, CategorizationResult))
    ensures r.1.messageId == email.id
    ensures r.1.success <==> classify(email).Classified?
    ensures r.1.success <==> r.1.errorMessage.None?
    ensures r.1.success ==> r.1.predicted == classify(email).category
                            && r.1.originalCategory == CurrentCategory(vocab, st.lookup, email.labels)
    ensures !r.1.success ==> r.1.predicted == CrashCategory && r.1.originalCategory.None?
                             && r.1.errorMessage == Some(classify(email).error)
    ensures r.0 == st.(stats := st.stats.(apiCallsOpenai := st.stats.apiCallsOpenai + if r.1.success then 1 else 0))
  {
    match classify(email)
    case Classified(c) =>
      (st.(stats := st.stats.(apiCallsOpenai := st.stats.apiCallsOpenai + 1)),
       CategorizationResult(email.id, CurrentCategory(vocab, st.lookup, email.labels), c, true, None))
    case Crashed(e) =>
      (st, CategorizationResult(email.id, None, CrashCategory, false, Some(e)))
  }

  /** The classifier the processor uses: `categorize_email` of the
      categoriser, which never raises. */
  function Categorizes(vocab: seq<string>, b: Categorizer.Backend): EmailMessage -> ClassifyOutcome {
    email => Classified(Categorizer.CategorizeEmail(vocab, b, email).category)
  }

  /** With the real categoriser every message is categorised successfully,
      into a valid category that is configured or "Other". */
  lemma RealClassifierSucceeds(vocab: seq<string>, b: Categorizer.Backend, st: State, email: EmailMessage)
    ensures CategorizeSingle(vocab, st, Categorizes(vocab, b), email).1.success
    ensures ValidCategory(CategorizeSingle(vocab, st, Categorizes(vocab, b), email).1.predicted)
    ensures vocab != [] ==> CategorizeSingle(vocab, st, Categorizes(vocab, b), email).1.predicted.name in vocab + ["Other"]
  {
  }

  // ---------------------------------------------------------------------
  // Counting results

  /** `sum(1 for r in results if r.success)`. */
  function SuccessCount(results: seq<CategorizationResult>): (n: nat)
    ensures n <= |results|
  {
    if results == [] then 0
    else
      var k := |results| - 1;
      SuccessCount(results[..k]) + if results[k].success then 1 else 0
  }

  /** All results succeed exactly when the count is the number of results,
      and none does exactly when it is 0. */
  lemma {:induction false} SuccessCountExtremes(results: seq<CategorizationResult>)
    ensures SuccessCount(results) == |results| <==> forall i :: 0 <= i < |results| ==> results[i].success
    ensures SuccessCount(results) == 0 <==> forall i :: 0 <= i < |results| ==> !results[i].success
  {
    if results != [] {
      var k := |results| - 1;
      SuccessCountExtremes(results[..k]);
      assert forall i :: 0 <= i < k ==> results[..k][i] == results[i];
    }
  }

  /** The errors a failed result contributes: its message, or
      "Unknown error" when the message is empty or absent. */
  function FailureMessages(results: seq<CategorizationResult>): (errors: seq<string>)
    ensures |errors| == |results| - SuccessCount(results)
  {
    if results == [] then []
    else
      var k := |results| - 1;
      var r := results[k];
      FailureMessages(results[..k])
      + if r.success then []
        else if r.errorMessage.None? || r.errorMessage.value == "" then ["Unknown error"]
        else [r.errorMessage.value]
  }

  /** `_create_batch_result`. */
  function BatchResult(errors: seq<string>, results: seq<CategorizationResult>): (b: BatchProcessingResult)
    ensures b.totalMessages == |results| == b.successful + b.failed
    ensures b.successful == SuccessCount(results) && 0 <= b.failed
    ensures b.results == results && b.errors == errors
  {
    var successful := SuccessCount(results);
    BatchProcessingResult(|results|, successful, |results| - successful, results, errors)
  }

  // ---------------------------------------------------------------------
  // A run

  /** The message service as the processor sees it: listing the ids for a
      query (at most the given number), fetching one parsed message, and
      classifying it. */
  datatype Mailbox = Mailbox(
    listIds: (string, int) -> Result<seq<string>>,
    fetch: string -> Result<EmailMessage>,
    classify: EmailMessage -> ClassifyOutcome)

  /** The configuration the processor reads, with its mailbox. */
  datatype Setup = Setup(categories: seq<string>, gmailQuery: string, maxMessagesPerBatch: int, mailbox: Mailbox)

  /** The arguments of `process_emails`, with the clock readings at its
      start and its end. */
  datatype Run = Run(query: Option<string>, maxMessages: Option<int>, applyLabels: bool,
                     start: Timestamp, finish: Timestamp)

  /** The fetch loop: each message that cannot be fetched adds one error,
      each fetched message one Gmail call. */
  function FetchAll(st: State, fetch: string -> Result<EmailMessage>, ids: seq<string>): (r: (State, seq<EmailMessage>))
    ensures st.stats.errors <= r.0.stats.errors
    ensures |r.1| + (|r.0.stats.errors| - |st.stats.errors|) == |ids|
    ensures r.0 == st.(stats := st.stats.(apiCallsGmail := st.stats.apiCallsGmail + |r.1|,
                                          errors := r.0.stats.errors))
    ensures forall i :: 0 <= i < |r.1| ==> exists j :: 0 <= j < |ids| && fetch(ids[j]) == Ok(r.1[i])
  {
    if ids == [] then (st, [])
    else
      var n := |ids| - 1;
      var (st1, emails) := FetchAll(st, fetch, ids[..n]);
      assert forall j :: 0 <= j < n ==> ids[..n][j] == ids[j];
      match fetch(ids[n])
      case Ok(email) =>
        (st1.(stats := st1.stats.(apiCallsGmail := st1.stats.apiCallsGmail + 1)), emails + [email])
      case Err(e) =>
        (st1.(stats := st1.stats.(errors := st1.stats.errors + ["Failed to fetch " + ids[n] + ": " + e])), emails)
  }

  /** The counters after one result: `_categorize_single_email` counts an
      OpenAI call for a success, and the loop counts the success or the
      failure and records a failure's error. */
  function Tallied(s: ProcessingStats, result: CategorizationResult): (t: ProcessingStats)
    ensures t.messagesCategorized == s.messagesCategorized + (if result.success then 1 else 0)
    ensures t.messagesFailed == s.messagesFailed + (if result.success then 0 else 1)
    ensures t.apiCallsOpenai == s.apiCallsOpenai + (if result.success then 1 else 0)
    ensures t.errors == s.errors + FailureMessages([result])
    ensures t.(messagesCategorized := s.messagesCategorized, messagesFailed := s.messagesFailed,
               apiCallsOpenai := s.apiCallsOpenai, errors := s.errors) == s
  {
    if result.success then
      s.(apiCallsOpenai := s.apiCallsOpenai + 1, messagesCategorized := s.messagesCategorized + 1)
    else
      s.(messagesFailed := s.messagesFailed + 1, errors := s.errors + FailureMessages([result]))
  }

  /** The loop's own updates, after those of `_categorize_single_email`,
      add up to one tally. */
  lemma TalliedAfterSingle(s: ProcessingStats, result: CategorizationResult, t: ProcessingStats)
    requires t == s.(apiCallsOpenai := s.apiCallsOpenai + if result.success then 1 else 0)
    ensures result.success ==> Tallied(s, result) == t.(messagesCategorized := t.messagesCategorized + 1)
    ensures !result.success ==>
              Tallied(s, result)
              == t.(messagesFailed := t.messagesFailed + 1,
                    errors := t.errors + [if result.errorMessage.None? || result.errorMessage.value == ""
                                          then "Unknown error" else result.errorMessage.value])
  {
    if !result.success {
      assert [result][..0] == [];
    }
  }

  /** One pass of the categorisation loop: the result joins the list and
      the loop's own updates complete the tally. */
  lemma CategorizeStep(vocab: seq<string>, classify: EmailMessage -> ClassifyOutcome, s0: State,
                       emails: seq<EmailMessage>, i: int, results: seq<CategorizationResult>,
                       before: State, after: State, result: CategorizationResult)
    requires 0 <= i < |emails|
    requires results == MapResults(ResultOf(vocab, s0, classify), emails[..i])
    requires before.lookup == s0.lookup && before.stats == TallyAll(s0.stats, results)
    requires (after, result) == CategorizeSingle(vocab, before, classify, emails[i])
    ensures results + [result] == MapResults(ResultOf(vocab, s0, classify), emails[..i + 1])
    ensures after.cache == before.cache && after.lookup == before.lookup && after.server == before.server
    ensures TallyAll(s0.stats, results + [result])
            == if result.success then after.stats.(messagesCategorized := after.stats.messagesCategorized + 1)
               else after.stats.(messagesFailed := after.stats.messagesFailed + 1,
                                 errors := after.stats.errors + [if result.errorMessage.None? || result.errorMessage.value == ""
                                                                 then "Unknown error" else result.errorMessage.value])
  {
    ResultOfLookup(vocab, s0, before, classify, emails[i]);
    MapResultsSnoc(ResultOf(vocab, s0, classify), emails, i);
    TallyAllSnoc(s0.stats, results, result);
    TalliedAfterSingle(before.stats, result, after.stats);
  }

  /** `_categorize_single_email`'s result for each message, given the
      lookup cache (which the categorisation loop does not change). */
  function ResultOf(vocab: seq<string>, st: State, classify: EmailMessage -> ClassifyOutcome): EmailMessage -> CategorizationResult {
    email => CategorizeSingle(vocab, st, classify, email).1
  }

  /** The result depends on the state only through the lookup cache. */
  lemma ResultOfLookup(vocab: seq<string>, st: State, st': State, classify: EmailMessage -> ClassifyOutcome, email: EmailMessage)
    requires st.lookup == st'.lookup
    ensures CategorizeSingle(vocab, st', classify, email).1 == ResultOf(vocab, st, classify)(email)
  {
  }

  /** The results of the categorisation loop: one per message, in order. */
  function MapResults(single: EmailMessage -> CategorizationResult, emails: seq<EmailMessage>): seq<CategorizationResult> {
    if emails == [] then []
    else MapResults(single, emails[..|emails| - 1]) + [single(emails[|emails| - 1])]
  }

  /** The result at each position is the outcome for the message at that
      position: the loop keeps the results in fetch order. */
  lemma {:induction false} MapResultsPointwise(single: EmailMessage -> CategorizationResult, emails: seq<EmailMessage>)
    ensures |MapResults(single, emails)| == |emails|
    ensures forall i :: 0 <= i < |emails| ==> MapResults(single, emails)[i] == single(emails[i])
  {
    if emails != [] {
      var n := |emails| - 1;
      MapResultsPointwise(single, emails[..n]);
      assert forall i :: 0 <= i < n ==> emails[..n][i] == emails[i];
    }
  }

  lemma MapResultsSnoc(single: EmailMessage -> CategorizationResult, emails: seq<EmailMessage>, i: int)
    requires 0 <= i < |emails|
    ensures MapResults(single, emails[..i + 1]) == MapResults(single, emails[..i]) + [single(emails[i])]
  {
    assert emails[..i + 1][..i] == emails[..i];
  }

  /** The counters after the categorisation loop. */
  function TallyAll(s: ProcessingStats, results: seq<CategorizationResult>): (t: ProcessingStats)
    ensures t.messagesCategorized == s.messagesCategorized + SuccessCount(results)
    ensures t.messagesFailed == s.messagesFailed + (|results| - SuccessCount(results))
    ensures t.apiCallsOpenai == s.apiCallsOpenai + SuccessCount(results)
    ensures t.errors == s.errors + FailureMessages(results)
    ensures t.(messagesCategorized := s.messagesCategorized, messagesFailed := s.messagesFailed,
               apiCallsOpenai := s.apiCallsOpenai, errors := s.errors) == s
  {
    if results == [] then s
    else
      var n := |results| - 1;
      assert FailureMessages(results) == FailureMessages(results[..n]) + FailureMessages([results[n]]) by {
        assert [results[n]][..0] == [];
      }
      Tallied(TallyAll(s, results[..n]), results[n])
  }

  lemma TallyAllSnoc(s: ProcessingStats, results: seq<CategorizationResult>, r: CategorizationResult)
    ensures TallyAll(s, results + [r]) == Tallied(TallyAll(s, results), r)
  {
    assert (results + [r])[..|results|] == results;
  }

  /** The messages that were fetched, in the order of the ids: an
      independent statement of what the fetch loop keeps. */
  function Fetched(fetch: string -> Result<EmailMessage>, ids: seq<string>): seq<EmailMessage> {
    if ids == [] then []
    else (if fetch(ids[0]).Ok? then [fetch(ids[0]).value] else []) + Fetched(fetch, ids[1..])
  }

  lemma {:induction false} FetchedSnoc(fetch: string -> Result<EmailMessage>, ids: seq<string>, id: string)
    ensures Fetched(fetch, ids + [id]) == Fetched(fetch, ids) + (if fetch(id).Ok? then [fetch(id).value] else [])
  {
    if ids != [] {
      assert (ids + [id])[1..] == ids[1..] + [id];
      FetchedSnoc(fetch, ids[1..], id);
    } else {
      assert [id][1..] == [];
    }
  }

  /** The fetch loop keeps exactly the fetched messages, in id order. */
  lemma {:induction false} FetchAllKeepsFetched(st: State, fetch: string -> Result<EmailMessage>, ids: seq<string>)
    ensures FetchAll(st, fetch, ids).1 == Fetched(fetch, ids)
  {
    if ids != [] {
      var n := |ids| - 1;
      FetchAllKeepsFetched(st, fetch, ids[..n]);
      FetchedSnoc(fetch, ids[..n], ids[n]);
      assert ids[..n] + [ids[n]] == ids;
    }
  }

  /** `query or self.config.gmail_query`: no query, or an empty one, means
      the configured query. */
  function EffectiveQuery(setup: Setup, run: Run): string {
    if run.query.None? || run.query.value == "" then setup.gmailQuery else run.query.value
  }

  /** `max_messages or self.config.max_messages_per_batch`: 0 is falsy too. */
  function EffectiveMax(setup: Setup, run: Run): int {
    if run.maxMessages.None? || run.maxMessages.value == 0 then setup.maxMessagesPerBatch else run.maxMessages.value
  }

  /** The state after the fetch loop and the count of processed messages. */
  function Fetching(setup: Setup, st: State, ids: seq<string>): (State, seq<EmailMessage>) {
    var (s3, emails) := FetchAll(st, setup.mailbox.fetch, ids);
    (s3.(stats := s3.stats.(messagesProcessed := |emails|)), emails)
  }

  /** Categorising, labelling and finishing a non-empty batch. */
  function Finish(setup: Setup, s4: State, run: Run, emails: seq<EmailMessage>): (State, BatchProcessingResult) {
    var results := MapResults(ResultOf(setup.categories, s4, setup.mailbox.classify), emails);
    var s5 := s4.(stats := TallyAll(s4.stats, results));
    var s6 := if run.applyLabels then ApplyLabels(setup.categories, s5, results) else s5;
    var s7 := s6.(stats := s6.stats.(endTime := Some(run.finish)));
    (s7, BatchProcessingResult(|emails|, s7.stats.messagesCategorized, s7.stats.messagesFailed, results, s7.stats.errors))
  }

  /** The state once the statistics are fresh and the lookup cache is rebuilt. */
  function Started(st: State, run: Run): State {
    RefreshLookup(st.(stats := NewStats(run.start)))
  }

  /** The state once the ids are listed: one more Gmail call. */
  function Listed(st: State, run: Run): State {
    var s1 := Started(st, run);
    s1.(stats := s1.stats.(apiCallsGmail := s1.stats.apiCallsGmail + 1))
  }

  /** `process_emails`: fresh statistics, the lookup cache rebuilt, the ids
      listed, the messages fetched, categorised and (if asked) labelled.
      A failed listing of ids ends the run with that one error; no ids, or
      no message fetched, end it early with an empty result. */
  function Process(setup: Setup, st: State, run: Run): (State, BatchProcessingResult) {
    var s1 := Started(st, run);
    match setup.mailbox.listIds(EffectiveQuery(setup, run), EffectiveMax(setup, run))
    case Err(e) =>
      (s1.(stats := s1.stats.(errors := s1.stats.errors + ["Processing failed: " + e], endTime := Some(run.finish))),
       BatchProcessingResult(0, 0, 0, [], [e]))
    case Ok(ids) =>
      var s2 := Listed(st, run);
      if ids == [] then (s2, BatchResult(s2.stats.errors, []))
      else
        var (s4, emails) := Fetching(setup, s2, ids);
        if emails == [] then (s4, BatchResult(s4.stats.errors, []))
        else Finish(setup, s4, run, emails)
  }

  /** The ids listed for a run, if listing worked. */
  function ListedIds(setup: Setup, run: Run): Result<seq<string>> {
    setup.mailbox.listIds(EffectiveQuery(setup, run), EffectiveMax(setup, run))
  }

  /** The four ways a run ends, one lemma each: the listing of ids fails,
      no id is listed, no message is fetched, or a batch is categorised. */
  lemma ProcessEndsListingFailed(setup: Setup, st: State, run: Run)
    requires ListedIds(setup, run).Err?
    ensures var s1 := Started(st, run);
            var e := ListedIds(setup, run).error;
            Process(setup, st, run)
            == (s1.(stats := s1.stats.(errors := s1.stats.errors + ["Processing failed: " + e], endTime := Some(run.finish))),
                BatchProcessingResult(0, 0, 0, [], [e]))
  {
  }

  lemma ProcessEndsNoIds(setup: Setup, st: State, run: Run)
    requires ListedIds(setup, run) == Ok([])
    ensures Process(setup, st, run) == (Listed(st, run), BatchResult(Listed(st, run).stats.errors, []))
  {
  }

  lemma ProcessEndsNoMessages(setup: Setup, st: State, run: Run)
    requires ListedIds(setup, run).Ok? && ListedIds(setup, run).value != []
    requires Fetching(setup, Listed(st, run), ListedIds(setup, run).value).1 == []
    ensures var s4 := Fetching(setup, Listed(st, run), ListedIds(setup, run).value).0;
            Process(setup, st, run) == (s4, BatchResult(s4.stats.errors, []))
  {
  }

  lemma ProcessEndsFinished(setup: Setup, st: State, run: Run)
    requires ListedIds(setup, run).Ok? && ListedIds(setup, run).value != []
    requires Fetching(setup, Listed(st, run), ListedIds(setup, run).value).1 != []
    ensures var f := Fetching(setup, Listed(st, run), ListedIds(setup, run).value);
            Process(setup, st, run) == Finish(setup, f.0, run, f.1)
  {
  }

  /** The counters of a non-empty batch: one result per fetched message,
      categorised plus failed is the total, and the returned counts are
      the statistics'. */
  lemma FinishCounts(setup: Setup, s4: State, run: Run, emails: seq<EmailMessage>)
    requires s4.stats.messagesCategorized == 0 && s4.stats.messagesFailed == 0 && s4.stats.apiCallsOpenai == 0
    ensures var (r, res) := Finish(setup, s4, run, emails);
            res.totalMessages == |res.results| == |emails| == res.successful + res.failed
            && res.successful == SuccessCount(res.results) == r.stats.apiCallsOpenai
            && res.failed == r.stats.messagesFailed && res.successful == r.stats.messagesCategorized
            && res.errors == r.stats.errors == s4.stats.errors + FailureMessages(res.results)
            && r.stats.messagesProcessed == s4.stats.messagesProcessed
            && r.stats.endTime == Some(run.finish)
  {
    var results := MapResults(ResultOf(setup.categories, s4, setup.mailbox.classify), emails);
    MapResultsPointwise(ResultOf(setup.categories, s4, setup.mailbox.classify), emails);
    var s5 := s4.(stats := TallyAll(s4.stats, results));
    if run.applyLabels {
      ApplyLabelsFacts(setup.categories, s5, results);
    }
  }

  /** The Gmail calls of categorising and labelling a batch are the label
      listings, creations and applications. */
  lemma FinishCalls(setup: Setup, s4: State, run: Run, emails: seq<EmailMessage>)
    ensures var r := Finish(setup, s4, run, emails).0;
            r.stats.apiCallsGmail - s4.stats.apiCallsGmail
              == (r.server.listed - s4.server.listed) + (r.server.created - s4.server.created)
                 + (|r.server.applied| - |s4.server.applied|)
            && r.stats.categoriesCreated - s4.stats.categoriesCreated == r.server.created - s4.server.created
            && r.stats.messagesProcessed == s4.stats.messagesProcessed
  {
    var results := MapResults(ResultOf(setup.categories, s4, setup.mailbox.classify), emails);
    var s5 := s4.(stats := TallyAll(s4.stats, results));
    if run.applyLabels {
      ApplyLabelsFacts(setup.categories, s5, results);
    }
  }

  /** The counting identities of `process_emails`: the total is the number
      of results, which splits into categorised and failed ones, and the
      statistics agree with the returned counts. */
  lemma ProcessCounts(setup: Setup, st: State, run: Run)
    ensures var (r, res) := Process(setup, st, run);
            res.totalMessages == |res.results| == res.successful + res.failed
            && res.successful == SuccessCount(res.results)
            && r.stats.messagesCategorized == res.successful && r.stats.messagesFailed == res.failed
            && r.stats.apiCallsOpenai == res.successful
  {
    match ListedIds(setup, run)
    case Err(e) =>
    case Ok(ids) =>
      if ids != [] {
        var (s4, emails) := Fetching(setup, Listed(st, run), ids);
        if emails != [] {
          FinishCounts(setup, s4, run, emails);
        }
      }
  }

  /** When the ids could be listed: every failed fetch and every failed
      result left exactly one error, and the report returns the run's
      error list. */
  lemma ProcessErrors(setup: Setup, st: State, run: Run)
    requires ListedIds(setup, run).Ok?
    ensures var (r, res) := Process(setup, st, run);
            res.errors == r.stats.errors
            && r.stats.messagesProcessed == res.totalMessages == |Fetched(setup.mailbox.fetch, ListedIds(setup, run).value)|
            && |res.errors| == (|ListedIds(setup, run).value| - res.totalMessages) + res.failed
  {
    var ids := ListedIds(setup, run).value;
    FetchAllKeepsFetched(Listed(st, run), setup.mailbox.fetch, ids);
    if ids != [] {
      var (s4, emails) := Fetching(setup, Listed(st, run), ids);
      if emails != [] {
        FinishCounts(setup, s4, run, emails);
      }
    }
  }

  /** What the fetch stage changes: one Gmail call per fetched message and
      the processed count; the server and the other counters stay. */
  lemma FetchingFacts(setup: Setup, s2: State, ids: seq<string>)
    ensures var (s4, emails) := Fetching(setup, s2, ids);
            s4.server == s2.server
            && s4.stats.apiCallsGmail == s2.stats.apiCallsGmail + |emails|
            && s4.stats.messagesProcessed == |emails|
            && s4.stats.categoriesCreated == s2.stats.categoriesCreated
  {
  }

  /** Every Gmail call of a run from `st` to `r` is the listing of ids, a
      fetched message, a listing of labels, a created or an applied label. */
  predicate GmailCallsAccounted(st: State, r: State) {
    r.stats.apiCallsGmail
      == 1 + r.stats.messagesProcessed + (r.server.listed - st.server.listed)
         + (r.server.created - st.server.created) + (|r.server.applied| - |st.server.applied|)
  }

  /** When the ids could be listed, every Gmail call counted is the listing
      of ids, a fetched message, a listing of labels, a created label or an
      applied label. */
  lemma ProcessGmailCalls(setup: Setup, st: State, run: Run)
    requires ListedIds(setup, run).Ok?
    ensures GmailCallsAccounted(st, Process(setup, st, run).0)
  {
    var ids := ListedIds(setup, run).value;
    var s2 := Listed(st, run);
    ListingCalls(st, run);
    if ids != [] {
      var (s4, emails) := Fetching(setup, s2, ids);
      FetchingFacts(setup, s2, ids);
      if emails != [] {
        MainCalls(setup, st, run, s2, s4, emails);
      }
    }
  }

  /** Before fetching: the lookup listing and the listing of ids. */
  lemma ListingCalls(st: State, run: Run)
    ensures GmailCallsAccounted(st, Listed(st, run)) && Listed(st, run).stats.messagesProcessed == 0
    ensures Listed(st, run).stats.categoriesCreated == 0 && Listed(st, run).server.created == st.server.created
  {
    RefreshBalanced([], st.(stats := NewStats(run.start)));
  }

  /** A run that fetched something ends with its calls accounted for. */
  lemma MainCalls(setup: Setup, st: State, run: Run, s2: State, s4: State, emails: seq<EmailMessage>)
    requires GmailCallsAccounted(st, s2) && s2.stats.messagesProcessed == 0
    requires s4.server == s2.server && s4.stats.apiCallsGmail == s2.stats.apiCallsGmail + |emails|
    requires s4.stats.messagesProcessed == |emails|
    ensures GmailCallsAccounted(st, Finish(setup, s4, run, emails).0)
  {
    FinishCalls(setup, s4, run, emails);
  }

  /** `categories_created` counts exactly the labels the run created. */
  lemma ProcessCreatedCount(setup: Setup, st: State, run: Run)
    ensures Process(setup, st, run).0.stats.categoriesCreated
            == Process(setup, st, run).0.server.created - st.server.created
  {
    RefreshBalanced(setup.categories, st.(stats := NewStats(run.start)));
    match ListedIds(setup, run)
    case Err(e) =>
    case Ok(ids) =>
      ListingCalls(st, run);
      if ids != [] {
        var (s4, emails) := Fetching(setup, Listed(st, run), ids);
        FetchingFacts(setup, Listed(st, run), ids);
        if emails != [] {
          FinishCalls(setup, s4, run, emails);
        }
      }
  }

  /** A failed listing of ids ends the run: nothing is returned but that
      error, which is also logged in the statistics, and the end time is set. */
  lemma ProcessListingFails(setup: Setup, st: State, run: Run)
    requires ListedIds(setup, run).Err?
    ensures var (r, res) := Process(setup, st, run);
            var e := ListedIds(setup, run).error;
            res == BatchProcessingResult(0, 0, 0, [], [e])
            && r.stats.errors == ["Processing failed: " + e]
            && r.stats.endTime == Some(run.finish)
  {
  }

  /** One result per message, in order, each naming its message and
      succeeding exactly when classifying that message did not raise. */
  predicate ResultsFollow(classify: EmailMessage -> ClassifyOutcome, emails: seq<EmailMessage>,
                          results: seq<CategorizationResult>) {
    |results| == |emails|
    && forall i :: 0 <= i < |emails| ==>
         results[i].messageId == emails[i].id
         && (results[i].success <==> classify(emails[i]).Classified?)
  }

  /** A non-empty batch reports its results in fetch order. */
  lemma FinishResults(setup: Setup, s4: State, run: Run, emails: seq<EmailMessage>)
    ensures ResultsFollow(setup.mailbox.classify, emails, Finish(setup, s4, run, emails).1.results)
  {
    MapResultsPointwise(ResultOf(setup.categories, s4, setup.mailbox.classify), emails);
  }

  /** When the ids could be listed, the run reports one result per fetched
      message, in id order, and a result succeeds exactly when classifying
      its message did not raise. */
  lemma ProcessResults(setup: Setup, st: State, run: Run)
    requires ListedIds(setup, run).Ok?
    ensures ResultsFollow(setup.mailbox.classify, Fetched(setup.mailbox.fetch, ListedIds(setup, run).value),
                          Process(setup, st, run).1.results)
  {
    var ids := ListedIds(setup, run).value;
    FetchAllKeepsFetched(Listed(st, run), setup.mailbox.fetch, ids);
    var (s4, emails) := Fetching(setup, Listed(st, run), ids);
    if ids == [] || emails == [] {
      NoMessagesNoResults(setup, st, run);
    } else {
      ProcessFinishes(setup, st, run);
      FinishResults(setup, s4, run, emails);
    }
  }

  /** A run that fetched nothing reports no result. */
  lemma NoMessagesNoResults(setup: Setup, st: State, run: Run)
    requires ListedIds(setup, run).Ok?
    requires Fetched(setup.mailbox.fetch, ListedIds(setup, run).value) == []
    ensures Process(setup, st, run).1.results == []
  {
    FetchAllKeepsFetched(Listed(st, run), setup.mailbox.fetch, ListedIds(setup, run).value);
  }

  /** A run that fetched something reports the results of categorising
      the fetched messages. */
  lemma ProcessFinishes(setup: Setup, st: State, run: Run)
    requires ListedIds(setup, run).Ok?
    requires Fetched(setup.mailbox.fetch, ListedIds(setup, run).value) != []
    ensures var (s4, emails) := Fetching(setup, Listed(st, run), ListedIds(setup, run).value);
            Process(setup, st, run).1.results == Finish(setup, s4, run, emails).1.results
  {
    FetchAllKeepsFetched(Listed(st, run), setup.mailbox.fetch, ListedIds(setup, run).value);
  }

  /** With the real categoriser nothing fails in categorisation: the only
      errors are the fetch failures. */
  lemma RealClassifierNoFailures(vocab: seq<string>, b: Categorizer.Backend, setup: Setup, st: State, run: Run)
    requires setup.mailbox.classify == Categorizes(vocab, b)
    requires ListedIds(setup, run).Ok?
    ensures Process(setup, st, run).1.failed == 0
    ensures |Process(setup, st, run).1.errors| == |ListedIds(setup, run).value| - Process(setup, st, run).1.totalMessages
  {
    ProcessCounts(setup, st, run);
    ProcessErrors(setup, st, run);
    ProcessResults(setup, st, run);
    var res := Process(setup, st, run).1;
    SuccessCountExtremes(res.results);
  }

  // ---------------------------------------------------------------------
  // The processor object

  /** `EmailProcessor`: the configuration and the mailbox it was built
      with, the two caches, the statistics of the current run, and the
      label server its Gmail client talks to. */
  class EmailProcessor {
    const setup: Setup
    var labelCache: map<string, string>
    var labelLookupCache: map<string, string>
    var stats: ProcessingStats
    var server: Server

    /** The fields as a `State` value. */
    function Snapshot(): State
      reads this
    {
      State(labelCache, labelLookupCache, stats, server)
    }

    /** `__init__`: empty caches and fresh statistics. */
    constructor(setup: Setup, server: Server, start: Timestamp)
      ensures this.setup == setup
      ensures Snapshot() == State(map[], map[], NewStats(start), server)
    {
      this.setup := setup;
      labelCache := map[];
      labelLookupCache := map[];
      stats := NewStats(start);
      this.server := server;
    }

    /** `_build_label_lookup_cache`. */
    method BuildLabelLookupCache()
      modifies this
      ensures Snapshot() == RefreshLookup(old(Snapshot()))
    {
      var (listed, listing) := ListLabels(server);
      if listing.Err? {
        return;
      }
      var labels := listing.value;
      server := listed;
      stats := stats.(apiCallsGmail := stats.apiCallsGmail + 1);
      labelLookupCache := map[];
      for i := 0 to |labels|
        invariant labelLookupCache == IdToName(labels[..i])
        invariant labelCache == old(labelCache) && stats == old(stats).(apiCallsGmail := old(stats).apiCallsGmail + 1)
        invariant server == listed
      {
        assert labels[..i + 1][..i] == labels[..i];
        labelLookupCache := labelLookupCache[labels[i].id := labels[i].name];
      }
      assert labels[..|labels|] == labels;
    }

    /** `_build_label_cache`. */
    method BuildLabelCache()
      modifies this
      ensures Snapshot() == RefreshCache(setup.categories, old(Snapshot()))
    {
      var (listed, listing) := ListLabels(server);
      if listing.Err? {
        return;
      }
      var labels := listing.value;
      server := listed;
      stats := stats.(apiCallsGmail := stats.apiCallsGmail + 1);
      var newCache := map[];
      for i := 0 to |labels|
        invariant newCache == NameToId(setup.categories, labels[..i])
      {
        assert labels[..i + 1][..i] == labels[..i];
        if labels[i].name in setup.categories || labels[i].kind == "user" {
          newCache := newCache[labels[i].name := labels[i].id];
        }
      }
      assert labels[..|labels|] == labels;
      labelCache := labelCache + newCache;
    }

    /** `_get_or_create_label`. */
    method GetOrCreateLabel(name: string) returns (labelId: Option<string>)
      modifies this
      ensures (Snapshot(), labelId) == GetOrCreate(setup.categories, old(Snapshot()), name)
    {
      if name in labelCache {
        return Some(labelCache[name]);
      }
      BuildLabelCache();
      if name in labelCache {
        return Some(labelCache[name]);
      }
      var (afterCreate, created) := CreateLabel(server, name);
      server := afterCreate;
      match created
      case Ok(made) =>
        labelCache := labelCache[name := made.id];
        labelLookupCache := labelLookupCache[made.id := made.name];
        stats := stats.(categoriesCreated := stats.categoriesCreated + 1, apiCallsGmail := stats.apiCallsGmail + 1);
        return Some(made.id);
      case Err(e) =>
        if IsConflict(e) {
          BuildLabelCache();
          if name in labelCache {
            return Some(labelCache[name]);
          }
        }
        return None;
    }

    /** `_get_current_category`. */
    method GetCurrentCategory(email: EmailMessage) returns (category: Option<string>)
      ensures category == CurrentCategory(setup.categories, labelLookupCache, email.labels)
    {
      if email.labels == [] {
        return None;
      }
      for i := 0 to |email.labels|
        invariant forall j :: 0 <= j < i ==> LookupName(labelLookupCache, email.labels[j]) !in setup.categories
      {
        var labelName := if email.labels[i] in labelLookupCache then labelLookupCache[email.labels[i]] else "";
        if labelName in setup.categories {
          return Some(labelName);
        }
      }
      return None;
    }

    /** The first loop of `_apply_labels_to_emails`: the kept results
        grouped by predicted name, the names in order of first appearance. */
    method GroupResults(results: seq<CategorizationResult>)
      returns (order: seq<string>, groups: map<string, seq<CategorizationResult>>)
      ensures order == GroupOrder(results)
      ensures forall n :: n in order ==> n in groups && groups[n] == Members(results, n)
    {
      order := [];
      groups := map[];
      for i := 0 to |results|
        invariant order == GroupOrder(results[..i])
        invariant forall n :: n in order ==> n in groups && groups[n] == Members(results[..i], n)
      {
        var result := results[i];
        assert results[..i + 1] == results[..i] + [result];
        GroupOrderSnoc(results[..i], result);
        forall n | n in order
          ensures Members(results[..i + 1], n)
                  == Members(results[..i], n) + if !Skipped(result) && result.predicted.name == n then [result] else []
        {
          MembersSnoc(results[..i], result, n);
        }
        if !result.success {
          continue;
        }
        if result.predicted.confidence.Some? && result.predicted.confidence.value != 0.0
           && result.predicted.confidence.value < LowConfidence {
          continue;
        }
        var name := result.predicted.name;
        MembersSnoc(results[..i], result, name);
        if name !in order {
          MembersOutsideOrder(results[..i], name);
          groups := groups[name := []];
          order := order + [name];
        }
        groups := groups[name := groups[name] + [result]];
      }
      assert results[..|results|] == results;
    }

    /** The inner loop of `_apply_labels_to_emails`: add the label to each
        member, counting a Gmail call for each add that succeeds. */
    method AddLabelToGroup(group: seq<CategorizationResult>, labelId: string)
      modifies this
      ensures Snapshot() == AddAll(old(Snapshot()), group, labelId)
    {
      for m := 0 to |group|
        invariant Snapshot() == AddAll(old(Snapshot()), group[..m], labelId)
      {
        assert group[..m + 1][..m] == group[..m];
        var (afterAdd, ok) := AddLabel(server, group[m].messageId, labelId);
        server := afterAdd;
        if ok {
          stats := stats.(apiCallsGmail := stats.apiCallsGmail + 1);
        }
      }
      assert group[..|group|] == group;
    }

    /** `_apply_labels_to_emails`: build the cache if it is empty, group
        the kept results, then get or create each group's label once and
        add it to every member. */
    method ApplyLabelsToEmails(results: seq<CategorizationResult>)
      modifies this
      ensures Snapshot() == ApplyLabels(setup.categories, old(Snapshot()), results)
    {
      if |labelCache| == 0 {
        BuildLabelCache();
      }
      ghost var s0 := Snapshot();
      var order, groups := GroupResults(results);
      for k := 0 to |order|
        invariant Snapshot() == ApplyGroups(setup.categories, s0, results, order[..k])
      {
        assert order[..k + 1][..k] == order[..k];
        var name := order[k];
        var labelId := GetOrCreateLabel(name);
        if labelId.None? || labelId.value == "" {
          continue;
        }
        AddLabelToGroup(groups[name], labelId.value);
      }
      assert order[..|order|] == order;
    }

    /** `_categorize_single_email`. */
    method CategorizeSingleEmail(email: EmailMessage) returns (result: CategorizationResult)
      modifies this
      ensures (Snapshot(), result) == CategorizeSingle(setup.categories, old(Snapshot()), setup.mailbox.classify, email)
    {
      var originalCategory := GetCurrentCategory(email);
      match setup.mailbox.classify(email)
      case Classified(predicted) =>
        stats := stats.(apiCallsOpenai := stats.apiCallsOpenai + 1);
        return CategorizationResult(email.id, originalCategory, predicted, true, None);
      case Crashed(error) =>
        return CategorizationResult(email.id, None, CrashCategory, false, Some(error));
    }
  
    /** The fetch loop of `process_emails`. */
    method FetchMessages(ids: seq<string>) returns (emails: seq<EmailMessage>)
      modifies this
      ensures (Snapshot(), emails) == FetchAll(old(Snapshot()), setup.mailbox.fetch, ids)
    {
      emails := [];
      for i := 0 to |ids|
        invariant (Snapshot(), emails) == FetchAll(old(Snapshot()), setup.mailbox.fetch, ids[..i])
      {
        assert ids[..i + 1][..i] == ids[..i];
        match setup.mailbox.fetch(ids[i])
        case Ok(email) =>
          emails := emails + [email];
          stats := stats.(apiCallsGmail := stats.apiCallsGmail + 1);
        case Err(error) =>
          stats := stats.(errors := stats.errors + ["Failed to fetch " + ids[i] + ": " + error]);
      }
      assert ids[..|ids|] == ids;
    }

    /** The categorisation loop of `process_emails`: one result per message,
        in order, with the counters and the errors of each. */
    method CategorizeMessages(emails: seq<EmailMessage>) returns (results: seq<CategorizationResult>)
      modifies this
      ensures results == MapResults(ResultOf(setup.categories, old(Snapshot()), setup.mailbox.classify), emails)
      ensures Snapshot() == old(Snapshot()).(stats := TallyAll(old(stats), results))
    {
      ghost var s0 := Snapshot();
      results := [];
      for i := 0 to |emails|
        invariant results == MapResults(ResultOf(setup.categories, s0, setup.mailbox.classify), emails[..i])
        invariant labelCache == s0.cache && labelLookupCache == s0.lookup && server == s0.server
        invariant stats == TallyAll(s0.stats, results)
      {
        ghost var before := Snapshot();
        var result := CategorizeSingleEmail(emails[i]);
        CategorizeStep(setup.categories, setup.mailbox.classify, s0, emails, i, results, before, Snapshot(), result);
        results := results + [result];
        if result.success {
          stats := stats.(messagesCategorized := stats.messagesCategorized + 1);
        } else {
          stats := stats.(messagesFailed := stats.messagesFailed + 1,
                          errors := stats.errors + [if result.errorMessage.None? || result.errorMessage.value == ""
                                                    then "Unknown error" else result.errorMessage.value]);
        }
      }
      assert emails[..|emails|] == emails;
    }

    /** `process_emails`. A failed listing of ids is the only exception
        that reaches its handler: the cache builders, get-or-create and the
        fetch loop catch their own. */
    method ProcessEmails(query: Option<string>, maxMessages: Option<int>, applyLabels: bool,
                         start: Timestamp, finish: Timestamp) returns (result: BatchProcessingResult)
      modifies this
      ensures (Snapshot(), result) == Process(setup, old(Snapshot()), Run(query, maxMessages, applyLabels, start, finish))
    {
      ghost var st := Snapshot();
      var run := Run(query, maxMessages, applyLabels, start, finish);
      stats := NewStats(start);
      var effectiveQuery := if query.None? || query.value == "" then setup.gmailQuery else query.value;
      var effectiveMax := if maxMessages.None? || maxMessages.value == 0 then setup.maxMessagesPerBatch else maxMessages.value;
      BuildLabelLookupCache();
      assert Snapshot() == Started(st, run);
      var listing := setup.mailbox.listIds(effectiveQuery, effectiveMax);
      assert listing == ListedIds(setup, run);
      if listing.Err? {
        stats := stats.(errors := stats.errors + ["Processing failed: " + listing.error], endTime := Some(finish));
        ProcessEndsListingFailed(setup, st, run);
        return BatchProcessingResult(0, 0, 0, [], [listing.error]);
      }
      var ids := listing.value;
      stats := stats.(apiCallsGmail := stats.apiCallsGmail + 1);
      assert Snapshot() == Listed(st, run);
      if ids == [] {
        ProcessEndsNoIds(setup, st, run);
        return BatchResult(stats.errors, []);
      }
      var emails := FetchMessages(ids);
      stats := stats.(messagesProcessed := |emails|);
      assert (Snapshot(), emails) == Fetching(setup, Listed(st, run), ids);
      if emails == [] {
        ProcessEndsNoMessages(setup, st, run);
        return BatchResult(stats.errors, []);
      }
      ProcessEndsFinished(setup, st, run);
      result := FinishBatch(run, emails);
    }

    /** The rest of `process_emails` once messages were fetched: categorise
        them, label them if asked, and report. */
    method FinishBatch(run: Run, emails: seq<EmailMessage>) returns (result: BatchProcessingResult)
      modifies this
      ensures (Snapshot(), result) == Finish(setup, old(Snapshot()), run, emails)
    {
      var results := CategorizeMessages(emails);
      if run.applyLabels {
        ApplyLabelsToEmails(results);
      }
      stats := stats.(endTime := Some(run.finish));
      return BatchProcessingResult(|emails|, stats.messagesCategorized, stats.messagesFailed, results, stats.errors);
    }
  }
}
