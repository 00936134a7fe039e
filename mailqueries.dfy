/** Pieces of the mail model that decide how message-list queries are kept up
    to date: the tests of a query's sort and filter used before updating a
    list preemptively, the parsing of its sort fields, and the windows of
    changes asked for when fetching message and thread updates. */
module MailQueries {
  import opened Options
  import opened Strings
  import opened Ordered
  import opened Json
  import opened OwnKeys

  // ---- isSortedOnUnread / isSortedOnFlagged ----

  /** `w` occurs in `s`, as the regular expression `/w/` tests for a word
      without special characters. */
  predicate Contains(s: string, w: string)
    decreases |s|
  {
    |w| <= |s| && (s[..|w|] == w || (s != [] && Contains(s[1..], w)))
  }

  /** `isSortedOnUnread( sort )` and `isSortedOnFlagged( sort )`, for
      `word` `isUnread` and `isFlagged`: whether some sort field mentions
      the word. */
  method IsSortedOn(sort: seq<string>, word: string) returns (found: bool)
    ensures found <==> exists i :: 0 <= i < |sort| && Contains(sort[i], word)
  {
    var i := 0;
    while i < |sort|
      invariant 0 <= i <= |sort|
      invariant forall j :: 0 <= j < i ==> !Contains(sort[j], word)
    {
      if Contains(sort[i], word) {
        return true;
      }
      i := i + 1;
    }
    return false;
  }

  // ---- isFilteredOnUnread / isFilteredOnFlagged / isFilteredOnMailboxes ----

  /** `isFilteredOn…( filter )` for the property `key`: an operator node
      asks `conditions.some` of its conditions, any other object whether it
      has the property. `None` is a thrown `TypeError`: reading `operator`
      of `null`, calling `some` on conditions that are not an array, or
      `in` on a value that is not an object. */
  function FilteredOn(filter: Json, key: string): Option<bool>
    decreases filter, 1, 0
  {
    match filter
    case JNull => None
    case JObj(ms) =>
      if Truthy(Get(ms, "operator")) then
        var conditions: Option<Json> := Get(ms, "conditions");
        match conditions
        case Some(JArr(items)) => AnyOn(items, key, 0)
        case _ => None
      else Some(key in KeysOf(ms))
    case JArr(_) => Some(false)
    case _ => None
  }

  /** `conditions.some( isFilteredOn… )` from the `i`th condition on: it
      stops at the first that holds; a condition that throws before then
      ends it with the throw. */
  function AnyOn(items: seq<Json>, key: string, i: nat): Option<bool>
    requires i <= |items|
    decreases JArr(items), 0, |items| - i
  {
    if i == |items| then Some(false)
    else
      match FilteredOn(items[i], key)
      case None => None
      case Some(true) => Some(true)
      case Some(false) => AnyOn(items, key, i + 1)
  }

  function IsFilteredOnUnread(filter: Json): Option<bool> {
    FilteredOn(filter, "isUnread")
  }

  function IsFilteredOnFlagged(filter: Json): Option<bool> {
    FilteredOn(filter, "isFlagged")
  }

  function IsFilteredOnMailboxes(filter: Json): Option<bool> {
    FilteredOn(filter, "inMailboxes")
  }

  /** A filter tree whose every test can be evaluated: objects, with each
      operator node holding an array of such filters. */
  predicate Evaluable(filter: Json)
    decreases filter, 1, 0
  {
    match filter
    case JObj(ms) =>
      Truthy(Get(ms, "operator")) ==>
        (var conditions: Option<Json> := Get(ms, "conditions");
         match conditions
         case Some(JArr(items)) => AllEvaluable(items, 0)
         case _ => false)
    case _ => false
  }

  predicate AllEvaluable(items: seq<Json>, i: nat)
    requires i <= |items|
    decreases JArr(items), 0, |items| - i
  {
    i == |items| || (Evaluable(items[i]) && AllEvaluable(items, i + 1))
  }

  /** The property is tested somewhere in the filter tree: on a leaf of it,
      a condition reached through operator nodes. */
  predicate Mentions(filter: Json, key: string)
    decreases filter, 1, 0
  {
    match filter
    case JObj(ms) =>
      if Truthy(Get(ms, "operator")) then
        var conditions: Option<Json> := Get(ms, "conditions");
        match conditions
        case Some(JArr(items)) => SomeMentions(items, key, 0)
        case _ => false
      else key in KeysOf(ms)
    case _ => false
  }

  predicate SomeMentions(items: seq<Json>, key: string, i: nat)
    requires i <= |items|
    decreases JArr(items), 0, |items| - i
  {
    exists j :: i <= j < |items| && Mentions(items[j], key)
  }

  /** On a filter tree that can be evaluated, the test never throws and
      holds exactly when the property is tested on some leaf. */
  lemma {:induction false} FilteredOnMentions(filter: Json, key: string)
    requires Evaluable(filter)
    ensures FilteredOn(filter, key) == Some(Mentions(filter, key))
    decreases filter, 1, 0
  {
    var ms := filter.members;
    if Truthy(Get(ms, "operator")) {
      var items := Get(ms, "conditions").value.items;
      AnyOnMentions(items, key, 0);
    }
  }

  lemma {:induction false} AnyOnMentions(items: seq<Json>, key: string, i: nat)
    requires i <= |items| && AllEvaluable(items, i)
    ensures AnyOn(items, key, i) == Some(SomeMentions(items, key, i))
    decreases JArr(items), 0, |items| - i
  {
    if i < |items| {
      FilteredOnMentions(items[i], key);
      AnyOnMentions(items, key, i + 1);
      if !Mentions(items[i], key) {
        forall j | i <= j < |items| && Mentions(items[j], key)
          ensures i + 1 <= j
        {
        }
      }
    }
  }

  /** Whatever the filter, a test that answers yes has found the property
      on a leaf. */
  lemma {:induction false} FilteredOnSound(filter: Json, key: string)
    requires FilteredOn(filter, key) == Some(true)
    ensures Mentions(filter, key)
    decreases filter, 1, 0
  {
    if filter.JObj? && Truthy(Get(filter.members, "operator")) {
      var items := Get(filter.members, "conditions").value.items;
      AnyOnSound(items, key, 0);
    }
  }

  lemma {:induction false} AnyOnSound(items: seq<Json>, key: string, i: nat)
    requires i <= |items| && AnyOn(items, key, i) == Some(true)
    ensures SomeMentions(items, key, i)
    decreases JArr(items), 0, |items| - i
  {
    if FilteredOn(items[i], key) == Some(true) {
      FilteredOnSound(items[i], key);
    } else {
      AnyOnSound(items, key, i + 1);
    }
  }

  /** `some` stops at the first condition that holds, so a later condition
      that would throw is never reached. */
  lemma FirstHoldsSkipsThrow()
    ensures var filter := JObj([("operator", JStr("OR")),
                                ("conditions", JArr([JObj([("isUnread", JBool(true))]), JNull]))]);
      !Evaluable(filter) && IsFilteredOnUnread(filter) == Some(true)
  {
    var first := JObj([("isUnread", JBool(true))]);
    var items := [first, JNull];
    assert FilteredOn(first, "isUnread") == Some(true);
    assert AnyOn(items, "isUnread", 0) == Some(true);
    assert !AllEvaluable(items, 1);
  }

  // ---- isFilteredJustOnMailbox ----

  /** `isFilteredJustOnMailbox( filter )` specified: the first key
      `for ... in` enumerates is `inMailboxes`, holding one mailbox, and
      there is no other key. `None` when that first key holds `null`, whose
      `length` cannot be read. */
  function JustOnMailbox(filter: Json): Option<bool> {
    var terms := ObjectKeys(filter);
    if terms != [] && terms[0] == "inMailboxes" then
      var boxes := Prop(filter, "inMailboxes");
      if boxes.None? || boxes.value.JNull? then None
      else Some(Length(boxes.value) == Some(1) && forall k :: k in terms ==> k == "inMailboxes")
    else Some(false)
  }

  /** A property name made of digits, an index of an array or a string, is
      not `inMailboxes`. */
  lemma IndexKeyNotMailboxes(ks: seq<string>, n: nat)
    requires |ks| == n && forall i :: 0 <= i < n ==> ks[i] == NatToString(i)
    ensures forall i :: 0 <= i < n ==> ks[i] != "inMailboxes"
  {
    forall i | 0 <= i < n
      ensures ks[i] != "inMailboxes"
    {
      assert IsDigit(NatToString(i)[0]);
    }
  }

  /** Only an object can be filtered just on a mailbox: the keys of an array
      or a string are its indices. */
  lemma OnlyObjectsJustOnMailbox(filter: Json)
    requires !filter.JObj?
    ensures JustOnMailbox(filter) == Some(false)
  {
    var terms := ObjectKeys(filter);
    if filter.JArr? || filter.JStr? {
      IndexKeyNotMailboxes(terms, |terms|);
    }
  }

  /** When the filter answers at all, its first key is its first member:
      `inMailboxes` is not an array index, so no key is listed before it. */
  lemma JustOnMailboxFirstMember(filter: Json)
    requires filter.JObj? && ObjectKeys(filter) != [] && ObjectKeys(filter)[0] == "inMailboxes"
    ensures filter.members[0].0 == "inMailboxes"
  {
    assert !IsIndexKey("inMailboxes") by {
      assert !IsDigit("inMailboxes"[0]);
    }
    EnumeratedPermutes(filter.members);
    FirstNonIndexMeansInsertionOrder(filter.members);
  }

  lemma IndexKeyListedFirst()
    ensures Enumerated([("inMailboxes", JNull)] + [("0", JNum(1))]) == [("0", JNum(1))] + [("inMailboxes", JNull)]
  {
    assert IsIndexKey("0") by {
      assert NatToString(0) == "0";
    }
    assert !IsIndexKey("inMailboxes") by {
      assert !IsDigit("inMailboxes"[0]);
    }
    var zero := ("0", JNum(1));
    SplitCons(zero, []);
    SplitCons(("inMailboxes", JNull), [zero]);
    assert SortByIndex([zero]) == [zero];
  }

  lemma IndexKeyFilterKeys()
    ensures ObjectKeys(JObj([("inMailboxes", JNull), ("0", JNum(1))]))[0] == "0"
  {
    var ms := [("inMailboxes", JNull)] + [("0", JNum(1))];
    assert [("inMailboxes", JNull), ("0", JNum(1))] == ms;
    IndexKeyListedFirst();
    assert Enumerated(ms)[0] == ("0", JNum(1));
  }

  /** `{ inMailboxes: null, "0": 1 }` enumerates `"0"` first, so the test
      answers false instead of throwing on `null.length`. */
  lemma IndexKeyBeforeMailboxes()
    ensures JustOnMailbox(JObj([("inMailboxes", JNull), ("0", JNum(1))])) == Some(false)
  {
    IndexKeyFilterKeys();
  }

  /** The `for ... in` loop of `isFilteredJustOnMailbox`: each key is
      `inMailboxes` holding one mailbox, or the loop stops with false. */
  method IsFilteredJustOnMailbox(filter: Json) returns (r: Option<bool>)
    ensures r == JustOnMailbox(filter)
  {
    var terms := ObjectKeys(filter);
    ghost var boxes := Prop(filter, "inMailboxes");
    var isJustMailboxes := false;
    var i := 0;
    while i < |terms|
      invariant 0 <= i <= |terms|
      invariant isJustMailboxes <==> i > 0
      invariant forall j :: 0 <= j < i ==> terms[j] == "inMailboxes"
      invariant i > 0 ==> boxes.Some? && !boxes.value.JNull? && Length(boxes.value) == Some(1)
    {
      var term := terms[i];
      if term == "inMailboxes" {
        var value := Prop(filter, term);
        assert value == boxes;
        if value.None? || value.value.JNull? {
          return None;
        }
        if Length(value.value) == Some(1) {
          isJustMailboxes := true;
        } else {
          // isJustMailboxes = false; break;
          return Some(false);
        }
      } else {
        // isJustMailboxes = false; break;
        assert terms[i] in terms;
        return Some(false);
      }
      i := i + 1;
    }
    return Some(isJustMailboxes);
  }

  // ---- splitDirection ----

  /** `s.indexOf( c )`: the first position of `c`, or -1. */
  function IndexOf(s: string, c: char): (r: int)
    ensures -1 <= r
    ensures r == -1 <==> c !in s
    ensures r >= 0 ==> r < |s| && s[r] == c && c !in s[..r]
  {
    if s == [] then -1
    else if s[0] == c then 0
    else
      var r := IndexOf(s[1..], c);
      assert s == [s[0]] + s[1..];
      if r == -1 then -1
      else
        assert s[..r + 1] == [s[0]] + s[1..][..r];
        r + 1
  }

  /** The first `c` is at `k` when `k` holds one and no earlier place
      does. */
  lemma {:induction false} IndexOfAt(s: string, c: char, k: nat)
    requires k < |s| && s[k] == c && c !in s[..k]
    ensures IndexOf(s, c) == k
  {
    if k > 0 {
      assert s[0] == s[..k][0];
      assert s[1..][k - 1] == c;
      assert s[1..][..k - 1] == s[..k][1..];
      IndexOfAt(s[1..], c, k - 1);
    }
  }

  /** `s.slice( 0, end )` for an `end` from -1 up: a negative end counts
      from the end of the string. */
  function SliceTo(s: string, end: int): string
    requires -1 <= end
  {
    if end < 0 then (if s == [] then [] else s[..|s| - 1])
    else if end <= |s| then s[..end] else s
  }

  /** `prop += 'Thread'` for a property starting `is` when threads are
      collapsed. */
  function ThreadProp(prop: string, collapseThreads: bool): string {
    if collapseThreads && |prop| >= 2 && prop[..2] == "is" then prop + "Thread" else prop
  }

  /** One field of `splitDirection`, as written: the test `space ?` is
      true for -1, when there is no space. */
  function SplitFieldAsWritten(field: string, collapseThreads: bool): (string, int) {
    var space := IndexOf(field, ' ');
    var prop := if space != 0 then SliceTo(field, space) else field;
    var dir := if space != 0 && field[space + 1..] == "asc" then 1 else -1;
    (ThreadProp(prop, collapseThreads), dir)
  }

  /** `splitDirection( fields, collapseThreads )` as written. */
  function SplitDirectionAsWritten(fields: seq<string>, collapseThreads: bool): (r: seq<(string, int)>)
    ensures |r| == |fields|
    ensures forall i :: 0 <= i < |r| ==> r[i] == SplitFieldAsWritten(fields[i], collapseThreads)
  {
    seq(|fields|, i requires 0 <= i < |fields| => SplitFieldAsWritten(fields[i], collapseThreads))
  }

  /** One field split at its first space, as the code evidently means it:
      a field with no space is a property sorted descending. */
  function SplitField(field: string, collapseThreads: bool): (string, int) {
    var space := IndexOf(field, ' ');
    var prop := if space >= 0 then field[..space] else field;
    var dir := if space >= 0 && field[space + 1..] == "asc" then 1 else -1;
    (ThreadProp(prop, collapseThreads), dir)
  }

  /** `splitDirection` with the test for a space corrected. */
  function SplitDirection(fields: seq<string>, collapseThreads: bool): (r: seq<(string, int)>)
    ensures |r| == |fields|
    ensures forall i :: 0 <= i < |r| ==> r[i] == SplitField(fields[i], collapseThreads)
  {
    seq(|fields|, i requires 0 <= i < |fields| => SplitField(fields[i], collapseThreads))
  }

  /** A sort field as the query writes it: the property, a space, and `asc`
      or `desc`. */
  function FieldText(prop: string, ascending: bool): string {
    prop + " " + (if ascending then "asc" else "desc")
  }

  /** The corrected split reads a written field back as its property, with
      `Thread` appended to an `is…` property when threads are collapsed,
      and 1 for ascending, -1 for descending. */
  lemma SplitFieldText(prop: string, ascending: bool, collapseThreads: bool)
    requires ' ' !in prop
    ensures SplitField(FieldText(prop, ascending), collapseThreads)
         == (ThreadProp(prop, collapseThreads), if ascending then 1 else -1)
  {
    var field := FieldText(prop, ascending);
    var rest := if ascending then "asc" else "desc";
    assert field == prop + ([' '] + rest);
    assert field[..|prop|] == prop && field[|prop|] == ' ' && field[|prop| + 1..] == rest;
    IndexOfAt(field, ' ', |prop|);
  }

  /** The corrected split and the code agree on every field whose space is
      not its first character. */
  lemma SplitAgrees(field: string, collapseThreads: bool)
    requires IndexOf(field, ' ') > 0
    ensures SplitFieldAsWritten(field, collapseThreads) == SplitField(field, collapseThreads)
  {
  }

  /** A field without a space loses its last character to `slice( 0, -1 )`:
      the sort on `date` looks for a property `dat`. */
  lemma SplitWithoutSpaceDropsLast()
    ensures SplitDirectionAsWritten(["date"], false) == [("dat", -1)]
    ensures SplitDirection(["date"], false) == [("date", -1)]
  {
    assert ' ' !in "date";
    assert IndexOf("date", ' ') == -1;
    assert SliceTo("date", -1) == "dat";
    assert SplitFieldAsWritten("date", false) == ("dat", -1);
    assert SplitField("date", false) == ("date", -1);
  }

  // ---- messageUpdates / threadUpdates ----

  /** The escalation of the update window: the first window fetches the
      updated records as well; when the server has more updates, the next
      request asks for the second and then the last window without
      records; more updates after the last one are given up on. */
  datatype Windows = Windows(first: nat, second: nat, last: nat)

  /** `messageUpdateMaxChanges`: 50, 100, 150. */
  const MessageWindows: Windows := Windows(50, 100, 150)
  /** `threadUpdateMaxChanges`: 30, 100, 120. */
  const ThreadWindows: Windows := Windows(30, 100, 120)

  /** What the handler does after the updates have been passed on. */
  datatype Action =
    // this.get( 'store' ).fetchAll( Type, true ): ask again, for more
    | FetchMore
    // error_get…Updates_cannotCalculateChanges: treat everything as stale
    | GiveUp
    // nothing more to ask
    | Settled

  /** The window fields and the handler's step, for the windows `w`. */
  datatype UpdateWindow = UpdateWindow(maxChanges: nat, fetchRecords: bool)

  /** The windows after resetting. */
  function Reset(w: Windows): UpdateWindow {
    UpdateWindow(w.first, true)
  }

  /** `messageUpdates` / `threadUpdates` after `didFetchUpdates`: with more
      updates on the server, a window below the last grows (to the second,
      dropping records, from the first; to the last otherwise) and more are
      fetched; at the last window the handler gives up. In every case but
      fetching more, the window is reset to the first, with records. */
  function Step(w: Windows, s: UpdateWindow, hasMoreUpdates: bool): (UpdateWindow, Action) {
    if hasMoreUpdates && s.maxChanges < w.last then
      if s.maxChanges == w.first then (UpdateWindow(w.second, false), FetchMore)
      else (s.(maxChanges := w.last), FetchMore)
    else (Reset(w), if hasMoreUpdates then GiveUp else Settled)
  }

  /** The windows of a run of requests that each report more updates. */
  predicate Reachable(w: Windows, s: UpdateWindow) {
    s == Reset(w) || s == UpdateWindow(w.second, false) || s == UpdateWindow(w.last, false)
  }

  /** With the message and the thread windows, every step keeps the window
      one of the three, records are fetched in the first window only, and
      an answer with no more updates resets it. */
  lemma StepKeepsReachable(w: Windows, s: UpdateWindow, hasMoreUpdates: bool)
    requires w == MessageWindows || w == ThreadWindows
    requires Reachable(w, s)
    ensures var (t, a) := Step(w, s, hasMoreUpdates);
      && Reachable(w, t)
      && (t.fetchRecords <==> t.maxChanges == w.first)
      && (!hasMoreUpdates ==> t == Reset(w) && a == Settled)
      && (a == FetchMore <==> hasMoreUpdates && s.maxChanges < w.last)
  {
  }

  /** The steps taken while every answer reports more updates. */
  function Escalate(w: Windows, s: UpdateWindow, n: nat): (trace: seq<(UpdateWindow, Action)>)
    ensures |trace| == n
    decreases n
  {
    if n == 0 then [] else var next := Step(w, s, true); [next] + Escalate(w, next.0, n - 1)
  }

  /** With more updates each time, the handler asks for the second window
      without records, then the last, then gives up and resets: 50 + 100 +
      150 = 300 messages, or 30 + 100 + 120 = 250 threads, are asked for
      before it gives up. */
  lemma EscalationGivesUp(w: Windows)
    requires w == MessageWindows || w == ThreadWindows
    ensures Escalate(w, Reset(w), 3)
         == [(UpdateWindow(w.second, false), FetchMore),
             (UpdateWindow(w.last, false), FetchMore),
             (Reset(w), GiveUp)]
    ensures w.first + w.second + w.last == if w == MessageWindows then 300 else 250
  {
    assert Escalate(w, Reset(w), 3)
        == [Step(w, Reset(w), true)] + Escalate(w, UpdateWindow(w.second, false), 2);
    assert Escalate(w, UpdateWindow(w.second, false), 2)
        == [Step(w, UpdateWindow(w.second, false), true)] + Escalate(w, UpdateWindow(w.last, false), 1);
  }

  /** The window fields of the connection and the handler's update of
      them. */
  class WindowFields {
    const windows: Windows
    var maxChanges: nat
    var fetchRecords: bool

    function State(): UpdateWindow
      reads this
    {
      UpdateWindow(maxChanges, fetchRecords)
    }

    constructor (w: Windows)
      ensures windows == w && State() == Reset(w)
    {
      windows := w;
      maxChanges := w.first;
      fetchRecords := true;
    }

    /** The tail of `messageUpdates` / `threadUpdates`. */
    method DidFetchUpdates(hasMoreUpdates: bool) returns (action: Action)
      modifies this
      ensures (State(), action) == Step(windows, old(State()), hasMoreUpdates)
    {
      if hasMoreUpdates {
        var current := maxChanges;
        if current < windows.last {
          if current == windows.first {
            fetchRecords := false;
            maxChanges := windows.second;
          } else {
            maxChanges := windows.last;
          }
          return FetchMore;
        } else {
          action := GiveUp;
        }
      } else {
        action := Settled;
      }
      fetchRecords := true;
      maxChanges := windows.first;
    }
  }
}
