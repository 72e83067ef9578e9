/** The event log's two stores: the in-memory list, and the database table that must agree with it. */
module EventStore {
  import opened Hop
  import opened EventLog

  /** The events of one session, in append order; the empty session id names none. */
  function BySession(log: seq<StepEvent>, id: string): seq<StepEvent> {
    if log == [] || id == "" then []
    else
      var rest := BySession(log[..|log| - 1], id);
      var ev := log[|log| - 1];
      if ev.sessionID == id then rest + [ev] else rest
  }

  lemma {:induction false} BySessionAppend(log: seq<StepEvent>, ev: StepEvent, id: string)
    ensures BySession(log + [ev], id) ==
            BySession(log, id) + if ev.sessionID == id && id != "" then [ev] else []
  {
    assert (log + [ev])[..|log|] == log;
  }

  class MemoryEventLog {
    var allEvents: seq<StepEvent>

    constructor ()
      ensures allEvents == []
    {
      allEvents := [];
    }

    method Append(event: StepEvent) returns (step: nat)
      modifies this
      ensures allEvents == old(allEvents) + [event]
      ensures step == |Conv(allEvents, event.conversationID)|
    {
      var maxStep := 0;
      for i := 0 to |allEvents|
        invariant allEvents == old(allEvents)
        invariant maxStep == |Conv(allEvents[..i], event.conversationID)|
      {
        ConvAppend(allEvents[..i], allEvents[i], event.conversationID);
        assert allEvents[..i + 1] == allEvents[..i] + [allEvents[i]];
        if allEvents[i].conversationID == event.conversationID {
          maxStep := maxStep + 1;
        }
      }
      assert allEvents[..|allEvents|] == allEvents;
      ConvAppend(allEvents, event, event.conversationID);
      step := maxStep + 1;
      allEvents := allEvents + [event];
    }

    method Events(conversationID: string) returns (out: seq<StepEvent>)
      ensures out == Conv(allEvents, conversationID)
    {
      out := [];
      for i := 0 to |allEvents|
        invariant out == Conv(allEvents[..i], conversationID)
      {
        ConvAppend(allEvents[..i], allEvents[i], conversationID);
        assert allEvents[..i + 1] == allEvents[..i] + [allEvents[i]];
        if allEvents[i].conversationID == conversationID {
          out := out + [allEvents[i]];
        }
      }
      assert allEvents[..|allEvents|] == allEvents;
    }

    method EventsBySessionID(sessionID: string) returns (out: seq<StepEvent>)
      ensures out == BySession(allEvents, sessionID)
    {
      out := [];
      if sessionID == "" {
        return;
      }
      for i := 0 to |allEvents|
        invariant out == BySession(allEvents[..i], sessionID)
      {
        BySessionAppend(allEvents[..i], allEvents[i], sessionID);
        assert allEvents[..i + 1] == allEvents[..i] + [allEvents[i]];
        if allEvents[i].sessionID == sessionID {
          out := out + [allEvents[i]];
        }
      }
      assert allEvents[..|allEvents|] == allEvents;
    }
  }

  /** conversation_log's primary key: (conversation_id, step). */
  datatype Key = Key(conv: string, step: int)

  /** The other columns; session_id and session_step are null together. */
  datatype Row = Row(payload: StepEvent, sessionID: Option<string>, sessionStep: int)

  predicate InSession(r: Row, id: string) {
    r.sessionID == Some(id)
  }

  /** A log seen one conversation (or one session) at a time. */
  type View = string -> seq<StepEvent>

  function ByConversation(log: seq<StepEvent>): View {
    id => Conv(log, id)
  }

  function BySessions(log: seq<StepEvent>): View {
    id => BySession(log, id)
  }

  /** `next` is `view` with `ev` appended under `id`. */
  ghost predicate Extends(view: View, next: View, id: string, ev: StepEvent) {
    forall other :: next(other) == if other == id then view(other) + [ev] else view(other)
  }

  /** Per conversation, the rows are numbered 1..n and carry its events in append order. */
  ghost predicate ConversationsAgree(rows: map<Key, Row>, view: View) {
    && (forall conv, step :: Key(conv, step) in rows <==> 1 <= step <= |view(conv)|)
    && (forall k :: k in rows && 1 <= k.step <= |view(k.conv)| ==> rows[k].payload == view(k.conv)[k.step - 1])
  }

  /** `index` names the one row holding each session's j-th event. */
  ghost predicate SessionsAgree(rows: map<Key, Row>, view: View, index: map<Key, Key>) {
    && (forall id, j :: Key(id, j) in index <==> 1 <= j <= |view(id)|)
    && (forall s :: s in index ==>
          && index[s] in rows
          && InSession(rows[index[s]], s.conv)
          && rows[index[s]].sessionStep == s.step
          && (1 <= s.step <= |view(s.conv)| ==> rows[index[s]].payload == view(s.conv)[s.step - 1]))
    && (forall k :: k in rows && rows[k].sessionID.Some? ==>
          && Key(rows[k].sessionID.value, rows[k].sessionStep) in index
          && index[Key(rows[k].sessionID.value, rows[k].sessionStep)] == k)
  }

  ghost predicate Represents(rows: map<Key, Row>, log: seq<StepEvent>, index: map<Key, Key>) {
    ConversationsAgree(rows, ByConversation(log)) && SessionsAgree(rows, BySessions(log), index)
  }

  lemma {:induction false} InsertInConversation(rows: map<Key, Row>, view: View, next: View, ev: StepEvent, row: Row)
    requires ConversationsAgree(rows, view) && row.payload == ev
    requires Extends(view, next, ev.conversationID, ev)
    ensures Key(ev.conversationID, |view(ev.conversationID)| + 1) !in rows
    ensures ConversationsAgree(rows[Key(ev.conversationID, |view(ev.conversationID)| + 1) := row], next)
  {
  }

  lemma {:induction false} InsertInSession(rows: map<Key, Row>, view: View, next: View, index: map<Key, Key>,
                                           ev: StepEvent, key: Key, row: Row)
    requires SessionsAgree(rows, view, index) && key !in rows
    requires row.payload == ev && row.sessionID == Some(ev.sessionID)
    requires row.sessionStep == |view(ev.sessionID)| + 1
    requires Extends(view, next, ev.sessionID, ev)
    ensures SessionsAgree(rows[key := row], next, index[Key(ev.sessionID, row.sessionStep) := key])
  {
    assert Key(ev.sessionID, row.sessionStep) !in index;
  }

  lemma {:induction false} InsertOutsideSessions(rows: map<Key, Row>, view: View, index: map<Key, Key>, key: Key,
          row: Row)
    requires SessionsAgree(rows, view, index) && key !in rows && row.sessionID == None
    ensures SessionsAgree(rows[key := row], view, index)
  {
  }

  lemma {:induction false} ViewsAppend(log: seq<StepEvent>, ev: StepEvent)
    ensures Extends(ByConversation(log), ByConversation(log + [ev]), ev.conversationID, ev)
    ensures ev.sessionID != "" ==> Extends(BySessions(log), BySessions(log + [ev]), ev.sessionID, ev)
    ensures ev.sessionID == "" ==> forall id :: BySessions(log + [ev])(id) == BySessions(log)(id)
  {
    forall id ensures Conv(log + [ev], id) == Conv(log, id) + if ev.conversationID == id then [ev] else [] {
      ConvAppend(log, ev, id);
    }
    forall id ensures BySession(log + [ev], id) == BySession(log, id) + if ev.sessionID == id && id != "" then [ev]
        else [] {
      BySessionAppend(log, ev, id);
    }
  }

  /** An insert that takes the next number in its conversation and in its session keeps both numberings. */
  lemma {:induction false} InsertKeepsAgreement(rows: map<Key, Row>, log: seq<StepEvent>, index: map<Key, Key>,
                                                ev: StepEvent, row: Row) returns (index': map<Key, Key>)
    requires Represents(rows, log, index)
    requires row.payload == ev
    requires row.sessionID == if ev.sessionID == "" then None else Some(ev.sessionID)
    requires ev.sessionID != "" ==> row.sessionStep == |BySession(log, ev.sessionID)| + 1
    ensures Represents(rows[Key(ev.conversationID, |Conv(log, ev.conversationID)| + 1) := row], log + [ev], index')
  {
    var key := Key(ev.conversationID, |Conv(log, ev.conversationID)| + 1);
    ViewsAppend(log, ev);
    InsertInConversation(rows, ByConversation(log), ByConversation(log + [ev]), ev, row);
    if ev.sessionID == "" {
      index' := index;
      InsertOutsideSessions(rows, BySessions(log), index, key, row);
    } else {
      index' := index[Key(ev.sessionID, row.sessionStep) := key];
      InsertInSession(rows, BySessions(log), BySessions(log + [ev]), index, ev, key, row);
    }
  }

  predicate Sorted(rank: map<Key, int>, keys: seq<Key>)
    requires forall k :: k in keys ==> k in rank
  {
    forall i, j :: 0 <= i < j < |keys| ==> keys[i] != keys[j] && rank[keys[i]] <= rank[keys[j]]
  }

  /** ORDER BY: the selected rows by rank, rows of equal rank in any order. */
  method OrderBy(rank: map<Key, int>) returns (keys: seq<Key>)
    ensures forall k :: k in keys <==> k in rank
    ensures Sorted(rank, keys)
  {
    keys := [];
    var todo := rank.Keys;
    while todo != {}
      invariant todo <= rank.Keys
      invariant forall k :: k in keys <==> k in rank.Keys - todo
      invariant Sorted(rank, keys)
      invariant forall k, k' :: k in keys && k' in todo ==> rank[k] <= rank[k']
      decreases |todo|
    {
      LeastExists(rank, todo);
      var k :| k in todo && forall other :: other in todo ==> rank[k] <= rank[other];
      keys := keys + [k];
      todo := todo - {k};
    }
  }

  lemma {:induction false} LeastExists(rank: map<Key, int>, todo: set<Key>)
    requires todo != {} && todo <= rank.Keys
    ensures exists k :: k in todo && forall other :: other in todo ==> rank[k] <= rank[other]
  {
    var k :| k in todo;
    if todo != {k} {
      LeastExists(rank, todo - {k});
      var best :| best in todo - {k} && forall other :: other in todo - {k} ==> rank[best] <= rank[other];
      var least := if rank[k] <= rank[best] then k else best;
      assert forall other :: other in todo ==> rank[least] <= rank[other];
    }
  }

  /** `rank` numbers the rows 1..n; `at` is its inverse. */
  ghost predicate Numbers(rank: map<Key, int>, n: nat, at: map<int, Key>) {
    && (forall k :: k in rank ==> 1 <= rank[k] <= n && rank[k] in at && at[rank[k]] == k)
    && (forall m :: 1 <= m <= n ==> m in at && at[m] in rank && rank[at[m]] == m)
  }

  /** Ranks that number the rows 1..n put the i-th row at position i. */
  lemma {:induction false} OrderIsNumbering(rank: map<Key, int>, keys: seq<Key>, n: nat, at: map<int, Key>)
    requires forall k :: k in keys <==> k in rank
    requires Sorted(rank, keys)
    requires Numbers(rank, n, at)
    ensures |keys| == n
    ensures forall i :: 0 <= i < n ==> rank[keys[i]] == i + 1
  {
    OrderIsNumberingUpTo(rank, keys, n, at, |keys|);
    if n > 0 {
      assert at[n] in keys;
    }
  }

  lemma {:induction false} OrderIsNumberingUpTo(rank: map<Key, int>, keys: seq<Key>, n: nat, at: map<int, Key>,
                                                i: nat)
    requires forall k :: k in keys <==> k in rank
    requires Sorted(rank, keys)
    requires Numbers(rank, n, at)
    requires i <= |keys|
    ensures i <= n
    ensures forall j :: 0 <= j < i ==> rank[keys[j]] == j + 1
  {
    if i > 0 {
      OrderIsNumberingUpTo(rank, keys, n, at, i - 1);
      var last := keys[i - 1];
      assert last in rank;
      if i - 1 > 0 {
        assert rank[keys[i - 2]] <= rank[last] && rank[keys[i - 2]] != rank[last];
      }
      var k := at[i];
      assert k in keys;
      var m :| 0 <= m < |keys| && keys[m] == k;
      assert m >= i - 1;
    }
  }

  function Payloads(rows: map<Key, Row>, keys: seq<Key>): (out: seq<StepEvent>)
    requires forall k :: k in keys ==> k in rows
    ensures |out| == |keys|
    ensures forall i :: 0 <= i < |out| ==> out[i] == rows[keys[i]].payload
  {
    seq(|keys|, i requires 0 <= i < |keys| => rows[keys[i]].payload)
  }

  /** Reading rows back in the order of ranks that number them 1..n gives what stands at those numbers. */
  lemma {:induction false} RankedPayloads(rows: map<Key, Row>, rank: map<Key, int>, keys: seq<Key>,
                                          answer: seq<StepEvent>, at: map<int, Key>)
    requires (forall k :: k in keys <==> k in rank) && Sorted(rank, keys) && rank.Keys <= rows.Keys
    requires Numbers(rank, |answer|, at)
    requires forall m :: 1 <= m <= |answer| ==> rows[at[m]].payload == answer[m - 1]
    ensures Payloads(rows, keys) == answer
  {
    OrderIsNumbering(rank, keys, |answer|, at);
    var out := Payloads(rows, keys);
    forall i | 0 <= i < |out| ensures out[i] == answer[i] {
      assert at[rank[keys[i]]] == keys[i];
    }
  }

  function StepRanks(rows: map<Key, Row>, conv: string): map<Key, int> {
    map k | k in rows && k.conv == conv :: k.step
  }

  function SessionStepRanks(rows: map<Key, Row>, id: string): map<Key, int> {
    map k | k in rows && InSession(rows[k], id) :: rows[k].sessionStep
  }

  lemma {:induction false} StepsAreNumbering(rows: map<Key, Row>, view: View, conv: string)
    returns (at: map<int, Key>)
    requires ConversationsAgree(rows, view)
    ensures Numbers(StepRanks(rows, conv), |view(conv)|, at)
    ensures forall m :: 1 <= m <= |view(conv)| ==> rows[at[m]].payload == view(conv)[m - 1]
  {
    at := map m | 1 <= m <= |view(conv)| :: Key(conv, m);
    forall k | k in StepRanks(rows, conv) ensures Key(k.conv, k.step) in rows {
    }
  }

  lemma {:induction false} SessionStepIsStored(rows: map<Key, Row>, view: View, index: map<Key, Key>, id: string,
                                               m: int)
    requires SessionsAgree(rows, view, index) && 1 <= m <= |view(id)|
    ensures Key(id, m) in index
    ensures var k := index[Key(id, m)];
            && k in rows && InSession(rows[k], id) && rows[k].sessionStep == m
            && rows[k].payload == view(id)[m - 1]
  {
    assert Key(id, m) in index;
  }

  lemma {:induction false} SessionRowIsIndexed(rows: map<Key, Row>, view: View, index: map<Key, Key>, id: string,
                                               k: Key)
    requires SessionsAgree(rows, view, index) && k in rows && InSession(rows[k], id)
    ensures 1 <= rows[k].sessionStep <= |view(id)| && index[Key(id, rows[k].sessionStep)] == k
  {
    assert Key(id, rows[k].sessionStep) in index;
  }

  lemma {:induction false} SessionStepsAreNumbering(rows: map<Key, Row>, view: View, index: map<Key, Key>,
          id: string) returns (at: map<int, Key>)
    requires SessionsAgree(rows, view, index)
    ensures Numbers(SessionStepRanks(rows, id), |view(id)|, at)
    ensures forall m :: 1 <= m <= |view(id)| ==> rows[at[m]].payload == view(id)[m - 1]
  {
    hide SessionsAgree, InSession;
    forall m | 1 <= m <= |view(id)| ensures Key(id, m) in index {
      SessionStepIsStored(rows, view, index, id, m);
    }
    at := SessionKeys(index, id, |view(id)|);
    var rank := SessionStepRanks(rows, id);
    assert Numbers(rank, |view(id)|, at) by {
      SessionKeysNumber(rows, view, index, id);
    }
    forall m | 1 <= m <= |view(id)| ensures rows[at[m]].payload == view(id)[m - 1] {
      SessionStepIsStored(rows, view, index, id, m);
    }
  }

  function SessionKeys(index: map<Key, Key>, id: string, n: nat): map<int, Key>
    requires forall m :: 1 <= m <= n ==> Key(id, m) in index
  {
    map m | 1 <= m <= n :: index[Key(id, m)]
  }

  lemma {:induction false} SessionKeysNumber(rows: map<Key, Row>, view: View, index: map<Key, Key>, id: string)
    requires SessionsAgree(rows, view, index)
    requires forall m :: 1 <= m <= |view(id)| ==> Key(id, m) in index
    ensures Numbers(SessionStepRanks(rows, id), |view(id)|, SessionKeys(index, id, |view(id)|))
  {
    hide SessionsAgree, InSession;
    var rank, at := SessionStepRanks(rows, id), SessionKeys(index, id, |view(id)|);
    forall k | k in rank ensures 1 <= rank[k] <= |view(id)| && at[rank[k]] == k {
      SessionRowIsIndexed(rows, view, index, id, k);
    }
    forall m | 1 <= m <= |view(id)| ensures at[m] in rank && rank[at[m]] == m {
      SessionStepIsStored(rows, view, index, id, m);
    }
  }

  class SqlEventLog {
    var rows: map<Key, Row>
    /** Every event ever appended, in order, and where each session's j-th one is stored. */
    ghost var appended: seq<StepEvent>
    ghost var index: map<Key, Key>

    ghost predicate Valid()
      reads this
    {
      Represents(rows, appended, index)
    }

    constructor ()
      ensures Valid() && appended == []
    {
      rows, appended, index := map[], [], map[];
    }

    /** SELECT COALESCE(MAX(step), 0) + 1 over one conversation. */
    method NextStep(conversationID: string) returns (step: int)
      requires Valid()
      ensures step == |Conv(appended, conversationID)| + 1
    {
      var max := 0;
      var todo := rows.Keys;
      while todo != {}
        invariant todo <= rows.Keys
        invariant 0 <= max <= |Conv(appended, conversationID)|
        invariant forall k :: k in rows.Keys - todo && k.conv == conversationID ==> k.step <= max
        decreases |todo|
      {
        var k :| k in todo;
        todo := todo - {k};
        assert Key(k.conv, k.step) in rows;
        if k.conv == conversationID && k.step > max {
          max := k.step;
        }
      }
      if |Conv(appended, conversationID)| > 0 {
        assert Key(conversationID, |Conv(appended, conversationID)|) in rows.Keys - todo;
      }
      step := max + 1;
    }

    /** SELECT COALESCE(MAX(session_step), 0) + 1 over one session. */
    method NextSessionStep(sessionID: string) returns (step: int)
      requires Valid() && sessionID != ""
      ensures step == |BySession(appended, sessionID)| + 1
    {
      var max := 0;
      var todo := rows.Keys;
      while todo != {}
        invariant todo <= rows.Keys
        invariant 0 <= max <= |BySession(appended, sessionID)|
        invariant forall k :: k in rows.Keys - todo && InSession(rows[k], sessionID) ==> rows[k].sessionStep <= max
        decreases |todo|
      {
        var k :| k in todo;
        todo := todo - {k};
        if InSession(rows[k], sessionID) && rows[k].sessionStep > max {
          max := rows[k].sessionStep;
        }
      }
      if |BySession(appended, sessionID)| > 0 {
        var last := Key(sessionID, |BySession(appended, sessionID)|);
        assert last in index;
        assert index[last] in rows.Keys - todo;
      }
      step := max + 1;
    }

    /** One serialised transaction: both numbers computed, then the row inserted. */
    method Append(event: StepEvent) returns (step: int)
      requires Valid()
      modifies this
      ensures Valid()
      ensures appended == old(appended) + [event]
      ensures step == |Conv(appended, event.conversationID)|
    {
      step := NextStep(event.conversationID);
      var sessionStep := 0;
      if event.sessionID != "" {
        sessionStep := NextSessionStep(event.sessionID);
      }
      var row := Row(event, if event.sessionID == "" then None else Some(event.sessionID), sessionStep);
      ghost var index' := InsertKeepsAgreement(rows, appended, index, event, row);
      ConvAppend(appended, event, event.conversationID);
      rows := rows[Key(event.conversationID, step) := row];
      appended := appended + [event];
      index := index';
    }

    /** SELECT payload ... WHERE conversation_id = ? ORDER BY step: the in-memory log's own answer. */
    method Events(conversationID: string) returns (out: seq<StepEvent>)
      requires Valid()
      ensures out == Conv(appended, conversationID)
    {
      hide SessionsAgree, ConversationsAgree, Numbers, Sorted, Conv;
      var rank := StepRanks(rows, conversationID);
      var keys := OrderBy(rank);
      ghost var view := ByConversation(appended);
      ghost var at := StepsAreNumbering(rows, view, conversationID);
      RankedPayloads(rows, rank, keys, view(conversationID), at);
      out := Payloads(rows, keys);
    }

    /** SELECT payload ... WHERE session_id = ? ORDER BY session_step: the in-memory log's own answer. */
    method EventsBySessionID(sessionID: string) returns (out: seq<StepEvent>)
      requires Valid()
      ensures out == BySession(appended, sessionID)
    {
      hide SessionsAgree, ConversationsAgree, Numbers, Sorted, InSession, BySession;
      var rank := SessionStepRanks(rows, sessionID);
      var keys := OrderBy(rank);
      ghost var view := BySessions(appended);
      ghost var at := SessionStepsAreNumbering(rows, view, index, sessionID);
      RankedPayloads(rows, rank, keys, view(sessionID), at);
      out := Payloads(rows, keys);
    }
  }
}
