/** The session table: its guarded updates, its two keyset-paged lists, and the salvage sweep that walks one of them. */
module SessionStore {
  import opened Hop
  import opened Ownership
  import opened PageToken

  // ---------- the order of the lists ----------

  /** Byte order of ids. */
  predicate Less(a: string, b: string) {
    if b == [] then false
    else if a == [] then true
    else a[0] < b[0] || (a[0] == b[0] && Less(a[1..], b[1..]))
  }

  lemma {:induction false} LessIsTotal(a: string, b: string)
    ensures Less(a, b) || Less(b, a) || a == b
    ensures !(Less(a, b) && Less(b, a))
    ensures !Less(a, a)
  {
    if a != [] && b != [] {
      LessIsTotal(a[1..], b[1..]);
      assert a == [a[0]] + a[1..] && b == [b[0]] + b[1..];
    }
    if a != [] {
      LessIsIrreflexive(a);
    }
  }

  lemma {:induction false} LessIsIrreflexive(a: string)
    ensures !Less(a, a)
  {
    if a != [] {
      LessIsIrreflexive(a[1..]);
    }
  }

  lemma {:induction false} LessIsTransitive(a: string, b: string, c: string)
    requires Less(a, b) && Less(b, c)
    ensures Less(a, c)
  {
    if a != [] && a[0] == b[0] && b[0] == c[0] {
      LessIsTransitive(a[1..], b[1..], c[1..]);
    }
  }

  /** A row's place in both lists: (last_updated, id). */
  datatype Key = Key(updated: int, id: string)

  predicate Before(k: Key, l: Key) {
    k.updated < l.updated || (k.updated == l.updated && Less(k.id, l.id))
  }

  lemma {:induction false} BeforeIsOrder(k: Key, l: Key, m: Key)
    ensures Before(k, l) || Before(l, k) || k == l
    ensures !(Before(k, l) && Before(l, k)) && !Before(k, k)
    ensures Before(k, l) && Before(l, m) ==> Before(k, m)
  {
    LessIsTotal(k.id, l.id);
    LessIsTotal(k.id, k.id);
    if Less(k.id, l.id) && Less(l.id, m.id) {
      LessIsTransitive(k.id, l.id, m.id);
    }
  }

  // ---------- rows ----------

  datatype SessionRow = SessionRow(row: Row, ownerAgent: string, bootstrap: Envelope, lastUpdated: int)

  type Sessions = map<string, SessionRow>

  /** The owner a list is asked for: a pod by name, or one incarnation of it. */
  datatype Filter = OwnedByPod(pod: string) | OwnedByIncarnation(pod: string, uid: string)

  predicate Matches(r: SessionRow, f: Filter) {
    && r.row.state != Terminated
    && r.row.pod == f.pod
    && (f.OwnedByIncarnation? ==> r.row.uid == f.uid)
  }

  function Matching(t: Sessions, f: Filter): (ids: set<string>)
    ensures ids <= t.Keys
  {
    set id | id in t && Matches(t[id], f)
  }

  /**
   * What a list is of: rows still RUNNING or TERMINATING, of that pod, and of that incarnation of it if one is named.
   */
  lemma {:induction false} MatchingIs(t: Sessions, f: Filter)
    ensures forall id :: id in Matching(t, f) <==>
              && id in t && t[id].row.state in {Running, Terminating} && t[id].row.pod == f.pod
              && (f.OwnedByIncarnation? ==> t[id].row.uid == f.uid)
  {
  }

  function KeyOf(t: Sessions, id: string): Key
    requires id in t
  {
    Key(t[id].lastUpdated, id)
  }

  /** Those of `ids` that come after the cursor; no cursor means from the start. */
  function After(t: Sessions, ids: set<string>, cursor: Option<Key>): (later: set<string>)
    requires ids <= t.Keys
    ensures later <= ids
  {
    set id | id in ids && (cursor.None? || Before(cursor.value, KeyOf(t, id)))
  }

  ghost predicate Ordered(t: Sessions, ids: seq<string>)
    requires forall i :: 0 <= i < |ids| ==> ids[i] in t
  {
    forall i, j :: 0 <= i < j < |ids| ==> Before(KeyOf(t, ids[i]), KeyOf(t, ids[j]))
  }

  /** Session ids are minted non-empty, ASCII and without white space; times are 64-bit. */
  ghost predicate WellKeyed(t: Sessions) {
    forall id :: id in t ==>
      IsInt64(t[id].lastUpdated) && IsAscii(id) && id != "" && forall i :: 0 <= i < |id| ==> !IsSpace(id[i])
  }

  const PAGE_SIZE := 100

  /** The first of `rest` in order, all of them or a page's worth, and the token that continues behind them. */
  ghost predicate IsPage(t: Sessions, rest: set<string>, ids: seq<string>, next: string)
    requires rest <= t.Keys
  {
    && (forall i :: 0 <= i < |ids| ==> ids[i] in rest)
    && Ordered(t, ids)
    && (forall id :: id in rest && id !in ids ==> forall i :: 0 <= i < |ids| ==> Before(KeyOf(t, ids[i]), KeyOf(t, id)))
    && if next == "" then forall id :: id in rest ==> id in ids
       else |ids| == PAGE_SIZE && DecodeToken(next) == Some((t[ids[PAGE_SIZE - 1]].lastUpdated, ids[PAGE_SIZE - 1]))
  }

  datatype Page = ParseError | Page(ids: seq<string>, next: string)

  /** Where a page token says to go on. */
  function CursorOf(token: string): Option<Option<Key>> {
    if token == "" then Some(None)
    else
      match DecodeToken(token)
      case None => None
      case Some((updated, id)) => Some(Some(Key(updated, id)))
  }

  lemma {:induction false} LeastExists(t: Sessions, ids: set<string>)
    requires ids != {} && ids <= t.Keys
    ensures exists id :: id in ids && forall other :: other in ids && other != id ==>
        Before(KeyOf(t, id), KeyOf(t, other))
  {
    var id :| id in ids;
    if ids == {id} {
      assert forall other :: other in ids ==> other == id;
    } else {
      LeastExists(t, ids - {id});
      var best :| best in ids - {id} && forall other :: other in ids - {id} && other != best ==>
        Before(KeyOf(t, best), KeyOf(t, other));
      BeforeIsOrder(KeyOf(t, id), KeyOf(t, best), KeyOf(t, best));
      var least := if Before(KeyOf(t, id), KeyOf(t, best)) then id else best;
      forall other | other in ids && other != least ensures Before(KeyOf(t, least), KeyOf(t, other)) {
        if other != best {
          BeforeIsOrder(KeyOf(t, id), KeyOf(t, best), KeyOf(t, other));
        }
      }
    }
  }

  /** `all` are the first rows of `rest` in order, `todo` the others. */
  ghost predicate FirstOf(t: Sessions, rest: set<string>, all: seq<string>, todo: set<string>)
    requires rest <= t.Keys
  {
    && todo <= rest
    && (forall i :: 0 <= i < |all| ==> all[i] in rest)
    && (forall id :: id in rest <==> id in todo || id in all)
    && Ordered(t, all)
    && forall id, i :: id in todo && 0 <= i < |all| ==> Before(KeyOf(t, all[i]), KeyOf(t, id))
  }

  lemma {:induction false} NothingTaken(t: Sessions, rest: set<string>)
    requires rest <= t.Keys
    ensures FirstOf(t, rest, [], rest)
  {
  }

  lemma {:induction false} OneMoreTaken(t: Sessions, rest: set<string>, all: seq<string>, todo: set<string>,
                                        id: string)
    requires rest <= t.Keys && FirstOf(t, rest, all, todo) && id in todo
    requires forall other :: other in todo && other != id ==> Before(KeyOf(t, id), KeyOf(t, other))
    ensures FirstOf(t, rest, all + [id], todo - {id})
  {
    hide Before;
  }

  lemma {:induction false} AllKnown(t: Sessions, rest: set<string>, all: seq<string>, todo: set<string>)
    requires rest <= t.Keys && FirstOf(t, rest, all, todo) && WellKeyed(t)
    ensures forall i :: 0 <= i < |all| ==> all[i] in t && IsAscii(all[i])
  {
  }

  lemma {:induction false} LastPage(t: Sessions, rest: set<string>, all: seq<string>)
    requires rest <= t.Keys && FirstOf(t, rest, all, {})
    ensures IsPage(t, rest, all, "")
  {
  }

  lemma {:induction false} FullPage(t: Sessions, rest: set<string>, all: seq<string>, todo: set<string>)
    requires rest <= t.Keys && FirstOf(t, rest, all, todo) && WellKeyed(t) && |all| == PAGE_SIZE + 1
    requires forall i :: 0 <= i < |all| ==> all[i] in t && IsAscii(all[i])
    ensures var last := all[PAGE_SIZE - 1];
            IsPage(t, rest, all[..PAGE_SIZE], EncodeToken(t[last].lastUpdated, last))
  {
    hide Before, DecodeToken, EncodeToken;
    var last := all[PAGE_SIZE - 1];
    TokenRoundTrip(t[last].lastUpdated, last);
    var ids := all[..PAGE_SIZE];
    assert forall id :: id in rest && id !in ids ==> id == all[PAGE_SIZE] || id in todo;
  }

  /** A task's row, under optimistic concurrency control. */
  datatype TaskRow = TaskRow(status: TaskState, version: int)

  datatype TaskKey = TaskKey(taskID: string, ownerAgent: string, sessionID: string)

  class Store {
    var sessions: Sessions
    var tasks: map<TaskKey, TaskRow>

    constructor ()
      ensures sessions == map[] && tasks == map[]
    {
      sessions, tasks := map[], map[];
    }

    /** One transaction: the task Canceled and its session TERMINATING together, or neither. */
    method CancelTaskAndSession(key: TaskKey, prevVersion: int, now: int) returns (ok: bool)
      modifies this
      ensures ok == (key in old(tasks) && old(tasks)[key].version == prevVersion)
      ensures !ok ==> tasks == old(tasks) && sessions == old(sessions)
      ensures ok ==>
                && tasks == old(tasks)[key := TaskRow(Canceled, prevVersion + 1)]
                && sessions.Keys == old(sessions).Keys
                && (forall id :: id in sessions && id != key.sessionID ==> sessions[id] == old(sessions)[id])
                && (key.sessionID in sessions ==>
                      sessions[key.sessionID].row == MarkTerminating(old(sessions)[key.sessionID].row))
    {
      if key !in tasks || tasks[key].version != prevVersion {
        return false;
      }
      tasks := tasks[key := TaskRow(Canceled, prevVersion + 1)];
      if key.sessionID in sessions {
        var row := sessions[key.sessionID].row;
        var n := Update(key.sessionID, row.(state := Terminating), row.state == Running, now);
      }
      ok := true;
    }

    method CreateSession(id: string, agent: string, pod: string, uid: string, bootstrap: Envelope, now: int)
      returns (ok: bool)
      modifies this`sessions
      ensures ok == (id !in old(sessions))
      ensures sessions == if ok then old(sessions)[id := SessionRow(Row(Running, pod, uid), agent, bootstrap, now)]
                          else old(sessions)
    {
      ok := id !in sessions;
      if ok {
        sessions := sessions[id := SessionRow(Row(Running, pod, uid), agent, bootstrap, now)];
      }
    }

    /** One UPDATE of one row: what it is guarded by, and what it leaves. */
    method Update(id: string, to: Row, guarded: bool, now: int) returns (n: nat)
      modifies this`sessions
      ensures n == if id in old(sessions) && guarded then 1 else 0
      ensures sessions == if n == 1 then old(sessions)[id := old(sessions)[id].(row := to, lastUpdated := now)]
          else old(sessions)
    {
      n := 0;
      if id in sessions && guarded {
        sessions := sessions[id := sessions[id].(row := to, lastUpdated := now)];
        n := 1;
      }
    }

    method Claim(id: string, pod: string, uid: string, now: int) returns (claimed: bool)
      modifies this`sessions
      ensures claimed == (id in old(sessions) && ClaimSession(old(sessions)[id].row, pod, uid).1)
      ensures sessions == if !claimed then old(sessions) else
                old(sessions)[id := old(sessions)[id].(row := ClaimSession(old(sessions)[id].row, pod, uid).0,
                                                       lastUpdated := now)]
    {
      if id !in sessions {
        return false;
      }
      var n := Update(id, sessions[id].row.(pod := pod, uid := uid), sessions[id].row.pod == "", now);
      claimed := n == 1;
    }

    method ClaimOrphaned(id: string, pod: string, uid: string, expected: string, now: int) returns (claimed: bool)
      modifies this`sessions
      ensures claimed == (id in old(sessions) && ClaimOrphanedSession(old(sessions)[id].row, pod, uid, expected).1)
      ensures sessions == if !claimed then old(sessions) else
                old(sessions)[id := old(sessions)[id].(
                  row := ClaimOrphanedSession(old(sessions)[id].row, pod, uid, expected).0, lastUpdated := now)]
    {
      if id !in sessions {
        return false;
      }
      var n := Update(id, sessions[id].row.(pod := pod, uid := uid), sessions[id].row.uid == expected, now);
      claimed := n == 1;
    }

    method Release(id: string, now: int)
      modifies this`sessions
      ensures sessions == if id !in old(sessions) then old(sessions) else
                old(sessions)[id := old(sessions)[id].(row := ReleaseSession(old(sessions)[id].row),
                                                       lastUpdated := now)]
    {
      if id in sessions {
        var n := Update(id, sessions[id].row.(pod := "", uid := ""), true, now);
      }
    }

    method MarkTerminatingSession(id: string, now: int)
      modifies this`sessions
      ensures sessions == if id !in old(sessions) || old(sessions)[id].row.state != Running then old(sessions) else
                old(sessions)[id := old(sessions)[id].(row := MarkTerminating(old(sessions)[id].row),
                                                       lastUpdated := now)]
    {
      if id in sessions {
        var n := Update(id, sessions[id].row.(state := Terminating), sessions[id].row.state == Running, now);
      }
    }

    method TerminateSessionRow(id: string, now: int)
      modifies this`sessions
      ensures sessions == if id !in old(sessions) then old(sessions) else
                old(sessions)[id := old(sessions)[id].(row := TerminateSession(old(sessions)[id].row),
                                                       lastUpdated := now)]
    {
      if id in sessions {
        var n := Update(id, sessions[id].row.(state := Terminated), true, now);
      }
    }

    /** One page of a list, built as the query orders and limits it. */
    method ListPage(f: Filter, token: string) returns (p: Page)
      requires WellKeyed(sessions)
      ensures p.ParseError? <==> CursorOf(token).None?
      ensures p.Page? ==> IsPage(sessions, After(sessions, Matching(sessions, f), CursorOf(token).value), p.ids, p.next)
    {
      hide IsPage, Matching, After, CursorOf, FirstOf;
      var cursor := CursorOf(token);
      if cursor.None? {
        return ParseError;
      }
      var todo := After(sessions, Matching(sessions, f), cursor.value);
      ghost var rest := todo;
      var all: seq<string> := [];
      NothingTaken(sessions, rest);
      while |all| < PAGE_SIZE + 1 && todo != {}
        invariant |all| <= PAGE_SIZE + 1 && todo <= sessions.Keys && FirstOf(sessions, rest, all, todo)
        decreases |todo|
      {
        LeastExists(sessions, todo);
        var id :| id in todo && forall other :: other in todo && other != id ==>
          Before(KeyOf(sessions, id), KeyOf(sessions, other));
        OneMoreTaken(sessions, rest, all, todo, id);
        all := all + [id];
        todo := todo - {id};
      }
      AllKnown(sessions, rest, all, todo);
      if |all| <= PAGE_SIZE {
        LastPage(sessions, rest, all);
        return Page(all, "");
      }
      var last := all[PAGE_SIZE - 1];
      FullPage(sessions, rest, all, todo);
      p := Page(all[..PAGE_SIZE], EncodeToken(sessions[last].lastUpdated, last));
    }

    /** Following page tokens over a table nobody changes: every matching session, once, in order. */
    method ListAll(f: Filter) returns (all: seq<string>)
      requires WellKeyed(sessions)
      ensures forall id :: id in all <==>
                && id in sessions && sessions[id].row.state in {Running, Terminating} && sessions[id].row.pod == f.pod
                && (f.OwnedByIncarnation? ==> sessions[id].row.uid == f.uid)
      ensures forall i, j :: 0 <= i < j < |all| ==>
                var t, u := sessions[all[i]].lastUpdated, sessions[all[j]].lastUpdated;
                t < u || (t == u && Less(all[i], all[j]))
    {
      MatchingIs(sessions, f);
      all := [];
      var token := "";
      ghost var todo := Matching(sessions, f);
      while true
        invariant CursorOf(token).Some? && todo == After(sessions, Matching(sessions, f), CursorOf(token).value)
        invariant forall i :: 0 <= i < |all| ==> all[i] in sessions
        invariant forall id :: id in Matching(sessions, f) <==> id in all || id in todo
        invariant Ordered(sessions, all)
        invariant forall id, i :: id in todo && 0 <= i < |all| ==> Before(KeyOf(sessions, all[i]), KeyOf(sessions, id))
        decreases |todo|
      {
        var p := ListPage(f, token);
        PagesJoin(sessions, all, todo, p.ids, p.next);
        all := all + p.ids;
        if p.next == "" {
          break;
        }
        ghost var before := todo;
        token := p.next;
        todo := After(sessions, Matching(sessions, f), CursorOf(token).value);
        PageLeavesRest(sessions, Matching(sessions, f), before, p.ids, p.next, todo);
      }
    }

    /** One claim of a dead incarnation's row, given back when its session does not resume. */
    method SalvageOne(id: string, pod: string, uid: string, thisPod: string, thisUID: string, resumed: bool,
                      now: int, later: int)
      requires id in sessions && sessions[id].row.pod == pod && sessions[id].row.uid == uid
      modifies this`sessions
      ensures sessions == old(sessions)[id := if resumed
                then old(sessions)[id].(row := old(sessions)[id].row.(pod := thisPod, uid := thisUID),
                                        lastUpdated := now)
                else old(sessions)[id].(lastUpdated := later)]
    {
      var ok := ClaimOrphaned(id, thisPod, thisUID, uid, now);
      if !resumed {
        ok := ClaimOrphaned(id, pod, uid, thisUID, later);
      }
    }

    /** One page of a sweep, from the `at`-th claim on. */
    method SweepPage(ids: seq<string>, pod: string, uid: string, thisPod: string, thisUID: string, at: nat,
                     resumes: nat -> bool, clock: nat -> int, ghost t0: Sessions, ghost tried: set<string>,
                         ghost taken: set<string>)
      returns (claimed: nat, ghost taken': set<string>)
      requires Salvaged(t0, sessions, tried, taken, thisPod, thisUID) && WellKeyed(sessions)
      requires forall n :: IsInt64(clock(n))
      requires forall i :: 0 <= i < |ids| ==>
                 ids[i] in t0 && t0[ids[i]].row.pod == pod && t0[ids[i]].row.uid == uid && ids[i] !in taken
      requires forall i, j :: 0 <= i < j < |ids| ==> ids[i] != ids[j]
      modifies this`sessions
      ensures Salvaged(t0, sessions, tried + Ids(ids), taken', thisPod, thisUID) && WellKeyed(sessions)
      ensures taken <= taken' <= taken + Ids(ids) && |taken'| == |taken| + claimed
      ensures (forall n :: resumes(n)) ==> taken' == taken + Ids(ids) && claimed == |ids|
    {
      hide Salvaged, WellKeyed, Ids;
      claimed, taken' := 0, taken;
      ghost var done := tried;
      IdsGrow(ids);
      for i := 0 to |ids|
        invariant done == tried + Ids(ids[..i]) && Salvaged(t0, sessions, done, taken', thisPod, thisUID)
            && WellKeyed(sessions)
        invariant taken <= taken' <= taken + Ids(ids[..i]) && |taken'| == |taken| + claimed
        invariant (forall n :: resumes(n)) ==> taken' == taken + Ids(ids[..i]) && claimed == i
      {
        var id, resumed := ids[i], resumes(at + i);
        assert id !in taken';
        StillDeads(t0, sessions, done, taken', thisPod, thisUID, id);
        ghost var before := sessions;
        SalvageOne(id, pod, uid, thisPod, thisUID, resumed, clock(2 * (at + i)), clock(2 * (at + i) + 1));
        OneMoreTried(t0, before, sessions, done, taken', thisPod, thisUID, id, resumed,
                     clock(2 * (at + i) + if resumed then 0 else 1));
        done := done + {id};
        if resumed {
          claimed, taken' := claimed + 1, taken' + {id};
        }
      }
      assert ids[..|ids|] == ids;
    }

    /**
     * salvageSessionsOwnedBy as it is: a session that does not resume is given back to its dead owner, whose row then
     * moves to the end of the very list being paged through. However often that happens, after any number of pages
     * every session of the dead incarnation is this process's or still the dead one's, nothing else has changed, and a
     * sweep that ended has tried them all.
     */
    method Sweep(pod: string, uid: string, thisPod: string, thisUID: string, pages: nat,
                 resumes: nat -> bool, clock: nat -> int)
      returns (claimed: nat, ended: bool, ghost tried: set<string>, ghost taken: set<string>)
      requires WellKeyed(sessions) && uid != thisUID
      requires forall n :: IsInt64(clock(n))
      modifies this`sessions
      ensures Salvaged(old(sessions), sessions, tried, taken, thisPod, thisUID)
      ensures tried <= Matching(old(sessions), OwnedByIncarnation(pod, uid)) && claimed == |taken|
      ensures ended ==> tried == Matching(old(sessions), OwnedByIncarnation(pod, uid))
      ensures ended ==> forall id :: id in tried <==>
                && id in old(sessions) && old(sessions)[id].row.state in {Running, Terminating}
                && old(sessions)[id].row.pod == pod && old(sessions)[id].row.uid == uid
      ensures (forall n :: resumes(n)) ==>
                taken == tried && (pages * PAGE_SIZE > |Matching(old(sessions), OwnedByIncarnation(pod, uid))| ==>
                                   ended)
    {
      hide Matching, Salvaged, KeyOf, IsPage, AllAfter, DecodeToken, After, Before, WellKeyed;
      var f := OwnedByIncarnation(pod, uid);
      var token := "";
      var at: nat := 0;
      ghost var t0 := sessions;
      claimed, ended, tried, taken := 0, false, {}, {};
      NothingTried(t0, f, thisPod, thisUID);
      MatchingIs(t0, f);
      for page := 0 to pages
        invariant Salvaged(t0, sessions, tried, taken, thisPod, thisUID) && WellKeyed(sessions)
        invariant tried <= Matching(t0, f) && claimed == |taken| && (ended ==> tried == Matching(t0, f))
        invariant (forall n :: resumes(n)) ==> taken == tried && |tried| >= page * PAGE_SIZE
        invariant CursorOf(token).Some? && AllAfter(t0, Matching(t0, f) - tried, CursorOf(token).value)
      {
        var p := ListPage(f, token);
        StillListed(t0, sessions, tried, taken, f, thisPod, thisUID, CursorOf(token).value, p.ids, p.next);
        var n;
        n, taken := SweepPage(p.ids, pod, uid, thisPod, thisUID, at, resumes, clock, t0, tried, taken);
        claimed, at, tried := claimed + n, at + |p.ids|, tried + Ids(p.ids);
        if p.next == "" {
          ended := true;
          break;
        }
        token := p.next;
      }
      SubsetIsNoLarger(tried, Matching(t0, f));
    }
  }

  function Ids(ids: seq<string>): set<string> {
    set id | id in ids
  }

  /** The ids of a page so far, one at a time; none comes twice. */
  lemma {:induction false} IdsGrow(ids: seq<string>)
    requires forall i, j :: 0 <= i < j < |ids| ==> ids[i] != ids[j]
    ensures Ids(ids[..0]) == {}
    ensures forall i :: 0 <= i < |ids| ==> ids[i] !in Ids(ids[..i]) && Ids(ids[..i + 1]) == Ids(ids[..i]) + {ids[i]}
  {
    forall i | 0 <= i < |ids| ensures Ids(ids[..i + 1]) == Ids(ids[..i]) + {ids[i]} {
      assert ids[..i + 1] == ids[..i] + [ids[i]];
    }
  }

  /** `t` is `t0` with the rows `taken` claimed, and the other ones `tried` given back to their owner. */
  ghost predicate Salvaged(t0: Sessions, t: Sessions, tried: set<string>, taken: set<string>, pod: string,
                           uid: string) {
    && t.Keys == t0.Keys && taken <= tried <= t0.Keys
    && forall id :: id in t0 ==>
         t[id] == t0[id].(row := if id in taken then t0[id].row.(pod := pod, uid := uid) else t0[id].row,
                          lastUpdated := if id in tried then t[id].lastUpdated else t0[id].lastUpdated)
  }

  lemma {:induction false} StillDeads(t0: Sessions, t: Sessions, tried: set<string>, taken: set<string>,
                                      pod: string, uid: string, id: string)
    requires Salvaged(t0, t, tried, taken, pod, uid) && id in t0 && id !in taken
    ensures id in t && t[id].row == t0[id].row
  {
  }

  lemma {:induction false} OneMoreTried(t0: Sessions, t: Sessions, t': Sessions, tried: set<string>,
                                        taken: set<string>, pod: string, uid: string, id: string, resumed: bool,
                                        now: int)
    requires Salvaged(t0, t, tried, taken, pod, uid) && WellKeyed(t) && id in t0 && id !in taken && id in t
    requires IsInt64(now) && t' ==
        t[id := t[id].(row := if resumed then t[id].row.(pod := pod, uid := uid) else t[id].row, lastUpdated := now)]
    ensures Salvaged(t0, t', tried + {id}, if resumed then taken + {id} else taken, pod, uid) && WellKeyed(t')
  {
  }

  lemma {:induction false} NothingTried(t0: Sessions, f: Filter, pod: string, uid: string)
    ensures Salvaged(t0, t0, {}, {}, pod, uid) && AllAfter(t0, Matching(t0, f) - {}, None)
  {
  }

  /** What a page of a sweep lists: everything not yet tried, up to where it stops, and nothing already claimed. */
  lemma {:induction false} StillListed(t0: Sessions, t: Sessions, tried: set<string>, taken: set<string>, f: Filter,
                                       pod: string, uid: string, cursor: Option<Key>, ids: seq<string>,
                                       next: string)
    requires Salvaged(t0, t, tried, taken, pod, uid) && f.OwnedByIncarnation? && f.uid != uid
    requires AllAfter(t0, Matching(t0, f) - tried, cursor) && tried <= Matching(t0, f)
    requires IsPage(t, After(t, Matching(t, f), cursor), ids, next)
    ensures forall i :: 0 <= i < |ids| ==>
              ids[i] in Matching(t0, f) && ids[i] !in taken && t0[ids[i]].row.pod == f.pod && t0[ids[i]].row.uid ==
                  f.uid
    ensures forall i, j :: 0 <= i < j < |ids| ==> ids[i] != ids[j]
    ensures next != "" ==> |ids| == PAGE_SIZE
    ensures next != "" ==>
              CursorOf(next).Some? && AllAfter(t0, Matching(t0, f) - (tried + Ids(ids)), CursorOf(next).value)
    ensures next == "" ==> Matching(t0, f) <= tried + Ids(ids)
  {
    var rest := After(t, Matching(t, f), cursor);
    forall id | id in Matching(t0, f) && id !in tried ensures id in rest && t[id] == t0[id] {
      assert t[id] == t0[id] && KeyOf(t, id) == KeyOf(t0, id);
    }
    forall id | id in rest ensures id in Matching(t0, f) && id !in taken {
    }
    forall i, j | 0 <= i < j < |ids| ensures ids[i] != ids[j] {
      BeforeIsOrder(KeyOf(t, ids[i]), KeyOf(t, ids[j]), KeyOf(t, ids[i]));
    }
  }

  /**
   * A page given back, each row at a time later than its cursor, is listed all over again: the same sweep's next page, if
   * it is the last one, holds every session of the page before.
   */
  lemma {:induction false} RevertedPageIsListedAgain(t: Sessions, t': Sessions, f: Filter, cursor: Option<Key>,
          ids: seq<string>, next: string, again: seq<string>)
    requires IsPage(t, After(t, Matching(t, f), cursor), ids, next) && next != "" && CursorOf(next).Some?
    requires Salvaged(t, t', Ids(ids), {}, f.pod, "")
    requires forall id :: id in ids ==> id in t' && t'[id].lastUpdated > t[ids[PAGE_SIZE - 1]].lastUpdated
    requires IsPage(t', After(t', Matching(t', f), CursorOf(next).value), again, "")
    ensures forall id :: id in ids ==> id in again
  {
    forall id | id in ids ensures id in again {
      assert id in Matching(t, f) && t'[id].row == t[id].row;
      assert id in Matching(t', f) && CursorOf(next).value == Some(KeyOf(t, ids[PAGE_SIZE - 1]));
      assert id in After(t', Matching(t', f), CursorOf(next).value);
    }
  }

  ghost predicate AllAfter(t: Sessions, ids: set<string>, cursor: Option<Key>)
    requires ids <= t.Keys
  {
    forall id :: id in ids ==> cursor.None? || Before(cursor.value, KeyOf(t, id))
  }

  lemma {:induction false} PagesJoin(t: Sessions, all: seq<string>, rest: set<string>, ids: seq<string>, next: string)
    requires rest <= t.Keys && IsPage(t, rest, ids, next)
    requires (forall i :: 0 <= i < |all| ==> all[i] in t) && Ordered(t, all)
    requires forall id, i :: id in rest && 0 <= i < |all| ==> Before(KeyOf(t, all[i]), KeyOf(t, id))
    ensures forall i :: 0 <= i < |all + ids| ==> (all + ids)[i] in t
    ensures Ordered(t, all + ids)
  {
  }

  /** What a page leaves for the next one: exactly the rest behind its last row, and less than before. */
  lemma {:induction false} PageLeavesRest(t: Sessions, matching: set<string>, rest: set<string>, ids: seq<string>,
                                          next: string, rest': set<string>)
    requires matching <= t.Keys && rest <= matching
    requires IsPage(t, rest, ids, next) && next != "" && CursorOf(next).Some?
    requires exists cursor :: rest == After(t, matching, cursor)
    requires rest' == After(t, matching, CursorOf(next).value)
    ensures rest' == set id | id in rest && id !in ids
    ensures |rest'| < |rest|
    ensures forall id, i :: id in rest' && 0 <= i < |ids| ==> Before(KeyOf(t, ids[i]), KeyOf(t, id))
  {
    var cursor :| rest == After(t, matching, cursor);
    var last := ids[PAGE_SIZE - 1];
    var left := set id | id in rest && id !in ids;
    assert CursorOf(next).value == Some(KeyOf(t, last));
    forall id | id in matching ensures id in rest' <==> id in left {
      if id in rest' && cursor.Some? {
        BeforeIsOrder(cursor.value, KeyOf(t, last), KeyOf(t, id));
      }
      if id in ids {
        var i :| 0 <= i < |ids| && ids[i] == id;
        BeforeIsOrder(KeyOf(t, id), KeyOf(t, last), KeyOf(t, id));
        assert i < PAGE_SIZE - 1 ==> Before(KeyOf(t, ids[i]), KeyOf(t, last));
      }
    }
    assert rest' == left;
    assert left < rest by {
      assert last in rest && last !in left;
    }
    ProperSubsetIsSmaller(left, rest);
  }

  lemma {:induction false} ProperSubsetIsSmaller(small: set<string>, big: set<string>)
    requires small < big
    ensures |small| < |big|
  {
    var id :| id in big && id !in small;
    assert small <= big - {id};
    SubsetIsNoLarger(small, big - {id});
  }

  lemma {:induction false} SubsetIsNoLarger(small: set<string>, big: set<string>)
    requires small <= big
    ensures |small| <= |big|
  {
    if small != {} {
      var id :| id in small;
      SubsetIsNoLarger(small - {id}, big - {id});
    }
  }
}
