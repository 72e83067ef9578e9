/** A task's client-visible view: its history and status folded out of the session's log. */
module TaskView {
  import opened Hop
  import opened EventLog

  /** A message may be absent: a claim's status need not carry one. */
  type Line = Option<Message>

  /** What one event means for the view: something the client said, or the owner's own claim on the task. */
  datatype Entry = Client(line: Line) | Claim(task: Task)

  /** An input delivered to an actor, as opposed to its reply: logged under the role "user". */
  predicate IsInputEvent(ev: StepEvent) {
    exists i :: 0 <= i < |ev.steps| && ev.steps[i].role == User
  }

  function EntryOf(ev: StepEvent, owner: string): Option<Entry> {
    match Parse(NewestText(ev.steps))
    case None => None
    case Some(env) =>
      if IsInputEvent(ev) then
        if env.from != "" then None
        else if env.data.task.Some? then Some(Client(env.data.task.value.statusMessage))
        else if env.data.message.Some? then Some(Client(env.data.message))
        else None
      else if env.from == owner && (IsTerminalReply(env) || env.from == env.to) && env.data.task.Some? then
        Some(Claim(env.data.task.value))
      else None
  }

  function Entries(events: seq<StepEvent>, owner: string): seq<Entry> {
    if events == [] then []
    else
      var rest := Entries(events[..|events| - 1], owner);
      var e := EntryOf(events[|events| - 1], owner);
      if e.Some? then rest + [e.value] else rest
  }

  lemma {:induction false} EntriesAppend(events: seq<StepEvent>, ev: StepEvent, owner: string)
    ensures Entries(events + [ev], owner) ==
            Entries(events, owner) + if EntryOf(ev, owner).Some? then [EntryOf(ev, owner).value] else []
  {
    assert (events + [ev])[..|events|] == events;
  }

  function LineOf(e: Entry): Line {
    match e
    case Client(line) => line
    case Claim(task) => task.statusMessage
  }

  function LinesAt(entries: seq<Entry>, at: seq<nat>): (lines: seq<Line>)
    requires forall i :: 0 <= i < |at| ==> at[i] < |entries|
    ensures |lines| == |at|
    ensures forall i :: 0 <= i < |at| ==> lines[i] == LineOf(entries[at[i]])
  {
    seq(|at|, i requires 0 <= i < |at| => LineOf(entries[at[i]]))
  }

  // ---------- the fold ----------

  /** Where in `entries` each line of the history stands: a claim enters it when the next one supersedes it. */
  function Shown(entries: seq<Entry>): seq<nat> {
    if entries == [] then []
    else
      var init, n := entries[..|entries| - 1], |entries| - 1;
      var rest := Shown(init);
      if entries[n].Client? then rest + [n]
      else if Newest(init).Some? then rest + [Newest(init).value]
      else rest
  }

  /** The newest claim, which is the status and not yet history. */
  function Newest(entries: seq<Entry>): Option<nat> {
    if entries == [] then None
    else if entries[|entries| - 1].Claim? then Some(|entries| - 1)
    else Newest(entries[..|entries| - 1])
  }

  lemma {:induction false} NewestIs(entries: seq<Entry>)
    ensures match Newest(entries)
            case None => forall i :: 0 <= i < |entries| ==> entries[i].Client?
            case Some(n) => n < |entries| && entries[n].Claim? && forall i :: n < i < |entries| ==> entries[i].Client?
  {
    if entries != [] {
      NewestIs(entries[..|entries| - 1]);
    }
  }

  ghost predicate Superseded(entries: seq<Entry>, i: nat) {
    i < |entries| && entries[i].Claim? && exists k :: i < k < |entries| && entries[k].Claim?
  }

  /** What belongs into the history: everything the client said, every claim another one replaced. */
  ghost predicate Belongs(entries: seq<Entry>, i: nat) {
    i < |entries| && (entries[i].Client? || Superseded(entries, i))
  }

  lemma {:induction false} BelongsGrows(entries: seq<Entry>, e: Entry, i: nat)
    ensures Belongs(entries + [e], i) <==>
              Belongs(entries, i) || (i == |entries| && e.Client?) || (e.Claim? && Newest(entries) == Some(i))
  {
    NewestIs(entries);
    var longer := entries + [e];
    if Superseded(longer, i) && !Superseded(entries, i) {
      var k :| i < k < |longer| && longer[k].Claim?;
      assert k == |entries|;
    }
    if Superseded(entries, i) {
      var k :| i < k < |entries| && entries[k].Claim?;
      assert longer[k].Claim?;
    }
    if e.Claim? && Newest(entries) == Some(i) {
      assert longer[|entries|].Claim?;
    }
  }

  /** Everything that belongs is shown exactly once, and nothing else. */
  ghost predicate Conserves(entries: seq<Entry>, at: seq<nat>) {
    && (forall j :: 0 <= j < |at| ==> Belongs(entries, at[j]))
    && (forall i :: Belongs(entries, i) ==> i in at)
    && (forall j, k :: 0 <= j < k < |at| ==> at[j] != at[k])
  }

  lemma {:induction false} HistoryConserves(entries: seq<Entry>)
    ensures Conserves(entries, Shown(entries))
  {
    if entries != [] {
      var init, e := entries[..|entries| - 1], entries[|entries| - 1];
      HistoryConserves(init);
      assert entries == init + [e];
      NewestIs(init);
      forall i ensures Belongs(entries, i) <==>
        Belongs(init, i) || (i == |init| && e.Client?) || (e.Claim? && Newest(init) == Some(i))
      {
        BelongsGrows(init, e, i);
      }
      NewestNotShown(init);
      ShownAppend(init, e);
    }
  }

  lemma {:induction false} NewestNotShown(entries: seq<Entry>)
    requires Conserves(entries, Shown(entries))
    ensures Newest(entries).Some? ==> Newest(entries).value !in Shown(entries)
  {
    NewestIs(entries);
  }

  /** Where the line that `e` brings into the history stands, if it brings one. */
  function Brought(init: seq<Entry>, e: Entry): seq<nat> {
    if e.Client? then [|init|] else if Newest(init).Some? then [Newest(init).value] else []
  }

  lemma {:induction false} ShownGrows(init: seq<Entry>, e: Entry)
    ensures Shown(init + [e]) == Shown(init) + Brought(init, e)
  {
    assert (init + [e])[..|init|] == init;
  }

  lemma {:induction false} ShownAppend(init: seq<Entry>, e: Entry)
    requires Conserves(init, Shown(init))
    requires Newest(init).Some? ==> Newest(init).value !in Shown(init)
    requires forall i :: Belongs(init + [e], i) <==>
               Belongs(init, i) || (i == |init| && e.Client?) || (e.Claim? && Newest(init) == Some(i))
    ensures Conserves(init + [e], Shown(init + [e]))
  {
    hide Shown, Superseded;
    ShownGrows(init, e);
    ShownBelow(init, Shown(init));
    AddingOne(init, e, Shown(init), Brought(init, e));
  }

  lemma {:induction false} ShownBelow(entries: seq<Entry>, at: seq<nat>)
    requires Conserves(entries, at)
    ensures |entries| !in at
  {
  }

  /** One more line, that was not there before, where exactly one more belongs. */
  lemma {:induction false} AddingOne(init: seq<Entry>, e: Entry, at: seq<nat>, more: seq<nat>)
    requires Conserves(init, at) && |more| <= 1
    requires forall i :: i in more ==> i !in at
    requires forall i :: Belongs(init + [e], i) <==> Belongs(init, i) || i in more
    ensures Conserves(init + [e], at + more)
  {
    hide Belongs;
    var all := at + more;
    forall j | 0 <= j < |all| ensures Belongs(init + [e], all[j]) {
      assert all[j] in at || all[j] in more;
    }
    forall i | Belongs(init + [e], i) ensures i in all {
      assert i in at || i in more;
    }
    forall j, k | 0 <= j < k < |all| ensures all[j] != all[k] {
      if k >= |at| {
        assert all[k] in more && all[j] in at;
      }
    }
  }

  ghost predicate InOrder(at: seq<nat>) {
    forall j, k :: 0 <= j < k < |at| ==> at[j] < at[k]
  }

  /** A client message between a claim and the claim that supersedes it. */
  ghost predicate Interrupted(entries: seq<Entry>) {
    exists i, j, k :: 0 <= i < j < k < |entries| && entries[i].Claim? && entries[j].Client? && entries[k].Claim?
  }

  /**
   * The history is in log order if and only if the client never spoke between one claim and the next: a claim's line
   * is placed where it was superseded, behind whatever the client said in between.
   */
  lemma {:induction false} HistoryInLogOrderIff(entries: seq<Entry>)
    ensures InOrder(Shown(entries)) <==> !Interrupted(entries)
  {
    if Interrupted(entries) {
      var i, j, k :| 0 <= i < j < k < |entries| && entries[i].Claim? && entries[j].Client? && entries[k].Claim?;
      ClaimShownAfter(entries, i, j, k);
    } else {
      UninterruptedInOrder(entries);
    }
  }

  /**
   * Of a claim and a client message behind it, both shown, the claim comes second once anything superseded it later.
   */
  lemma {:induction false} ClaimShownAfter(entries: seq<Entry>, i: nat, j: nat, k: nat)
    requires i < j < k < |entries| && entries[i].Claim? && entries[j].Client? && entries[k].Claim?
    ensures !InOrder(Shown(entries))
    decreases |entries|
  {
    var init, e := entries[..|entries| - 1], entries[|entries| - 1];
    if k < |init| {
      ClaimShownAfter(init, i, j, k);
      StaysOutOfOrder(init, e);
      assert init + [e] == entries;
    } else if exists m :: j < m < k && entries[m].Claim? {
      var m :| j < m < k && entries[m].Claim?;
      ClaimShownAfter(init, i, j, m);
      StaysOutOfOrder(init, e);
      assert init + [e] == entries;
    } else {
      NewestIs(init);
      HistoryConserves(init);
      assert init[i].Claim? && init[j].Client?;
      var n := Newest(init).value;
      assert entries[n].Claim?;
      assert n < j;
      assert Belongs(init, j);
      var p :| 0 <= p < |Shown(init)| && Shown(init)[p] == j;
      assert Shown(entries) == Shown(init) + [n];
      assert Shown(entries)[p] == j && Shown(entries)[|Shown(init)|] == n;
    }
  }

  lemma {:induction false} StaysOutOfOrder(init: seq<Entry>, e: Entry)
    requires !InOrder(Shown(init))
    ensures !InOrder(Shown(init + [e]))
  {
    assert (init + [e])[..|init|] == init;
    var j, k :| 0 <= j < k < |Shown(init)| && Shown(init)[j] >= Shown(init)[k];
    assert Shown(init + [e])[j] >= Shown(init + [e])[k];
  }

  lemma {:induction false} InterruptedGrows(init: seq<Entry>, e: Entry)
    ensures Interrupted(init) ==> Interrupted(init + [e])
  {
    if Interrupted(init) {
      var i, j, k :| 0 <= i < j < k < |init| && init[i].Claim? && init[j].Client? && init[k].Claim?;
      var longer := init + [e];
      assert longer[i].Claim? && longer[j].Client? && longer[k].Claim?;
    }
  }

  lemma {:induction false} NoneBetween(entries: seq<Entry>, n: nat, b: nat, m: nat)
    requires !Interrupted(entries) && n < m < |entries| && b < m
    requires entries[n].Claim? && entries[m].Claim? && (entries[b].Client? || b < n)
    ensures b < n
  {
  }

  lemma {:induction false} UninterruptedInOrder(entries: seq<Entry>)
    requires !Interrupted(entries)
    ensures InOrder(Shown(entries))
  {
    if entries != [] {
      var init, e := entries[..|entries| - 1], entries[|entries| - 1];
      assert entries == init + [e];
      InterruptedGrows(init, e);
      UninterruptedInOrder(init);
      HistoryConserves(init);
      NewestIs(init);
      if e.Claim? && Newest(init).Some? {
        var n := Newest(init).value;
        forall j | 0 <= j < |Shown(init)| ensures Shown(init)[j] < n {
          var b := Shown(init)[j];
          assert Belongs(init, b);
          NoneBetween(entries, n, b, |init|);
        }
      }
    }
  }

  // ---------- assembleTask ----------

  /** The task's row: its status is the row's, not the log's. */
  datatype TaskRow = TaskRow(taskID: string, contextID: string, ownerAgent: string, sessionID: string,
                             status: TaskState)

  datatype View = View(
    id: string, contextID: string, state: TaskState, statusMessage: Line, artifacts: seq<string>,
    metadata: map<string, string>, history: seq<Line>)

  const DEFAULT_HISTORY_LENGTH := 100

  const TENANT_KEY := "checkpointd-tenant"

  /** Exactly the last `n`, all of them if there are fewer. */
  function LastOf(lines: seq<Line>, n: int): (r: seq<Line>)
    ensures |r| == if n <= 0 then 0 else if n < |lines| then n else |lines|
    ensures exists before :: lines == before + r
  {
    var k := if n <= 0 then |lines| else if n < |lines| then |lines| - n else 0;
    assert lines == lines[..k] + lines[k..];
    lines[k..]
  }

  lemma {:induction false} ShownInRange(entries: seq<Entry>)
    ensures forall j :: 0 <= j < |Shown(entries)| ==> Shown(entries)[j] < |entries|
  {
    HistoryConserves(entries);
    forall j | 0 <= j < |Shown(entries)| ensures Shown(entries)[j] < |entries| {
      assert Belongs(entries, Shown(entries)[j]);
    }
  }

  function History(entries: seq<Entry>): seq<Line> {
    ShownInRange(entries);
    LinesAt(entries, Shown(entries))
  }

  lemma {:induction false} LinesAppend(entries: seq<Entry>, e: Entry, at: seq<nat>, more: seq<nat>)
    requires (forall i :: 0 <= i < |at| ==> at[i] < |entries|) && (forall i :: 0 <= i < |more| ==> more[i] <= |entries|)
    ensures forall i :: 0 <= i < |at + more| ==> (at + more)[i] < |entries + [e]|
    ensures LinesAt(entries + [e], at + more) == LinesAt(entries, at) + LinesAt(entries + [e], more)
  {
  }

  lemma {:induction false} HistoryAppend(entries: seq<Entry>, e: Entry)
    ensures Newest(entries + [e]) == if e.Claim? then Some(|entries|) else Newest(entries)
    ensures Newest(entries).Some? ==> Newest(entries).value < |entries| && entries[Newest(entries).value].Claim?
    ensures History(entries + [e]) == History(entries) +
              if e.Client? then [e.line]
              else if Newest(entries).Some? then [entries[Newest(entries).value].task.statusMessage] else []
  {
    hide Shown;
    assert (entries + [e])[..|entries|] == entries;
    NewestIs(entries);
    ShownInRange(entries);
    ShownInRange(entries + [e]);
    ShownGrows(entries, e);
    LinesAppend(entries, e, Shown(entries), Brought(entries, e));
  }

  /** The claim the view shows as its status, with its row's own identity and state. */
  function Status(entries: seq<Entry>): Option<Task> {
    NewestIs(entries);
    if Newest(entries).None? then None else Some(entries[Newest(entries).value].task)
  }

  method AssembleTask(events: seq<StepEvent>, row: TaskRow, historyLength: Option<int>, includeArtifacts: bool)
    returns (v: View)
    ensures var entries := Entries(events, row.ownerAgent);
            var claim := Status(entries);
            && v.history == LastOf(History(entries), if historyLength.Some? then historyLength.value
                                   else DEFAULT_HISTORY_LENGTH)
            && v.id == row.taskID && v.contextID == row.contextID && v.state == row.status
            && v.statusMessage == (if claim.Some? then claim.value.statusMessage else None)
            && v.artifacts == (if claim.Some? && includeArtifacts then claim.value.artifacts else [])
            && v.metadata == (if claim.Some? then claim.value.metadata else map[])[TENANT_KEY := row.sessionID]
  {
    var history: seq<Line> := [];
    var lastTask: Option<Task> := None;
    for i := 0 to |events|
      invariant history == History(Entries(events[..i], row.ownerAgent))
      invariant lastTask == Status(Entries(events[..i], row.ownerAgent))
    {
      ghost var before := Entries(events[..i], row.ownerAgent);
      EntriesAppend(events[..i], events[i], row.ownerAgent);
      assert events[..i + 1] == events[..i] + [events[i]];
      ghost var e := EntryOf(events[i], row.ownerAgent);
      if e.Some? {
        HistoryAppend(before, e.value);
      } else {
        assert before + [] == before;
      }
      var env := Parse(NewestText(events[i].steps));
      if env.Some? {
        if IsInputEvent(events[i]) {
          if env.value.from == "" {
            if env.value.data.task.Some? {
              history := history + [env.value.data.task.value.statusMessage];
            } else if env.value.data.message.Some? {
              history := history + [env.value.data.message];
            }
          }
        } else if env.value.from == row.ownerAgent && (IsTerminalReply(env.value) || env.value.from == env.value.to) {
          if env.value.data.task.Some? {
            if lastTask.Some? {
              history := history + [lastTask.value.statusMessage];
            }
            lastTask := env.value.data.task;
          }
        }
      }
    }
    assert events[..|events|] == events;
    var n := if historyLength.Some? then historyLength.value else DEFAULT_HISTORY_LENGTH;
    v := View(row.taskID, row.contextID, row.status,
              if lastTask.Some? then lastTask.value.statusMessage else None,
              if lastTask.Some? && includeArtifacts then lastTask.value.artifacts else [],
              (if lastTask.Some? then lastTask.value.metadata else map[])[TENANT_KEY := row.sessionID],
              LastOf(history, n));
  }
}
