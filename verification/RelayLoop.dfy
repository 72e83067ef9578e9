/** The relay loop's own code: what it delivers, whom it tells, when it stops, and what it cleans up. */
module RelayLoop {
  import opened Hop
  import opened EventLog
  import opened Controller
  import opened Runtime
  import opened Relay
  import opened Session
  import opened System
  import opened SystemInvariant
  import opened Durability
  import opened CrashSafety
  import opened FaultFree
  import opened Substrate

  // ---------- retry delays, in seconds ----------

  datatype Failure = UnknownHarness | OtherFailure

  function AdvanceDelay(current: nat, initial: nat, max: nat): nat {
    if current == 0 then initial else if current * 2 > max then max else current * 2
  }

  function Doubled(initial: nat, times: nat): nat {
    if times == 0 then initial else 2 * Doubled(initial, times - 1)
  }

  /** The delay after `failures` failures of one class. */
  function Delay(failures: nat, initial: nat, max: nat): nat {
    if failures == 0 then 0 else AdvanceDelay(Delay(failures - 1, initial, max), initial, max)
  }

  lemma {:induction false} DelayDoublesUpToMax(failures: nat, initial: nat, max: nat)
    requires 0 < initial <= max && failures > 0
    ensures Delay(failures, initial, max) ==
            if Doubled(initial, failures - 1) <= max then Doubled(initial, failures - 1) else max
    ensures Delay(failures - 1, initial, max) <= Delay(failures, initial, max) <= max
  {
    if failures > 1 {
      DelayDoublesUpToMax(failures - 1, initial, max);
    }
  }

  /** How many of `errors` are of class `f`. */
  function Count(errors: seq<Failure>, f: Failure): nat {
    if errors == [] then 0
    else Count(errors[..|errors| - 1], f) + if errors[|errors| - 1] == f then 1 else 0
  }

  class RetryBackoff {
    var notFound: nat
    var connFail: nat
    ghost var errors: seq<Failure>

    /** Each class's delay follows its own failures only. */
    ghost predicate Valid()
      reads this
    {
      && notFound == Delay(Count(errors, UnknownHarness), 10, 300)
      && connFail == Delay(Count(errors, OtherFailure), 1, 30)
    }

    constructor ()
      ensures Valid() && errors == []
    {
      notFound, connFail, errors := 0, 0, [];
    }

    method Next(error: Failure) returns (delay: nat)
      requires Valid()
      modifies this
      ensures Valid() && errors == old(errors) + [error]
      ensures delay == if error == UnknownHarness then Delay(Count(errors, UnknownHarness), 10, 300)
                       else Delay(Count(errors, OtherFailure), 1, 30)
    {
      assert (errors + [error])[..|errors|] == errors;
      errors := errors + [error];
      if error == UnknownHarness {
        notFound := AdvanceDelay(notFound, 10, 300);
        return notFound;
      }
      connFail := AdvanceDelay(connFail, 1, 30);
      delay := connFail;
    }
  }

  // ---------- reading the log ----------

  method NewestTextOf(steps: seq<EventLog.Step>) returns (text: Text)
    ensures text == NewestText(steps)
  {
    text := Blank;
    for i := 0 to |steps|
      invariant text == NewestText(steps[..i])
    {
      assert steps[..i + 1][..i] == steps[..i];
      if steps[i].text != Blank {
        text := steps[i].text;
      }
    }
    assert steps[..|steps|] == steps;
  }

  /** The newest hop logged, and the newest event, whether or not it carries that hop. */
  method LastHopOf(events: seq<StepEvent>) returns (hop: Option<Envelope>, last: Option<StepEvent>)
    ensures hop == LastHop(events)
    ensures last == if events == [] then None else Some(events[|events| - 1])
  {
    hop, last := None, None;
    if |events| == 0 {
      return;
    }
    last := Some(events[|events| - 1]);
    var i := |events|;
    assert events[..i] == events;
    while i > 0
      invariant 0 <= i <= |events| && hop == None
      invariant LastHop(events) == LastHop(events[..i])
    {
      i := i - 1;
      assert events[..i + 1][..i] == events[..i];
      var text := NewestTextOf(events[i].steps);
      hop := Parse(text);
      if hop.Some? {
        return;
      }
    }
  }

  method StepIDInUse(events: seq<StepEvent>, stepID: string) returns (used: bool)
    ensures used == (stepID in StepIDs(events))
  {
    used := false;
    for i := 0 to |events|
      invariant stepID !in StepIDs(events[..i])
    {
      StepIDsAppend(events[..i], events[i]);
      assert events[..i + 1] == events[..i] + [events[i]];
      var text := NewestTextOf(events[i].steps);
      if text.Json? && text.env.stepID == stepID {
        StepIDsGrow(events, i + 1);
        return true;
      }
    }
    assert events[..|events|] == events;
  }

  lemma {:induction false} StepIDsGrow(events: seq<StepEvent>, n: nat)
    requires n <= |events|
    ensures StepIDs(events[..n]) <= StepIDs(events)
    decreases |events|
  {
    if n == |events| {
      assert events[..n] == events;
    } else {
      StepIDsGrow(events[..|events| - 1], n);
      assert events[..|events| - 1][..n] == events[..n];
    }
  }

  const MAX_STEP_ID_ATTEMPTS := 5

  /** The first of `minted` that is usable, if there is one. */
  function FirstUsable(used: set<string>, minted: seq<string>): Option<string> {
    if minted == [] then None
    else if UsableID(used, minted[0]) then Some(minted[0])
    else FirstUsable(used, minted[1..])
  }

  /** execA2A's own id: the message's if it is usable in its actor's history, else the first usable of five minted. */
  method MintStepID(events: seq<StepEvent>, own: string, minted: seq<string>) returns (id: Option<string>)
    requires |minted| == MAX_STEP_ID_ATTEMPTS
    ensures id == if UsableID(StepIDs(events), own) then Some(own) else FirstUsable(StepIDs(events), minted)
    ensures id.Some? ==> UsableID(StepIDs(events), id.value)
  {
    ghost var used := StepIDs(events);
    var stepID := own;
    var attempt := 0;
    var inUse := StepIDInUse(events, stepID);
    while stepID == "" || inUse
      invariant 0 <= attempt <= MAX_STEP_ID_ATTEMPTS
      invariant inUse == (stepID in used)
      invariant if UsableID(used, own) then stepID == own
                else FirstUsable(used, minted) ==
                     if UsableID(used, stepID) then Some(stepID) else FirstUsable(used, minted[attempt..])
      decreases MAX_STEP_ID_ATTEMPTS - attempt
    {
      if attempt >= MAX_STEP_ID_ATTEMPTS {
        return None;
      }
      stepID := minted[attempt];
      assert minted[attempt..][1..] == minted[attempt + 1..];
      attempt := attempt + 1;
      inUse := StepIDInUse(events, stepID);
    }
    id := Some(stepID);
  }

  method HistoryStepsOf(events: seq<StepEvent>) returns (steps: seq<EventLog.Step>)
    ensures steps == HistorySteps(events)
  {
    steps := [];
    for i := 0 to |events|
      invariant steps == HistorySteps(events[..i])
    {
      HistoryStepsAppend(events[..i], events[i]);
      assert events[..i + 1] == events[..i] + [events[i]];
      var text := StepText(events[i].steps);
      if text != Blank {
        steps := steps + [EventLog.Step(User, text)];
      }
    }
    assert events[..|events|] == events;
  }

  // ---------- where the loop enters ----------

  /** establishRelayState, up to the turn it may have to complete first: what a restarted driver does next. */
  method Establish(events: seq<StepEvent>, bootstrap: Envelope, ghost w: World, ghost s: Sys) returns (d: Driver)
    requires events == s.log && bootstrap == w.bootstrap && s.driver.Down?
    ensures DoRestart(w, s) == s.(driver := d)
  {
    var hop, last := LastHopOf(events);
    if hop.None? {
      return Relaying(bootstrap);
    }
    if last.value.state == StateCompleted {
      return Relaying(hop.value);
    }
    d := Turning(Job(last.value.conversationID, None, []), Trying);
  }

  /**
   * continueRelayLoop: refused unless the newest hop is a final reply; then the client's message goes to its sender.
   */
  method ContinueFrom(events: seq<StepEvent>, data: Data, ghost s: Sys) returns (d: Option<Driver>)
    requires events == s.log && s.driver.Down?
    ensures d.None? <==> LastHop(events).None? || !IsTerminalReply(LastHop(events).value)
    ensures DoNextMessage(s, data) == if d.Some? then s.(driver := d.value) else s
  {
    var hop, last := LastHopOf(events);
    if hop.None? || !IsTerminalReply(hop.value) {
      return None;
    }
    d := Some(Relaying(Envelope("", hop.value.from, "", "", false, data)));
  }

  lemma {:induction false} NoneUsable(used: set<string>, minted: seq<string>, id: string)
    requires FirstUsable(used, minted).None? && id in minted
    ensures !UsableID(used, id)
  {
    if id != minted[0] {
      NoneUsable(used, minted[1..], id);
    }
  }

  /** execA2A's request for the hop in hand: an id of its own, and the conversation so far behind it. */
  method Address(res: Envelope, events: seq<StepEvent>, minted: seq<string>, ghost s: Sys) returns (job: Option<Job>)
    requires |minted| == MAX_STEP_ID_ATTEMPTS && events == Conv(s.log, res.to)
    requires s.driver == Relaying(res) && !IsTerminalReply(res)
    ensures job.Some? ==> job.value.want.Some?
                          && DoSend(s, job.value.want.value.stepID) == s.(driver := Turning(job.value, Trying))
    ensures job.None? ==> forall id :: id in minted ==> DoSend(s, id) == s.(driver := Down)
  {
    var id := MintStepID(events, res.stepID, minted);
    if id.None? {
      forall m | m in minted ensures !UsableID(StepIDs(events), m) {
        NoneUsable(StepIDs(events), minted, m);
      }
      return None;
    }
    var msg := res.(stepID := id.value);
    var history := HistoryStepsOf(events);
    job := Some(Job(res.to, Some(msg), history + [UserStep(msg)]));
  }

  // ---------- execA2A ----------

  /** What one Exec call comes back with: nothing, a text that is no envelope, or a reply. */
  datatype ExecResult = ExecFailed | NotA2A | ExecReply(env: Envelope)

  /** How execA2A ends, given what its Exec calls come back with. */
  function Matching(results: seq<ExecResult>, stepID: string): Option<Envelope> {
    if results == [] || results[0].ExecFailed? || results[0].NotA2A? then None
    else if results[0].env.stepID == stepID then Some(results[0].env)
    else Matching(results[1..], stepID)
  }

  /** A reply under another id is retried; any other failure ends the call. */
  method AwaitOwnReply(stepID: string, results: seq<ExecResult>) returns (reply: Option<Envelope>, execs: nat)
    ensures reply == Matching(results, stepID)
    ensures execs <= |results|
    ensures forall i :: 0 <= i < execs - 1 ==> results[i].ExecReply? && results[i].env.stepID != stepID
    ensures reply.Some? ==> execs > 0 && results[execs - 1] == ExecReply(reply.value) && reply.value.stepID == stepID
  {
    execs := 0;
    while execs < |results|
      invariant 0 <= execs <= |results|
      invariant Matching(results, stepID) == Matching(results[execs..], stepID)
      invariant forall i :: 0 <= i < execs ==> results[i].ExecReply? && results[i].env.stepID != stepID
    {
      var r := results[execs];
      assert results[execs..][1..] == results[execs + 1..];
      execs := execs + 1;
      if !r.ExecReply? {
        return None, execs;
      }
      if r.env.stepID == stepID {
        return Some(r.env), execs;
      }
    }
    reply := None;
  }

  // ---------- the loop ----------

  /** The first point worth unblocking the caller for: the final answer, or the first agent's own progress. */
  predicate Qualifies(res: Envelope, first: string) {
    IsTerminalReply(res) || (res.from == first && res.to == first && res.data.kind == DataTask)
  }

  /** Whom onQualifying is called with, given the envelopes the loop has held in hand. */
  function Notified(held: seq<Envelope>, first: string): seq<Envelope> {
    if held == [] then []
    else if Qualifies(held[0], first) then [held[0]]
    else Notified(held[1..], first)
  }

  lemma {:induction false} NotifiedAppend(held: seq<Envelope>, res: Envelope, first: string)
    ensures Notified(held + [res], first) ==
            if Notified(held, first) != [] then Notified(held, first)
            else if Qualifies(res, first) then [res] else []
    ensures |Notified(held, first)| <= 1
  {
    if held == [] {
      assert held + [res] == [res] && [res][1..] == [];
    } else {
      NotifiedAppend(held[1..], res, first);
      assert (held + [res])[1..] == held[1..] + [res];
    }
  }

  /** The caller is told of the first envelope that is a final reply or the first agent's own Task to itself, if any. */
  lemma {:induction false} NotifiedIsFirst(held: seq<Envelope>, first: string)
    ensures Notified(held, first) == [] <==>
            forall i :: 0 <= i < |held| ==>
              held[i].to != "" && !(held[i].from == held[i].to == first && held[i].data.kind == DataTask)
    ensures Notified(held, first) != [] ==>
              exists k :: 0 <= k < |held| && Notified(held, first) == [held[k]] &&
                (held[k].to == "" || (held[k].from == held[k].to == first && held[k].data.kind == DataTask)) &&
                forall i :: 0 <= i < k ==>
                  held[i].to != "" && !(held[i].from == held[i].to == first && held[i].data.kind == DataTask)
  {
    if held != [] && !Qualifies(held[0], first) {
      var rest := held[1..];
      NotifiedIsFirst(rest, first);
      forall i | 0 < i < |held| ensures held[i] == rest[i - 1] {
      }
      if Notified(rest, first) != [] {
        var k :| 0 <= k < |rest| && Notified(rest, first) == [rest[k]] &&
                 (rest[k].to == "" || (rest[k].from == rest[k].to == first && rest[k].data.kind == DataTask)) &&
                 forall i :: 0 <= i < k ==>
                   rest[i].to != "" && !(rest[i].from == rest[i].to == first && rest[i].data.kind == DataTask);
        assert held[k + 1] == rest[k];
      } else {
        forall i | 0 <= i < |held|
          ensures held[i].to != "" && !(held[i].from == held[i].to == first && held[i].data.kind == DataTask)
        {
          assert i > 0 ==> held[i] == rest[i - 1];
        }
      }
    }
  }

  function ReconstructState(last: Envelope): TaskState {
    if last.data.task.Some? && last.data.task.value.state != StateUnspecified then last.data.task.value.state
    else if IsTerminalReply(last) then Completed
    else Working
  }

  /** A final reply that pauses for the client rather than ending the session. */
  predicate Pauses(res: Envelope): (pauses: bool)
    ensures pauses <==>
            res.data.task.Some? && res.data.task.value.state in {Submitted, Working, InputRequired, AuthRequired}
  {
    res.data.task.Some? && res.data.task.value.state != StateUnspecified && !res.data.task.value.state.Terminal()
  }

  datatype Recorded = Stored | SessionTerminating | StoreFailed | NoTaskID

  /** What recordTaskStatus reads of the session's row, and whether its own write then succeeds. */
  datatype Check = ReadFails | SeesTerminating | SeesOther(writes: bool)

  /** One hop as the loop finds it: whether execA2A returned, then what recordTaskStatus meets. */
  datatype HopOutcome = HopFailed | HopReply(env: Envelope, check: Check)

  /** Data marked as a Task carries one. */
  predicate WellTyped(env: Envelope) {
    env.data.kind == DataTask ==> env.data.task.Some?
  }

  datatype LoopEnd = Errored | Stopped(res: Envelope) | Paused(res: Envelope) | Finished(res: Envelope)

  /** The task row a relay loop keeps up, if there is one yet, among the others. */
  datatype TaskRows = TaskRows(taskID: string, rows: map<string, TaskState>)

  /** What one received envelope makes of it: only the first agent's own count, and its first Task creates the row. */
  function Follow(t: TaskRows, env: Envelope, first: string): TaskRows {
    if env.from != first || (t.taskID == "" && (env.data.kind != DataTask || env.data.task.None?)) then t
    else
      var id := if t.taskID != "" then t.taskID else env.data.task.value.id;
      TaskRows(id, t.rows[id := ReconstructState(env)])
  }

  function FollowAll(t: TaskRows, envs: seq<Envelope>, first: string): TaskRows {
    if envs == [] then t else Follow(FollowAll(t, envs[..|envs| - 1], first), envs[|envs| - 1], first)
  }

  lemma {:induction false} FollowAppend(t: TaskRows, envs: seq<Envelope>, env: Envelope, first: string)
    ensures FollowAll(t, envs + [env], first) == Follow(FollowAll(t, envs, first), env, first)
  {
    assert (envs + [env])[..|envs|] == envs;
  }

  /** What a loop has received: all it has held but what it began with, and but for a last one it could not record. */
  function Received(held: seq<Envelope>, unrecorded: bool): seq<Envelope> {
    if |held| <= 1 then [] else if unrecorded then held[1..|held| - 1] else held[1..]
  }

  lemma {:induction false} ReceivesOne(held: seq<Envelope>, env: Envelope)
    requires held != []
    ensures Received(held + [env], false) == Received(held, false) + [env]
    ensures Received(held + [env], true) == Received(held, false)
  {
  }

  /**
   * A status that fits an envelope: its task's own state, and without one whether the session rests with its client.
   */
  ghost predicate StatusFits(status: TaskState, env: Envelope) {
    && (env.data.task.Some? && env.data.task.value.state != StateUnspecified ==> status == env.data.task.value.state)
    && (env.data.task.None? || env.data.task.value.state == StateUnspecified ==>
          && (env.to == "" ==> status == Completed)
          && (env.to != "" ==> status == Working))
  }

  class Bookkeeping {
    var taskID: string
    /** checkpointd_tasks: the status of each task row. */
    var rows: map<string, TaskState>

    constructor (taskID: string, rows: map<string, TaskState>)
      ensures this.taskID == taskID && this.rows == rows
    {
      this.taskID, this.rows := taskID, rows;
    }

    ghost function Tasks(): TaskRows
      reads this
    {
      TaskRows(taskID, rows)
    }

    /** The row only ever follows the first agent's own envelopes, and is created by its first Task. */
    method RecordTaskStatus(res: Envelope, first: string, check: Check) returns (r: Recorded)
      requires WellTyped(res)
      modifies this
      ensures check.SeesTerminating? <==> r == SessionTerminating
      ensures check.ReadFails? ==> r == StoreFailed
      ensures Tasks() == if r == Stored then Follow(old(Tasks()), res, first) else old(Tasks())
      ensures r == Stored && res.from == first && taskID != "" ==>
                taskID in rows && StatusFits(rows[taskID], res) && rows == old(rows)[taskID := rows[taskID]]
      ensures r != Stored || res.from != first || taskID == "" ==> taskID == old(taskID) && rows == old(rows)
      ensures r == Stored ==> taskID == if res.from == first && old(taskID) == "" && res.data.kind == DataTask
                                        then res.data.task.value.id else old(taskID)
      ensures r == StoreFailed && !check.ReadFails? ==> check == SeesOther(false) && res.from == first
      ensures r == NoTaskID ==> res.from == first && old(taskID) == "" && res.data.kind == DataTask
      ensures r == Stored && taskID != old(taskID) ==> old(taskID) == "" && res.data.task.value.id == taskID != ""
    {
      if check.ReadFails? {
        return StoreFailed;
      }
      if check.SeesTerminating? {
        return SessionTerminating;
      }
      if res.from != first {
        return Stored;
      }
      if taskID == "" {
        if res.data.kind != DataTask {
          return Stored;
        }
        var id := res.data.task.value.id;
        if id == "" {
          return NoTaskID;
        }
        if !check.writes {
          return StoreFailed;
        }
        rows := rows[id := ReconstructState(res)];
        taskID := id;
        return Stored;
      }
      if !check.writes {
        return StoreFailed;
      }
      rows := rows[taskID := ReconstructState(res)];
      r := Stored;
    }

    /**
     * driveRelayLoop from `res` on, over what its hops come back with. `held` are the envelopes it had in hand,
     * `calls` the calls of onQualifying, `hops` how many hops it started, `unrecorded` says the last reply could not be
     * recorded.
     */
    method Drive(res: Envelope, first: string, outcomes: seq<HopOutcome>)
      returns (r: LoopEnd, calls: seq<Envelope>, hops: nat, ghost held: seq<Envelope>, ghost unrecorded: bool)
      requires forall o :: o in outcomes && o.HopReply? ==> WellTyped(o.env)
      modifies this
      // it held its input and then every reply it got, in order
      ensures hops <= |outcomes| + 1 && held != [] && held[0] == res && |held| <= hops + 1
      ensures forall i :: 0 <= i < |held| - 1 ==>
                i < |outcomes| && outcomes[i].HopReply? && outcomes[i].env == held[i + 1]
      // every hop but the last was answered and found the session not yet TERMINATING: once a check sees it, no more start
      ensures forall i :: 0 <= i < |held| - 1 ==> !IsTerminalReply(held[i])
      ensures forall i :: 0 <= i < hops - 1 ==> i < |outcomes| && outcomes[i].HopReply? && outcomes[i].check.SeesOther?
      // the caller is told once, of the first qualifying hop, and always when the loop ends at a final reply
      ensures calls == Notified(if r.Stopped? || unrecorded then held[..|held| - 1] else held, first)
      ensures r.Paused? || r.Finished? ==> |calls| == 1
      ensures |calls| <= 1
      // the task's row has followed what the loop received, but for a last reply it could not record
      ensures Tasks() == FollowAll(old(Tasks()), Received(held, r.Stopped? || unrecorded), first)
      // how it ends
      ensures r.Paused? || r.Finished? ==>
                IsTerminalReply(r.res) && held[|held| - 1] == r.res && (r.Paused? <==> Pauses(r.res))
      ensures r.Stopped? ==> held[|held| - 1] == r.res && hops > 0 && hops <= |outcomes| && outcomes[hops - 1].HopReply?
                             && outcomes[hops - 1].check.SeesTerminating?
    {
      hide Follow, FollowAll, Received, Notified, ReconstructState, Qualifies, Pauses, StatusFits, IsTerminalReply,
          WellTyped;
      var cur := res;
      var notified := false;
      calls, hops, held, unrecorded := [], 0, [res], false;
      HoldsOne(Tasks(), res, first);
      if Qualifies(cur, first) {
        notified, calls := true, [cur];
      }
      while !IsTerminalReply(cur)
        invariant hops <= |outcomes| && |held| == hops + 1 && held[0] == res && held[hops] == cur
        invariant forall i :: 0 <= i < hops ==>
                    && outcomes[i].HopReply? && outcomes[i].env == held[i + 1] && outcomes[i].check.SeesOther?
                    && !IsTerminalReply(held[i])
        invariant !unrecorded && calls == Notified(held, first)
        invariant notified <==> calls != []
        invariant Tasks() == FollowAll(old(Tasks()), Received(held, false), first)
        decreases |outcomes| - hops
      {
        NotifiedAppend(held, cur, first);
        if hops == |outcomes| || outcomes[hops].HopFailed? {
          return Errored, calls, hops + 1, held, false;
        }
        var o := outcomes[hops];
        cur := o.env;
        NotifiedAppend(held, cur, first);
        FollowAppend(old(Tasks()), Received(held, false), cur, first);
        ReceivesOne(held, cur);
        held := held + [cur];
        hops := hops + 1;
        var recorded := RecordTaskStatus(cur, first, o.check);
        if recorded == SessionTerminating {
          return Stopped(cur), calls, hops, held, false;
        }
        if recorded != Stored {
          return Errored, calls, hops, held, true;
        }
        if !notified && Qualifies(cur, first) {
          notified, calls := true, [cur];
        }
      }
      LastNotifies(held, first);
      r := if Pauses(cur) then Paused(cur) else Finished(cur);
    }
  }

  lemma {:induction false} HoldsOne(t: TaskRows, res: Envelope, first: string)
    ensures FollowAll(t, Received([res], false), first) == t
    ensures Notified([res], first) == if Qualifies(res, first) then [res] else []
  {
    assert [res][1..] == [];
  }

  /** A run that ends at a final reply has told its caller. */
  lemma {:induction false} LastNotifies(held: seq<Envelope>, first: string)
    requires held != [] && IsTerminalReply(held[|held| - 1])
    ensures |Notified(held, first)| == 1
  {
    NotifiedAppend(held[..|held| - 1], held[|held| - 1], first);
    assert held[..|held| - 1] + [held[|held| - 1]] == held;
  }

  // ---------- cleaning up ----------

  /** visitedActorsFromHistory: every conversation that logged an input, with the agent it names. */
  function VisitedActors(events: seq<StepEvent>): map<string, string> {
    if events == [] then map[]
    else
      var earlier := VisitedActors(events[..|events| - 1]);
      var ev := events[|events| - 1];
      if ev.agentID == "" || ev.conversationID == "" then earlier else earlier[ev.conversationID := ev.agentID]
  }

  method VisitedActorsOf(events: seq<StepEvent>) returns (actors: map<string, string>)
    ensures actors == VisitedActors(events)
  {
    actors := map[];
    for i := 0 to |events|
      invariant actors == VisitedActors(events[..i])
    {
      assert events[..i + 1][..i] == events[..i];
      if events[i].agentID != "" && events[i].conversationID != "" {
        actors := actors[events[i].conversationID := events[i].agentID];
      }
    }
    assert events[..|events|] == events;
  }

  /** Every input marker carries an envelope and stands in its own agent's conversation. */
  ghost predicate WellMarked(p: Params, log: seq<StepEvent>) {
    forall ev :: ev in log && ev.agentID != "" ==>
                   && ev.agentID == ev.conversationID && ev.agentID in p.agents
                   && IsInputMarker(ev) && Parse(NewestText(ev.steps)).Some?
  }

  lemma {:induction false} VisitedIsMarked(p: Params, log: seq<StepEvent>, a: string)
    requires WellMarked(p, log) && a != ""
    ensures a in VisitedActors(log) <==> MarkedIDs(Conv(log, a)) != []
    ensures a in VisitedActors(log) ==> a in p.agents && VisitedActors(log)[a] == a
  {
    if log != [] {
      var init, ev := log[..|log| - 1], log[|log| - 1];
      assert ev in log && init + [ev] == log;
      VisitedIsMarked(p, init, a);
      ConvAppend(init, ev, a);
      MarkedIDsAppend(Conv(init, a), ev);
    }
  }

  lemma {:induction false} TurnsWellMarked(p: Params, turns: seq<Turn>)
    requires TurnsOK(p, turns) && "" !in p.agents
    ensures WellMarked(p, TurnLog(p, turns))
  {
    hide NewestText;
    if turns != [] {
      TurnsWellMarked(p, turns[..|turns| - 1]);
    }
  }

  lemma {:induction false} LogWellMarked(w: World, s: Sys)
    requires ValidWorld(w) && Inv(w, s)
    ensures WellMarked(w.p, s.log)
  {
    hide SessionRun, ActorOK, DriverOK, ConvsRead, TurnLog, NewestText, EndsAs, Route;
    SessionTurnsOK(w.p, s.segs);
    TurnsWellMarked(w.p, s.cfg.turns);
    if s.open.Some? {
      CurrentOfTurn(TurnLog(w.p, s.cfg.turns), s.open.value.agent, s.open.value.msg);
    }
  }

  /**
   * What cleanup finds, in every reachable state: exactly the agents with a logged input, each as itself; and these
   * include every actor whose saved state has lived through a turn.
   */
  lemma {:induction false} CleanupFindsLoggedInputs(w: World, s: Sys, a: string)
    requires ValidWorld(w) && Reachable(w, s) && a != ""
    ensures a in VisitedActors(s.log) <==> MarkedIDs(Conv(s.log, a)) != []
    ensures a in VisitedActors(s.log) ==> a in w.p.agents && VisitedActors(s.log)[a] == a
    ensures a in w.p.agents ==> a in s.actors && (SavedState(w, s, a).rt.rounds != [] ==> a in VisitedActors(s.log))
  {
    hide Inv, Reachable, PendingOutputs, StateOf, LastHop, WellMarked, VisitedActors;
    ReachableKeeps(w, s);
    LogWellMarked(w, s);
    VisitedIsMarked(w.p, s.log, a);
    if a in w.p.agents {
      SnapshotNeverBehindLog(w, s, a);
    }
  }

  /** The first message of a session: addressed to the owner, whose actor is then created. */
  lemma {:induction false} FirstTurnStarts(w: World)
    requires ValidWorld(w)
    ensures var s := DoStartTurn(w, DoSend(DoRestart(w, Init(w)), "first"), ALL_GOOD);
            s.log == [] && w.p.owner in s.actors && s.actors[w.p.owner].Actor?
  {
    hide AfterStart, Start;
    var s := DoSend(DoRestart(w, Init(w)), "first");
    assert s.log == [] && s.actors == Init(w).actors && s.driver.Turning? && s.driver.job.agent == w.p.owner
           && s.driver.job.want.Some? && s.driver.job.inputs != [] && s.driver.stage.Trying? by {
      assert Conv([], w.p.owner) == [];
    }
    OwnerIsStarted(w, s);
  }

  lemma {:induction false} OwnerIsStarted(w: World, s: Sys)
    requires WellFormed(w.p) && s.log == [] && s.actors == Init(w).actors
    requires s.driver.Turning? && s.driver.stage.Trying? && s.driver.job.agent == w.p.owner
    requires s.driver.job.want.Some? && s.driver.job.inputs != []
    ensures var s' := DoStartTurn(w, s, ALL_GOOD); s'.log == [] && w.p.owner in s'.actors && s'.actors[w.p.owner].Actor?
  {
    assert PlanFor(w, s.log, s.driver.job) == Fresh(w.p.owner, s.driver.job.inputs);
    assert Start(Absent, BootMemory(w, w.p.owner), ALL_GOOD, s.uris + 1).0.Actor?;
  }

  /** An actor cleanup misses: it was created, and its turn has not logged anything yet. */
  lemma {:induction false} UnloggedActorIsMissed(w: World) returns (s: Sys)
    requires ValidWorld(w)
    ensures ReachableWithoutFaults(w, s)
    ensures w.p.owner in s.actors && s.actors[w.p.owner].Actor? && w.p.owner !in VisitedActors(s.log)
  {
    hide Run, ReachableWithoutFaults, DoStartTurn, DoSend, DoRestart, Init;
    NothingRun(w);
    var restarted := [] + [Restart];
    OneMore(w, [], Restart);
    OneMore(w, restarted, Send("first"));
    OneMore(w, restarted + [Send("first")], StartTurn(ALL_GOOD));
    CalmRun(w, restarted + [Send("first")] + [StartTurn(ALL_GOOD)]);
    s := Run(w, restarted + [Send("first")] + [StartTurn(ALL_GOOD)]);
    FirstTurnStarts(w);
  }

  lemma {:induction false} NothingRun(w: World)
    requires w.p.locals.Keys == w.p.agents.Keys
    ensures Run(w, []) == Init(w)
  {
  }
}
