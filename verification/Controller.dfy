/** The turn logger: what a conversation's log says about its open turn, and how a turn is committed to it. */
module Controller {
  import opened Hop
  import opened EventLog
  import opened EventStore

  /** LogInputs' marker: the only kind of event that names its agent. */
  function InputEvent(session: string, conv: string, harness: string, steps: seq<Step>): StepEvent {
    StepEvent(conv, harness, session, steps, StatePending)
  }

  function OutputEvent(session: string, conv: string, steps: seq<Step>, state: State): StepEvent {
    StepEvent(conv, "", session, steps, state)
  }

  // ---------- reading a log ----------

  /** The newest state any event carries. */
  function StateOf(events: seq<StepEvent>): State {
    if events == [] then StateUnset
    else if events[|events| - 1].state != StateUnset then events[|events| - 1].state
    else StateOf(events[..|events| - 1])
  }

  /** The first agent any event names. */
  function HarnessOf(events: seq<StepEvent>): string {
    if events == [] then ""
    else
      var earlier := HarnessOf(events[..|events| - 1]);
      if earlier != "" then earlier else events[|events| - 1].agentID
  }

  predicate IsInputMarker(ev: StepEvent) {
    ev.state == StatePending && ev.agentID != ""
  }

  predicate IsOutputOfOpenTurn(ev: StepEvent) {
    ev.state == StatePending && ev.agentID == ""
  }

  function PendingInputs(events: seq<StepEvent>): seq<Step> {
    if events == [] then []
    else if IsInputMarker(events[|events| - 1]) then events[|events| - 1].steps
    else PendingInputs(events[..|events| - 1])
  }

  function Reverse(steps: seq<Step>): (r: seq<Step>)
    ensures |r| == |steps|
  {
    if steps == [] then [] else Reverse(steps[1..]) + [steps[0]]
  }

  lemma {:induction false} ReverseConcat(a: seq<Step>, b: seq<Step>)
    ensures Reverse(a + b) == Reverse(b) + Reverse(a)
  {
    if a == [] {
      assert a + b == b;
    } else {
      ReverseConcat(a[1..], b);
      assert (a + b)[1..] == a[1..] + b;
    }
  }

  /** The trailing outputs, events in log order but each event's own steps in reverse. */
  function PendingOutputs(events: seq<StepEvent>): seq<Step> {
    if events == [] || !IsOutputOfOpenTurn(events[|events| - 1]) then []
    else PendingOutputs(events[..|events| - 1]) + Reverse(events[|events| - 1].steps)
  }

  lemma {:induction false} ScanAppend(events: seq<StepEvent>, ev: StepEvent)
    ensures StateOf(events + [ev]) == (if ev.state != StateUnset then ev.state else StateOf(events))
    ensures HarnessOf(events + [ev]) == (if HarnessOf(events) != "" then HarnessOf(events) else ev.agentID)
    ensures PendingInputs(events + [ev]) == (if IsInputMarker(ev) then ev.steps else PendingInputs(events))
    ensures PendingOutputs(events + [ev]) ==
            (if IsOutputOfOpenTurn(ev) then PendingOutputs(events) + Reverse(ev.steps) else [])
  {
    assert (events + [ev])[..|events|] == events;
  }

  // ---------- what an Exec call does with a log ----------

  datatype ExecError = HarnessChanged | HarnessNotFound | NoLoggedInput | NoInputs

  datatype ExecPlan = Reject(error: ExecError) | Redo(harness: string, inputs: seq<Step>) | Fresh(harness: string,
                                                                                                  inputs: seq<Step>)

  /** The part of Exec that runs before any actor is touched. */
  function PlanExec(events: seq<StepEvent>, agentID: string, inputs: seq<Step>, registered: set<string>,
                    defaultHarness: string): ExecPlan
  {
    var stored := HarnessOf(events);
    var harness := if agentID != "" then agentID else if stored != "" then stored else defaultHarness;
    if agentID != "" && stored != "" && agentID != stored then Reject(HarnessChanged)
    else if harness !in registered then Reject(HarnessNotFound)
    else if StateOf(events) == StatePending then
      if PendingInputs(events) == [] then Reject(NoLoggedInput) else Redo(harness, PendingInputs(events))
    else if inputs == [] then Reject(NoInputs)
    else Fresh(harness, inputs)
  }

  // ---------- the log grammar ----------

  /** A turn of one conversation: its input marker, then one event per output. */
  datatype LoggedTurn = LoggedTurn(harness: string, inputs: seq<Step>, outputs: seq<Step>)

  function OutputEvents(session: string, conv: string, outputs: seq<Step>): (r: seq<StepEvent>)
    ensures |r| == |outputs|
    ensures forall i :: 0 <= i < |r| ==> r[i] == OutputEvent(session, conv, [outputs[i]], StatePending)
  {
    seq(|outputs|, i requires 0 <= i < |outputs| => OutputEvent(session, conv, [outputs[i]], StatePending))
  }

  function OpenEvents(session: string, conv: string, t: LoggedTurn): seq<StepEvent> {
    [InputEvent(session, conv, t.harness, t.inputs)] + OutputEvents(session, conv, t.outputs)
  }

  /** (INPUT OUTPUT* COMPLETED)*, every INPUT naming `harness`. */
  function ClosedLog(session: string, conv: string, turns: seq<LoggedTurn>): seq<StepEvent> {
    if turns == [] then []
    else
      ClosedLog(session, conv, turns[..|turns| - 1]) +
      OpenEvents(session, conv, turns[|turns| - 1]) + [OutputEvent(session, conv, [], StateCompleted)]
  }

  ghost predicate NamesHarness(turns: seq<LoggedTurn>, harness: string) {
    harness != "" && forall t :: t in turns ==> t.harness == harness
  }

  lemma {:induction false} OutputEventsSplit(session: string, conv: string, outputs: seq<Step>, n: nat)
    requires n <= |outputs|
    ensures OutputEvents(session, conv, outputs) ==
            OutputEvents(session, conv, outputs[..n]) + OutputEvents(session, conv, outputs[n..])
  {
  }

  /** `log` is `events` with `outputs` logged for the turn open in it. */
  ghost predicate OutputsLogged(events: seq<StepEvent>, log: seq<StepEvent>, outputs: seq<Step>) {
    && StateOf(log) == StatePending
    && HarnessOf(log) == HarnessOf(events)
    && PendingInputs(log) == PendingInputs(events)
    && PendingOutputs(log) == PendingOutputs(events) + outputs
  }

  lemma {:induction false} OneOutputLogged(events: seq<StepEvent>, log: seq<StepEvent>, outputs: seq<Step>,
                                           session: string, conv: string, step: Step)
    requires OutputsLogged(events, log, outputs)
    ensures OutputsLogged(events, log + [OutputEvent(session, conv, [step], StatePending)], outputs + [step])
  {
    var ev := OutputEvent(session, conv, [step], StatePending);
    ScanAppend(log, ev);
    assert Reverse(ev.steps) == [step];
    assert PendingOutputs(events) + outputs + [step] == PendingOutputs(events) + (outputs + [step]);
  }

  lemma {:induction false} ScanOutputs(events: seq<StepEvent>, session: string, conv: string, outputs: seq<Step>)
    requires StateOf(events) == StatePending
    ensures OutputsLogged(events, events + OutputEvents(session, conv, outputs), outputs)
  {
    if outputs == [] {
      assert events + OutputEvents(session, conv, outputs) == events;
    } else {
      var n := |outputs| - 1;
      var before := events + OutputEvents(session, conv, outputs[..n]);
      ScanOutputs(events, session, conv, outputs[..n]);
      OneOutputLogged(events, before, outputs[..n], session, conv, outputs[n]);
      OutputEventsSplit(session, conv, outputs, n);
      assert OutputEvents(session, conv, outputs[n..]) == [OutputEvent(session, conv, [outputs[n]], StatePending)];
      assert events + OutputEvents(session, conv, outputs) ==
          before + [OutputEvent(session, conv, [outputs[n]], StatePending)];
      assert outputs[..n] + [outputs[n]] == outputs;
    }
  }

  /** A log of finished turns reads as not pending, with nothing left of any turn. */
  lemma {:induction false} ClosedLogReads(session: string, conv: string, turns: seq<LoggedTurn>, harness: string)
    requires NamesHarness(turns, harness)
    ensures var log := ClosedLog(session, conv, turns);
            && StateOf(log) == (if turns == [] then StateUnset else StateCompleted)
            && HarnessOf(log) == (if turns == [] then "" else harness)
            && PendingOutputs(log) == []
    decreases |turns|, 0
  {
    if turns != [] {
      var init := turns[..|turns| - 1];
      OpenLogReads(session, conv, init, turns[|turns| - 1], harness);
      var log := ClosedLog(session, conv, init) + OpenEvents(session, conv, turns[|turns| - 1]);
      ScanAppend(log, OutputEvent(session, conv, [], StateCompleted));
    }
  }

  /** A log with an open turn reads back exactly that turn: its status, its inputs, its outputs in order. */
  lemma {:induction false} OpenLogReads(session: string, conv: string, turns: seq<LoggedTurn>, open: LoggedTurn,
                                        harness: string)
    requires NamesHarness(turns + [open], harness)
    ensures var log := ClosedLog(session, conv, turns) + OpenEvents(session, conv, open);
            && StateOf(log) == StatePending
            && HarnessOf(log) == harness
            && PendingInputs(log) == open.inputs
            && PendingOutputs(log) == open.outputs
    decreases |turns|, 1
  {
    assert open in turns + [open];
    forall t | t in turns ensures t.harness == harness {
      assert t in turns + [open];
    }
    ClosedLogReads(session, conv, turns, harness);
    var closed := ClosedLog(session, conv, turns);
    var input := InputEvent(session, conv, open.harness, open.inputs);
    ScanAppend(closed, input);
    ScanOutputs(closed + [input], session, conv, open.outputs);
    assert closed + OpenEvents(session, conv, open) == closed + [input] + OutputEvents(session, conv, open.outputs);
  }

  /**
   * Exec on a conversation of finished turns: refused for another agent than the one they all name, for an agent nobody
   * registered, or for want of inputs, in this order; else a new turn of the agent asked for, recorded, or configured.
   */
  lemma {:induction false} PlanOfClosedLog(session: string, conv: string, turns: seq<LoggedTurn>, harness: string,
                                           agentID: string, inputs: seq<Step>, registered: set<string>,
                                           defaultHarness: string)
    requires NamesHarness(turns, harness)
    ensures var plan := PlanExec(ClosedLog(session, conv, turns), agentID, inputs, registered, defaultHarness);
            var used := if agentID != "" then agentID else if turns != [] then harness else defaultHarness;
            var changed := turns != [] && agentID != "" && agentID != harness;
            && (plan == Reject(HarnessChanged) <==> changed)
            && (plan == Reject(HarnessNotFound) <==> !changed && used !in registered)
            && (plan == Reject(NoInputs) <==> !changed && used in registered && inputs == [])
            && (plan == Fresh(used, inputs) <==> !changed && used in registered && inputs != [])
            && plan != Reject(NoLoggedInput) && !plan.Redo?
  {
    ClosedLogReads(session, conv, turns, harness);
  }

  /** With a turn open it is that turn that is redone, whatever new inputs come along, or refused likewise. */
  lemma {:induction false} PlanOfOpenLog(session: string, conv: string, turns: seq<LoggedTurn>, open: LoggedTurn,
                                         harness: string, agentID: string, inputs: seq<Step>,
                                         registered: set<string>, defaultHarness: string)
    requires NamesHarness(turns + [open], harness)
    ensures var log := ClosedLog(session, conv, turns) + OpenEvents(session, conv, open);
            var plan := PlanExec(log, agentID, inputs, registered, defaultHarness);
            var changed := agentID != "" && agentID != harness;
            && (plan == Reject(HarnessChanged) <==> changed)
            && (plan == Reject(HarnessNotFound) <==> !changed && harness !in registered)
            && (plan == Reject(NoLoggedInput) <==> !changed && harness in registered && open.inputs == [])
            && (plan == Redo(harness, open.inputs) <==> !changed && harness in registered && open.inputs != [])
            && plan != Reject(NoInputs) && !plan.Fresh?
  {
    OpenLogReads(session, conv, turns, open, harness);
  }

  // ---------- committing a turn ----------

  datatype CommitResult = Committed | TooShort | Mismatch | NeverCompleted | Interrupted

  predicate IsPrefixOf(already: seq<Step>, buffered: seq<Step>) {
    |already| <= |buffered| && already == buffered[..|already|]
  }

  /** The events a commit still has to append. */
  function CommitPlan(session: string, conv: string, already: nat, buffered: seq<Step>): (plan: seq<StepEvent>)
    requires already <= |buffered|
    ensures |plan| == |buffered| - already + 1
    ensures forall ev :: ev in plan ==> ev.conversationID == conv
  {
    OutputEvents(session, conv, buffered[already..]) + [OutputEvent(session, conv, [], StateCompleted)]
  }

  /** The part of `plan` that lands before an interruption after `lives` appends. */
  function Landed(plan: seq<StepEvent>, lives: nat): seq<StepEvent> {
    plan[..if lives < |plan| then lives else |plan|]
  }

  /** The log after one commit attempt that is interrupted once `lives` appends have landed. */
  function CommitAttempt(session: string, conv: string, log: seq<StepEvent>, buffered: seq<Step>, lives: nat)
    : seq<StepEvent>
  {
    var already := PendingOutputs(Conv(log, conv));
    if !IsPrefixOf(already, buffered) then log
    else log + Landed(CommitPlan(session, conv, |already|, buffered), lives)
  }

  lemma {:induction false} ConvConcat(log: seq<StepEvent>, more: seq<StepEvent>, conv: string)
    requires forall ev :: ev in more ==> ev.conversationID == conv
    ensures Conv(log + more, conv) == Conv(log, conv) + more
  {
    if more == [] {
      assert log + more == log;
    } else {
      var init := more[..|more| - 1];
      var ev := more[|more| - 1];
      ConvConcat(log, init, conv);
      assert log + more == log + init + [ev];
      assert ev in more;
      ConvAppend(log + init, ev, conv);
    }
  }

  lemma {:induction false} PlanSplit(session: string, conv: string, log: seq<StepEvent>, n: nat, k: nat,
                                     buffered: seq<Step>)
    requires n + k <= |buffered|
    ensures var done := OutputEvents(session, conv, buffered[n..n + k]);
            && Landed(CommitPlan(session, conv, n, buffered), k) == done
            && log + done + CommitPlan(session, conv, n + k, buffered) == log + CommitPlan(session, conv, n, buffered)
  {
    var done := OutputEvents(session, conv, buffered[n..n + k]);
    OutputEventsSplit(session, conv, buffered[n..], k);
    assert buffered[n..][..k] == buffered[n..n + k] && buffered[n..][k..] == buffered[n + k..];
    assert CommitPlan(session, conv, n, buffered) == done + CommitPlan(session, conv, n + k, buffered);
  }

  /** Outputs logged on top of the ones already there make one longer prefix. */
  lemma {:induction false} PrefixGrows(events: seq<StepEvent>, log: seq<StepEvent>, buffered: seq<Step>, n: nat,
                                       k: nat)
    requires n + k <= |buffered| && PendingOutputs(events) == buffered[..n]
    requires OutputsLogged(events, log, buffered[n..n + k])
    ensures StateOf(log) == StatePending && PendingInputs(log) == PendingInputs(events)
    ensures PendingOutputs(log) == buffered[..n + k]
  {
    assert buffered[..n] + buffered[n..n + k] == buffered[..n + k];
  }

  /** What an interrupted commit leaves behind is exactly where the redo takes over. */
  lemma {:induction false} CommitResumes(session: string, conv: string, log: seq<StepEvent>, buffered: seq<Step>,
                                         n: nat, k: nat)
    requires StateOf(Conv(log, conv)) == StatePending
    requires n + k <= |buffered| && PendingOutputs(Conv(log, conv)) == buffered[..n]
    ensures var log' := CommitAttempt(session, conv, log, buffered, k);
            && StateOf(Conv(log', conv)) == StatePending
            && PendingInputs(Conv(log', conv)) == PendingInputs(Conv(log, conv))
            && PendingOutputs(Conv(log', conv)) == buffered[..n + k]
            && log' + CommitPlan(session, conv, n + k, buffered) == log + CommitPlan(session, conv, n, buffered)
  {
    var done := OutputEvents(session, conv, buffered[n..n + k]);
    PlanSplit(session, conv, log, n, k, buffered);
    ConvConcat(log, done, conv);
    ScanOutputs(Conv(log, conv), session, conv, buffered[n..n + k]);
    PrefixGrows(Conv(log, conv), Conv(log, conv) + done, buffered, n, k);
  }

  /** The log after a series of interrupted attempts, redone with the same outputs until one completes the turn. */
  function CommitAttempts(session: string, conv: string, log: seq<StepEvent>, buffered: seq<Step>, lives: seq<nat>)
    : seq<StepEvent>
    decreases |lives|
  {
    if lives == [] then CommitAttempt(session, conv, log, buffered, |buffered| + 1)
    else
      var log' := CommitAttempt(session, conv, log, buffered, lives[0]);
      if StateOf(Conv(log', conv)) != StatePending then log'
      else CommitAttempts(session, conv, log', buffered, lives[1..])
  }

  /** However often a commit is interrupted, redoing it with the same outputs ends in the uninterrupted log. */
  lemma {:induction false} CommitRedoIsSafe(session: string, conv: string, log: seq<StepEvent>, buffered: seq<Step>,
                                            lives: seq<nat>)
    requires StateOf(Conv(log, conv)) == StatePending
    requires IsPrefixOf(PendingOutputs(Conv(log, conv)), buffered)
    ensures var n := |PendingOutputs(Conv(log, conv))|;
            CommitAttempts(session, conv, log, buffered, lives) == log + CommitPlan(session, conv, n, buffered)
    decreases |lives|
  {
    var n := |PendingOutputs(Conv(log, conv))|;
    var plan := CommitPlan(session, conv, n, buffered);
    assert plan[..|plan|] == plan;
    if lives != [] {
      var log' := CommitAttempt(session, conv, log, buffered, lives[0]);
      if lives[0] < |plan| {
        CommitResumes(session, conv, log, buffered, n, lives[0]);
        CommitRedoIsSafe(session, conv, log', buffered, lives[1..]);
      } else {
        ConvConcat(log, plan, conv);
        assert (Conv(log, conv) + plan)[|Conv(log, conv) + plan| - 1].state == StateCompleted;
      }
    }
  }

  // ---------- the cancellation marker ----------

  /** What CancelTask appends to the owner's conversation, whatever turn is open there. */
  function CancellationMarker(session: string, conv: string, env: Envelope): StepEvent {
    OutputEvent(session, conv, [Step(Checkpointd, Json(env))], StateUnset)
  }

  /**
   * A marker landing after the first i outputs of an open turn hides them from a later redo: the scan reads back
   * the outputs after the marker only, so it is exact if and only if the marker came before every output.
   */
  lemma {:induction false} MarkerHidesOutputs(session: string, conv: string, turns: seq<LoggedTurn>,
                                              open: LoggedTurn, harness: string, env: Envelope, i: nat)
    requires NamesHarness(turns + [open], harness) && i <= |open.outputs|
    ensures var log := ClosedLog(session, conv, turns)
                       + OpenEvents(session, conv, open.(outputs := open.outputs[..i]))
                       + [CancellationMarker(session, conv, env)]
                       + OutputEvents(session, conv, open.outputs[i..]);
            && StateOf(log) == StatePending
            && PendingInputs(log) == open.inputs
            && PendingOutputs(log) == open.outputs[i..]
            && (PendingOutputs(log) == open.outputs <==> i == 0)
  {
    var first := open.(outputs := open.outputs[..i]);
    assert forall t :: t in turns + [first] ==> t in turns || t == first;
    forall t | t in turns + [first] ensures t.harness == harness {
      assert t in turns ==> t in turns + [open];
      assert open in turns + [open];
    }
    OpenLogReads(session, conv, turns, first, harness);
    var before := ClosedLog(session, conv, turns) + OpenEvents(session, conv, first);
    var marker := CancellationMarker(session, conv, env);
    ScanAppend(before, marker);
    ScanOutputs(before + [marker], session, conv, open.outputs[i..]);
  }

  // ---------- the imperative forms ----------

  class Logger {
    const conversationID: string
    const sessionID: string
    const el: MemoryEventLog
    var harnessID: string

    constructor (el: MemoryEventLog, conversationID: string, harnessID: string, sessionID: string)
      ensures this.el == el && this.conversationID == conversationID
      ensures this.harnessID == harnessID && this.sessionID == sessionID
    {
      this.el, this.conversationID, this.harnessID, this.sessionID := el, conversationID, harnessID, sessionID;
    }

    method ResumptionState() returns (state: State, harness: string)
      ensures state == StateOf(Conv(el.allEvents, conversationID))
      ensures harness == HarnessOf(Conv(el.allEvents, conversationID))
    {
      var events := el.Events(conversationID);
      state, harness := StateUnset, "";
      for i := 0 to |events|
        invariant state == StateOf(events[..i])
        invariant harness == HarnessOf(events[..i])
      {
        ScanAppend(events[..i], events[i]);
        assert events[..i + 1] == events[..i] + [events[i]];
        if harness == "" && events[i].agentID != "" {
          harness := events[i].agentID;
        }
        if events[i].state != StateUnset {
          state := events[i].state;
        }
      }
      assert events[..|events|] == events;
    }

    method PendingInputSteps() returns (steps: seq<Step>)
      ensures steps == PendingInputs(Conv(el.allEvents, conversationID))
    {
      var events := el.Events(conversationID);
      var i := |events|;
      assert events[..i] == events;
      while i > 0
        invariant 0 <= i <= |events|
        invariant PendingInputs(events) == PendingInputs(events[..i])
      {
        i := i - 1;
        assert events[..i + 1][..i] == events[..i];
        if events[i].state == StatePending && events[i].agentID != "" {
          return events[i].steps;
        }
      }
      steps := [];
    }

    method PendingOutputSteps() returns (steps: seq<Step>)
      ensures steps == PendingOutputs(Conv(el.allEvents, conversationID))
    {
      var events := el.Events(conversationID);
      var reversed: seq<Step> := [];
      var i := |events|;
      assert events[..i] == events;
      while i > 0 && events[i - 1].state == StatePending && events[i - 1].agentID == ""
        invariant 0 <= i <= |events|
        invariant PendingOutputs(events) == PendingOutputs(events[..i]) + Reverse(reversed)
      {
        i := i - 1;
        assert events[..i + 1][..i] == events[..i];
        ReverseConcat(reversed, events[i].steps);
        reversed := reversed + events[i].steps;
      }
      steps := Reverse(reversed);
    }

    method Plan(agentID: string, inputs: seq<Step>, registered: set<string>, defaultHarness: string)
      returns (plan: ExecPlan)
      modifies this
      ensures plan == PlanExec(Conv(el.allEvents, conversationID), agentID, inputs, registered, defaultHarness)
      ensures !plan.Reject? ==> harnessID == plan.harness
    {
      var state, stored := ResumptionState();
      if agentID != "" && stored != "" && agentID != stored {
        return Reject(HarnessChanged);
      }
      var harness := agentID;
      if harness == "" {
        harness := stored;
      }
      if harness == "" {
        harness := defaultHarness;
      }
      harnessID := harness;
      if harness !in registered {
        return Reject(HarnessNotFound);
      }
      if state == StatePending {
        var pending := PendingInputSteps();
        return if |pending| == 0 then Reject(NoLoggedInput) else Redo(harness, pending);
      }
      plan := if |inputs| == 0 then Reject(NoInputs) else Fresh(harness, inputs);
    }

    method LogInputs(steps: seq<Step>) returns (step: nat)
      modifies el
      ensures el.allEvents == old(el.allEvents) + [InputEvent(sessionID, conversationID, harnessID, steps)]
    {
      step := el.Append(StepEvent(conversationID, harnessID, sessionID, steps, StatePending));
    }

    method LogOutputs(steps: seq<Step>, state: State) returns (step: nat)
      modifies el
      ensures el.allEvents == old(el.allEvents) + [OutputEvent(sessionID, conversationID, steps, state)]
    {
      step := el.Append(StepEvent(conversationID, "", sessionID, steps, state));
    }
  }

  class HarnessHandler {
    const logger: Logger
    var buffered: seq<Step>
    var completed: bool

    constructor (logger: Logger)
      ensures this.logger == logger && buffered == [] && !completed
    {
      this.logger := logger;
      buffered, completed := [], false;
    }

    method OnMessage(step: Step)
      modifies this
      ensures buffered == old(buffered) + [step] && completed == old(completed)
    {
      buffered := buffered + [step];
    }

    method OnComplete()
      modifies this
      ensures completed && buffered == old(buffered)
    {
      completed := true;
    }

    /** Whether what the log already holds of this turn is how the redone output starts. */
    method Check(already: seq<Step>) returns (r: CommitResult)
      ensures r == if IsPrefixOf(already, buffered) then Committed else if |already| > |buffered| then TooShort
          else Mismatch
    {
      if |already| > |buffered| {
        return TooShort;
      }
      for i := 0 to |already|
        invariant already[..i] == buffered[..i]
      {
        if already[i] != buffered[i] {
          return Mismatch;
        }
      }
      assert already[..|already|] == already;
      r := Committed;
    }

    /**
     * The commit, interrupted after `lives` appends: a redo that contradicts the log touches nothing, and any
     * other attempt appends a prefix of what the turn still lacks, all of it exactly when it reports success.
     */
    method Commit(lives: nat) returns (r: CommitResult)
      modifies logger.el
      ensures var log := old(logger.el.allEvents);
              var session, conv := logger.sessionID, logger.conversationID;
              var already := PendingOutputs(Conv(log, conv));
              if !IsPrefixOf(already, buffered) then
                r == (if |already| > |buffered| then TooShort else Mismatch) && logger.el.allEvents == log
              else if completed then
                && r == (if lives > |buffered| - |already| then Committed else Interrupted)
                && logger.el.allEvents == CommitAttempt(session, conv, log, buffered, lives)
              else
                && r == (if lives >= |buffered| - |already| then NeverCompleted else Interrupted)
                && logger.el.allEvents == log + Landed(OutputEvents(session, conv, buffered[|already|..]), lives)
    {
      var already := logger.PendingOutputSteps();
      r := Check(already);
      if r != Committed {
        return;
      }
      ghost var outputs := OutputEvents(logger.sessionID, logger.conversationID, buffered[|already|..]);
      for i := |already| to |buffered|
        invariant i - |already| <= lives
        invariant logger.el.allEvents == old(logger.el.allEvents) + outputs[..i - |already|]
      {
        if i - |already| == lives {
          return Interrupted;
        }
        var logStep := logger.LogOutputs([buffered[i]], StatePending);
        assert outputs[..i + 1 - |already|] == outputs[..i - |already|] + [outputs[i - |already|]];
      }
      assert outputs[..|outputs|] == outputs;
      if !completed {
        return NeverCompleted;
      }
      if |buffered| - |already| == lives {
        return Interrupted;
      }
      var last := logger.LogOutputs([], StateCompleted);
      r := Committed;
    }
  }
}
