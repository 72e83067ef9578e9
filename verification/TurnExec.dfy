/** One Exec call of the controller as it runs: plan, start, log the input, run, checkpoint, and only then commit. */
module TurnExec {
  import opened EventLog
  import opened EventStore
  import opened Controller
  import opened Runtime
  import opened Substrate
  import opened System
  import opened Harness

  /** How the calls of one Exec turn out; `lives` is how many appends of its commit land. */
  datatype Faults = Faults(
    start: Fate, logs: bool, connects: bool, answers: bool, choice: Choice, suspend: SuspendFate, lives: nat)

  datatype ExecEnd =
    | NoConversation | Declined(error: ExecError) | NotStarted | NotLogged | NotRun | NotCheckpointed
    | Ended(result: CommitResult)

  /** The log once the turn's input is in it: a turn that is still open has logged its own before. */
  function InputLogged(log: seq<StepEvent>, conv: string, session: string, plan: ExecPlan): seq<StepEvent> {
    if plan.Fresh? then log + [InputEvent(session, conv, plan.harness, plan.inputs)] else log
  }

  /** The actor once the connection, if there is one, has brought it the queued message. */
  function Delivered(agent: Agent, id: string, queued: seq<EventLog.Step>, act: Actor, f: Faults): Actor {
    if f.connects then AfterRun(agent, id, queued, act, f.choice) else act
  }

  /** The actor is reached, does not fail, and its answer arrives. */
  predicate Replies(agent: Agent, id: string, queued: seq<EventLog.Step>, act: Actor, f: Faults) {
    && f.connects && f.answers && Reaches(queued, act)
    && ReplyTo(AfterRun(agent, id, queued, act, f.choice).mem.value, Current(queued).value.stepID).Some?
  }

  /** Behind a reply a suspend that lands is a checkpoint. */
  lemma {:induction false} LandingIsEnough(agent: Agent, id: string, queued: seq<EventLog.Step>, act: Actor,
                                           f: Faults, uris: nat)
    requires Replies(agent, id, queued, act, f) && f.suspend == Lands && URI(act) <= uris
    ensures Substrate.Checkpoint(Delivered(agent, id, queued, act, f), URI(act), f.suspend, uris + 1).1
  {
    hide Ran, ReplyTo;
  }

  class TurnController {
    const el: MemoryEventLog
    const harness: SubstrateHarness
    const agent: Agent
    const registered: set<string>
    const defaultHarness: string

    constructor (el: MemoryEventLog, harness: SubstrateHarness, agent: Agent, registered: set<string>,
                 defaultHarness: string)
      ensures this.el == el && this.harness == harness && this.agent == agent
      ensures this.registered == registered && this.defaultHarness == defaultHarness
    {
      this.el, this.harness, this.agent := el, harness, agent;
      this.registered, this.defaultHarness := registered, defaultHarness;
    }

    /**
     * The snapshot remembers the reply to the queued message, and that reply is all that was committed on top of
     * `log`.
     */
    ghost predicate Committed(queued: seq<EventLog.Step>, session: string, conv: string, log: seq<StepEvent>,
                              lives: nat)
      reads el, harness.server
    {
      && Current(queued).Some? && harness.server.actor.Actor? && harness.server.actor.snap.Some?
      && var reply := ReplyTo(harness.server.actor.snap.value.mem, Current(queued).value.stepID);
         && reply.Some?
         && el.allEvents == CommitAttempt(session, conv, log, [ReplyStep(reply.value)], lives)
    }

    /** runTurn: no output reaches the log unless the checkpoint has recorded the memory that remembers it. */
    method RunTurn(exec: SubstrateExecution, l: Logger, f: Faults) returns (r: ExecEnd)
      requires l.el == el && exec.server == harness.server
      requires exec.preCheckpointSnapshot == URI(exec.server.actor) <= exec.server.uris
      modifies el, exec, exec.server
      ensures r.NotRun? || r.NotCheckpointed? || r.Ended?
      ensures !r.Ended? ==> el.allEvents == old(el.allEvents)
      ensures r.Ended? ==> Committed(old(exec.pending), l.sessionID, l.conversationID, old(el.allEvents), f.lives)
      // how it ends, exactly
      ensures var act, uri := Delivered(agent, l.conversationID, old(exec.pending), old(exec.server.actor), f),
                              old(exec.server.uris) + 1;
              var replied := Replies(agent, l.conversationID, old(exec.pending), old(exec.server.actor), f);
              var (saved, ok) := Substrate.Checkpoint(act, exec.preCheckpointSnapshot, f.suspend, uri);
              && (r.NotRun? <==> !replied)
              && (r.NotCheckpointed? <==> replied && !ok)
              && exec.server.actor == if replied then saved else act
      ensures r.Ended? && PendingOutputs(Conv(old(el.allEvents), l.conversationID)) == [] ==>
                r.result == if f.lives > 1 then CommitResult.Committed else Interrupted
      ensures r.Ended? ==>
                && Reaches(old(exec.pending), old(exec.server.actor))
                && exec.server.actor.snap.value.mem ==
                   Ran(agent, l.conversationID, old(exec.server.actor).mem.value, Current(old(exec.pending)).value,
                       f.choice)
    {
      var hh := new HarnessHandler(l);
      var out := exec.Run(agent, l.conversationID, f.connects, f.answers, f.choice);
      if out.None? {
        return NotRun;
      }
      hh.OnMessage(ReplyStep(out.value));
      hh.OnComplete();
      var ok := exec.Checkpoint(f.suspend);
      if !ok {
        return NotCheckpointed;
      }
      var result := hh.Commit(f.lives);
      r := Ended(result);
    }

    /**
     * Exec: a refused call touches nothing, a failed one leaves at most its input in the log, and any other has
     * committed what the actor's newest snapshot remembers, or as much of it as landed.
     */
    method Exec(conversationID: string, sessionID: string, agentID: string, inputs: seq<EventLog.Step>, f: Faults)
      returns (r: ExecEnd)
      requires URI(harness.server.actor) <= harness.server.uris
      modifies el, harness.server
      ensures var log := old(el.allEvents);
              var plan := PlanExec(Conv(log, conversationID), agentID, inputs, registered, defaultHarness);
              var open := InputLogged(log, conversationID, sessionID, plan);
              if conversationID == "" then
                r == NoConversation && el.allEvents == log && harness.server.actor == old(harness.server.actor)
              else if plan.Reject? then
                r == Declined(plan.error) && el.allEvents == log && harness.server.actor == old(harness.server.actor)
              else
                && !r.NoConversation? && !r.Declined?
                && (r.NotStarted? || r.NotLogged? ==> el.allEvents == log)
                && (r.NotRun? || r.NotCheckpointed? ==> el.allEvents == open)
                && (r.Ended? ==> Committed(plan.inputs, sessionID, conversationID, open, f.lives))
      // how it ends, exactly
      ensures var log := old(el.allEvents);
              var plan := PlanExec(Conv(log, conversationID), agentID, inputs, registered, defaultHarness);
              conversationID != "" && !plan.Reject? ==>
                var found, uri := old(harness.server.actor), old(harness.server.uris) + 1;
                var started := CanRun(found, f.start) && f.start.healthy && !RunsNothing(found);
                var act := Substrate.Start(found, harness.server.boot, f.start, uri).0;
                var logged := started && (plan.Fresh? ==> f.logs);
                var replied := logged && Replies(agent, conversationID, plan.inputs, act, f);
                && (r.NotStarted? <==> !started)
                && (r.NotLogged? <==> started && !logged)
                && (r.NotRun? <==> logged && !replied)
                && (r.NotCheckpointed? || r.Ended? <==> replied)
                && (replied && f.suspend == Lands ==> r.Ended?)
    {
      hide PlanExec, Substrate.Start, CommitAttempt, Ran, ReplyTo, Current, Conv, Reaches, Substrate.Checkpoint,
           Replies, Delivered;
      if conversationID == "" {
        return NoConversation;
      }
      var l := new Logger(el, conversationID, agentID, sessionID);
      var plan := l.Plan(agentID, inputs, registered, defaultHarness);
      if plan.Reject? {
        return Declined(plan.error);
      }
      var exec := harness.StartTurn(f.start);
      if exec == null {
        return NotStarted;
      }
      exec.Queue(plan.inputs);
      assert exec.pending == plan.inputs;
      if plan.Fresh? {
        if !f.logs {
          return NotLogged;
        }
        var step := l.LogInputs(plan.inputs);
      }
      if Replies(agent, conversationID, plan.inputs, harness.server.actor, f) && f.suspend == Lands {
        LandingIsEnough(agent, conversationID, plan.inputs, harness.server.actor, f, harness.server.uris);
      }
      r := RunTurn(exec, l, f);
    }
  }
}
