/** The Substrate harness as it runs: one turn's execution, driving an external actor through control API calls. */
module Harness {
  import opened Hop
  import opened EventLog
  import opened Runtime
  import opened Substrate
  import opened System

  /** The control API's side: the actor, and how many snapshots it has ever named. */
  class ControlServer {
    var actor: Actor
    var uris: nat
    const boot: Memory

    constructor (boot: Memory)
      ensures actor == Absent && uris == 0 && this.boot == boot
    {
      actor, uris, this.boot := Absent, 0, boot;
    }

    method CreateActor(fate: CallFate) returns (ok: bool)
      requires actor.Absent?
      modifies this`actor
      ensures ok == (fate == Succeeds)
      ensures actor == if ok then Actor(Suspended, None, None, false) else old(actor)
    {
      ok := fate == Succeeds;
      if ok {
        actor := Actor(Suspended, None, None, false);
      }
    }

    method Suspend(fate: SuspendFate) returns (ok: bool)
      modifies this
      ensures (actor, ok) == SuspendActor(old(actor), fate, old(uris) + 1) && uris == old(uris) + 1
    {
      var r := SuspendActor(actor, fate, uris + 1);
      actor, ok, uris := r.0, r.1, uris + 1;
    }

    method Revert(fate: CallFate) returns (ok: bool)
      modifies this`actor
      ensures (actor, ok) == RevertActor(old(actor), fate)
    {
      var r := RevertActor(actor, fate);
      actor, ok := r.0, r.1;
    }

    method Resume(fate: CallFate) returns (ok: bool)
      modifies this`actor
      ensures (actor, ok) == ResumeActor(old(actor), boot, fate)
    {
      var r := ResumeActor(actor, boot, fate);
      actor, ok := r.0, r.1;
    }

    method ReleaseWorker(fate: CallFate) returns (ok: bool)
      modifies this`actor
      ensures (actor, ok) == DeleteWorker(old(actor), fate)
    {
      var r := DeleteWorker(actor, fate);
      actor, ok := r.0, r.1;
    }
  }

  class SubstrateHarness {
    const server: ControlServer

    constructor (server: ControlServer)
      ensures this.server == server
    {
      this.server := server;
    }

    method RevertAndResume(fate: Fate) returns (ok: bool)
      modifies server`actor
      ensures (server.actor, ok) == RevertThenResume(old(server.actor), server.boot, fate)
    {
      ok := server.Revert(fate.revert);
      if ok {
        ok := server.Resume(fate.resume);
      }
    }

    /** One attempt at getting the actor running, from whatever state it is found in. */
    method ResumeFromAnyState(fate: Fate) returns (ok: bool)
      modifies server
      ensures (server.actor, ok) == EnsureRunning(old(server.actor), server.boot, fate, old(server.uris) + 1)
      ensures server.uris <= old(server.uris) + 1
      ensures URI(old(server.actor)) <= old(server.uris) ==> URI(server.actor) <= server.uris
      ensures ok <==> CanRun(old(server.actor), fate)
      ensures ok ==> server.actor.Actor? && server.actor.state == Running
      ensures ok && RunsNothing(old(server.actor)) ==> server.actor == old(server.actor)
      ensures ok && !RunsNothing(old(server.actor)) ==>
                server.actor.mem == Some(StartedWith(old(server.actor), server.boot, fate))
    {
      var actor := server.actor;
      if actor.Absent? {
        ok := server.CreateActor(fate.create);
        if ok {
          ok := server.Resume(fate.resume);
        }
        return;
      }
      match actor.state {
        case Suspended | Running | Resuming =>
          ok := server.Resume(fate.resume);
        case Crashed | Reverting =>
          ok := RevertAndResume(fate);
        case Suspending =>
          ok := server.Suspend(fate.suspend);
          if ok {
            ok := server.Resume(fate.resume);
          } else if fate.suspend != Aborted && actor.worker {
            ok := server.ReleaseWorker(fate.release);
            if ok {
              ok := RevertAndResume(fate);
            }
          }
        case Deleting | Transient =>
          ok := false;
      }
    }

    /** Start: an actor that runs but cannot be reached is crashed on purpose, for the next attempt to recover. */
    method StartTurn(fate: Fate) returns (e: SubstrateExecution?)
      modifies server
      ensures URI(old(server.actor)) <= old(server.uris) ==> URI(server.actor) <= server.uris
      ensures var r := Start(old(server.actor), server.boot, fate, old(server.uris) + 1);
              && server.actor == r.0 && (e != null <==> r.1)
              && (e != null ==> fresh(e) && e.server == server && e.preCheckpointSnapshot == URI(r.0) && e.pending == [])
      ensures e != null <==> CanRun(old(server.actor), fate) && fate.healthy && !RunsNothing(old(server.actor))
      ensures e != null ==> server.actor.Actor? && server.actor.state == Running &&
                            server.actor.mem == Some(StartedWith(old(server.actor), server.boot, fate))
    {
      e := null;
      var ok := ResumeFromAnyState(fate);
      if !ok {
        return;
      }
      if !fate.healthy || server.actor.Absent? || server.actor.mem.None? {
        var released := server.ReleaseWorker(fate.release);
        return;
      }
      e := new SubstrateExecution(server, URI(server.actor));
    }
  }

  /** The queued input carries a message, and the actor has a process to hand it to. */
  predicate Reaches(queued: seq<EventLog.Step>, act: Actor) {
    && Current(queued).Some? && Current(queued).value.stepID != ""
    && act.Actor? && act.state == Running && act.mem.Some?
  }

  /** Which is when the protocol's delivery takes place. */
  lemma {:induction false} ReachesIffDelivered(s: Sys)
    requires s.driver.Turning? && s.driver.stage.Ready? && s.driver.job.agent in s.actors
    ensures Reaches(s.driver.stage.queued, s.actors[s.driver.job.agent]) <==> DoConnect(s).driver.stage.Awaiting?
  {
    hide Arrive;
  }

  function AfterRun(agent: Agent, id: string, queued: seq<EventLog.Step>, act: Actor, c: Choice): Actor {
    if Reaches(queued, act) then act.(mem := Some(Ran(agent, id, act.mem.value, Current(queued).value, c))) else act
  }

  /** One uninterrupted Run is the protocol's delivery, the end of its round, and its reply coming back. */
  lemma {:induction false} RunIsThreeSteps(w: World, s: Sys, c: Choice)
    requires s.driver.Turning? && s.driver.stage.Ready?
    requires s.driver.job.agent in s.actors && s.driver.job.agent in w.p.agents
    requires Reaches(s.driver.stage.queued, s.actors[s.driver.job.agent])
    ensures var job, queued := s.driver.job, s.driver.stage.queued;
            var a, msg := job.agent, Current(queued).value;
            var s' := DoReceive(DoRoundEnds(w, DoConnect(s), a, msg.stepID, c));
            var act := AfterRun(w.p.agents[a], a, queued, s.actors[a], c);
            var reply := ReplyTo(act.mem.value, msg.stepID);
            && s' == s.(actors := s.actors[a := act], driver := s'.driver)
            && (reply.Some? ==> s'.driver == Turning(job, Got(reply.value, s.driver.stage.pre)))
            && (reply.None? ==> s'.driver in {Turning(job, Trying), Turning(job, Awaiting(msg, s.driver.stage.pre))})
  {
    hide Finish;
    var a := s.driver.job.agent;
    var msg := Current(s.driver.stage.queued).value;
    var m := Arrive(s.actors[a].mem.value, msg);
    var s1 := DoConnect(s);
    assert s1.actors == s.actors[a := s.actors[a].(mem := Some(m))];
    var s2 := DoRoundEnds(w, s1, a, msg.stepID, c);
    assert s2.actors == s.actors[a := AfterRun(w.p.agents[a], a, s.driver.stage.queued, s.actors[a], c)];
  }

  class SubstrateExecution {
    const server: ControlServer
    const preCheckpointSnapshot: nat
    var pending: seq<EventLog.Step>

    constructor (server: ControlServer, preCheckpointSnapshot: nat)
      ensures this.server == server && this.preCheckpointSnapshot == preCheckpointSnapshot && pending == []
    {
      this.server, this.preCheckpointSnapshot, pending := server, preCheckpointSnapshot, [];
    }

    method Queue(steps: seq<EventLog.Step>)
      modifies this`pending
      ensures pending == old(pending) + steps
    {
      pending := pending + steps;
    }

    /**
     * Run: everything queued is sent, once, and its last envelope is what the actor is asked. The answer handed on is
     * the one the actor's process now remembers under that very step id.
     */
    method Run(agent: Agent, id: string, connects: bool, answers: bool, c: Choice) returns (out: Option<Envelope>)
      modifies this`pending, server`actor
      ensures pending == []
      ensures server.actor == if connects then AfterRun(agent, id, old(pending), old(server.actor), c)
          else old(server.actor)
      ensures out == if connects && answers && Reaches(old(pending), old(server.actor))
                     then ReplyTo(server.actor.mem.value, Current(old(pending)).value.stepID) else None
    {
      var inputs := pending;
      pending := [];
      out := None;
      if connects && Reaches(inputs, server.actor) {
        var msg := Current(inputs).value;
        server.actor := server.actor.(mem := Some(Ran(agent, id, server.actor.mem.value, msg, c)));
        if answers {
          out := ReplyTo(server.actor.mem.value, msg.stepID);
        }
      }
    }

    /** A success means the actor's memory, as it was before the call, is its snapshot now. */
    method Checkpoint(fate: SuspendFate) returns (ok: bool)
      modifies server
      ensures (server.actor, ok) ==
          Substrate.Checkpoint(old(server.actor), preCheckpointSnapshot, fate, old(server.uris) + 1)
      ensures ok && preCheckpointSnapshot == URI(old(server.actor)) <= old(server.uris) ==>
                && old(server.actor).Actor? && old(server.actor).mem.Some? && server.actor.snap.Some?
                && server.actor.snap.value.mem == old(server.actor).mem.value
    {
      if URI(server.actor) <= server.uris {
        CheckpointRecords(server.actor, fate, server.uris + 1);
      }
      ok := server.Suspend(fate);
      if !ok {
        return false;
      }
      var got := URI(server.actor);
      ok := got != 0 && got != preCheckpointSnapshot;
    }
  }
}
