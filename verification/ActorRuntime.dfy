/** The actor runtime as it runs: fields changed under one lock, section by section. */
module ActorRuntime {
  import opened Hop
  import opened EventLog
  import opened Runtime

  // ---------- redelivery ----------

  /** The result a delivery of `cur` ends up with once nothing under its id is running any more. */
  function Answer(m: Memory, stepID: string): Option<Outcome> {
    if m.rt.lastInputID == stepID then m.rt.last else None
  }

  /**
   * A redelivery joins the running round of its id, or gets the stored output or error of the latest one, whatever
   * else its envelope says; in neither case does the agent run again.
   */
  lemma {:induction false} RedeliveryRunsNothing(agent: Agent, id: string, m: Memory, cur: Envelope,
          again: Envelope, c: Choice)
    requires cur.stepID == again.stepID != "" && cur.stepID !in m.inFlight && cur.stepID != m.rt.lastInputID
    ensures var running := Arrive(m, cur);
            var finished := Finish(agent, id, running, cur.stepID, c);
            && Arrive(running, again) == running
            && Arrive(finished, again) == finished
            && finished.inFlight == m.inFlight
            && Answer(finished, again.stepID) == Some(DeliverOnce(agent, id, m.rt, cur, c).1)
            && |finished.rt.rounds| == |m.rt.rounds| + 1
  {
    var running := Arrive(m, cur);
    assert running.inFlight == m.inFlight[cur.stepID := cur];
    assert running.inFlight - {cur.stepID} == m.inFlight;
    assert Finish(agent, id, running, cur.stepID, c).inFlight == m.inFlight;
  }

  /** routeOrAwait's own registration, when Connect's test for a duplicate was made on an earlier state. */
  function ArriveLate(m: Memory, cur: Envelope): Memory {
    if cur.stepID in m.inFlight then m else m.(inFlight := m.inFlight[cur.stepID := cur])
  }

  lemma {:induction false} OneMoreRound(agent: Agent, id: string, rt: Runtime, msg: Envelope, c: Choice)
    ensures var rt' := Route(agent, id, rt, msg, c);
            && rt'.rounds == rt.rounds + [Round(msg, c)] && Served(rt') == Served(rt) + {msg.stepID}
            && rt'.last == Some(DeliverOnce(agent, id, rt, msg, c).1)
  {
    var rt' := Route(agent, id, rt, msg, c);
    assert rt'.rounds[|rt.rounds|] == Round(msg, c);
    forall r | r in rt.rounds ensures r in rt'.rounds {
    }
  }

  lemma {:induction false} OnceMore(m: Memory, rt: Runtime, msg: Envelope, c: Choice)
    requires ServedOnce(m) && rt.rounds == m.rt.rounds + [Round(msg, c)] && Served(rt) == Served(m.rt) + {msg.stepID}
    ensures ServedOnce(Memory(rt, m.inFlight - {msg.stepID})) <==> msg.stepID !in Served(m.rt)
  {
    var n := |m.rt.rounds|;
    if msg.stepID in Served(m.rt) {
      var i :| 0 <= i < n && m.rt.rounds[i].msg.stepID == msg.stepID;
      assert rt.rounds[i].msg.stepID == rt.rounds[n].msg.stepID;
    } else {
      forall i, j | 0 <= i < j <= n ensures rt.rounds[i].msg.stepID != rt.rounds[j].msg.stepID {
        assert m.rt.rounds[i] in m.rt.rounds;
      }
    }
  }

  /**
   * Connect's test and the registration take the lock separately. A delivery registering late has its id run for the
   * second time if and only if that id's round has already finished; one still running is joined.
   */
  lemma {:induction false} LateRegistrationRunsAgain(agent: Agent, id: string, m: Memory, cur: Envelope, c: Choice)
    requires ServedOnce(m)
    ensures var after := Finish(agent, id, ArriveLate(m, cur), cur.stepID, c);
            && |after.rt.rounds| == |m.rt.rounds| + 1
            && (ServedOnce(after) <==> cur.stepID !in Served(m.rt))
  {
    hide ServedOnce, Route, Served;
    var late := ArriveLate(m, cur);
    RunsUnderOwnID(m, cur);
    var msg := late.inFlight[cur.stepID];
    OneMoreRound(agent, id, m.rt, msg, c);
    OnceMore(m, Route(agent, id, m.rt, msg, c), msg, c);
    assert late.inFlight - {cur.stepID} == m.inFlight - {cur.stepID};
  }

  lemma {:induction false} RunsUnderOwnID(m: Memory, cur: Envelope)
    requires ServedOnce(m)
    ensures ArriveLate(m, cur).inFlight[cur.stepID].stepID == cur.stepID
  {
  }

  /**
   * The race itself: delivered, run to its end, registered once more by a delivery that was tested in between. The
   * agent runs twice under one id and the stored result is the second one's; for a reply that is an error, its
   * invocation having been resumed already.
   */
  lemma {:induction false} OneIDRunsTwice(agent: Agent, id: string, m: Memory, cur: Envelope, c: Choice,
                                          again: Choice)
    requires ServedOnce(m) && m.rt.waiting.Keys <= Served(m.rt)
    requires UsableNow(m, cur.stepID)
    ensures var first := Finish(agent, id, Arrive(m, cur), cur.stepID, c);
            var second := Finish(agent, id, ArriveLate(first, cur), cur.stepID, again);
            && ServedOnce(first) && !ServedOnce(second)
            && second.rt.rounds == m.rt.rounds + [Round(cur, c), Round(cur, again)]
            && second.rt.last == Some(DeliverOnce(agent, id, first.rt, cur, again).1)
            && (cur.reply && cur.correlation in m.rt.waiting ==> second.rt.last == Some(Err(NoWaiter)))
  {
    hide ServedOnce, DeliverOnce, Served;
    var first := Finish(agent, id, Arrive(m, cur), cur.stepID, c);
    assert Arrive(m, cur).inFlight - {cur.stepID} == m.inFlight - {cur.stepID};
    OneMoreRound(agent, id, m.rt, cur, c);
    OnceMore(m, Route(agent, id, m.rt, cur, c), cur, c);
    LateRegistrationRunsAgain(agent, id, first, cur, again);
    OneMoreRound(agent, id, first.rt, cur, again);
    assert cur.stepID !in first.inFlight;
    if cur.reply && cur.correlation in m.rt.waiting {
      ResumedOnce(agent, id, m.rt, cur, c);
      ResumedTwiceFails(agent, id, first.rt, cur, again);
    }
  }

  /** An id that a delivery is about to be registered under: not running and never run. */
  predicate UsableNow(m: Memory, stepID: string) {
    stepID !in m.inFlight && stepID !in Served(m.rt) && stepID != m.rt.lastInputID
  }

  lemma {:induction false} ResumedOnce(agent: Agent, id: string, rt: Runtime, cur: Envelope, c: Choice)
    requires cur.reply && cur.correlation in rt.waiting && cur.correlation != cur.stepID
    ensures cur.correlation !in Route(agent, id, rt, cur, c).waiting
  {
  }

  lemma {:induction false} ResumedTwiceFails(agent: Agent, id: string, rt: Runtime, cur: Envelope, c: Choice)
    requires cur.reply && cur.correlation !in rt.waiting
    ensures DeliverOnce(agent, id, rt, cur, c).1 == Err(NoWaiter)
  {
  }

  // ---------- the runtime's own code ----------

  datatype Reply = Reply(env: Option<Envelope>, error: Option<Error>)

  predicate WellReplied(r: Reply) {
    r.env.Some? <==> r.error.None?
  }

  /** The result as routeOrAwait stores it: every output stamped with its turn's own id. */
  function Stamped(r: Reply, stepID: string): Outcome
    requires WellReplied(r)
  {
    if r.env.Some? then Ok(r.env.value.(stepID := stepID)) else Err(r.error.value)
  }

  datatype Connected = InvalidArgument | Joined | Answered(outcome: Outcome)

  /** The last step's envelope, every step having to carry one. */
  ghost predicate AllEnvelopes(steps: seq<Step>) {
    forall i :: 0 <= i < |steps| ==> steps[i].text.Json?
  }

  class Process {
    const agent: Agent
    const agentID: string
    var local: Local
    var waiting: map<string, Waiter>
    var inFlight: map<string, Envelope>
    var lastInputID: string
    var lastOutput: Option<Envelope>
    var lastErr: Option<Error>
    /** Which invocation steps the process has run, in order. */
    ghost var rounds: seq<Round>

    ghost function Last(): Option<Outcome>
      reads this
    {
      if lastErr.Some? then Some(Err(lastErr.value))
      else if lastOutput.Some? then Some(Ok(lastOutput.value))
      else None
    }

    ghost function State(): Runtime
      reads this
    {
      Runtime(local, waiting, lastInputID, Last(), rounds)
    }

    ghost function Contents(): Memory
      reads this
    {
      Memory(State(), inFlight)
    }

    /** At most one of output and error is stored, and one of them is once anything has run. */
    ghost predicate Valid()
      reads this
    {
      && (lastOutput.None? || lastErr.None?)
      && (lastInputID != "" ==> Last().Some?)
    }

    constructor (agent: Agent, agentID: string, local: Local)
      ensures Valid() && Contents() == Memory(Boot(local), map[])
      ensures this.agent == agent && this.agentID == agentID
    {
      this.agent, this.agentID, this.local := agent, agentID, local;
      waiting, inFlight, lastInputID, lastOutput, lastErr, rounds := map[], map[], "", None, None, [];
    }

    /**
     * A call goes to its target with its message, a flush to oneself and an answer to one's caller, with their data.
     */
    predicate HandedBack(env: Envelope, act: Action, stepID: string, from: string, correlation: string) {
      && env.from == agentID
      && match act {
        case SendMessage(target, message, _) =>
          && env.to == target && !env.reply && env.correlation == stepID
          && env.data.message == Some(message) && env.data.task.None? && env.data.kind == DataMessage
        case FlushSelf(data, _) => env.to == agentID && env.reply && env.correlation == stepID && env.data == data
        case Return(data) => env.to == from && env.reply && env.correlation == correlation && env.data == data
        case Fail => false
      }
    }

    /** SendMessage, flushSelf and runInvocation's end: where an invocation hands control back. */
    method HandBack(act: Action, stepID: string, from: string, correlation: string) returns (r: Reply)
      modifies this`waiting
      ensures WellReplied(r)
      ensures waiting == Register(old(waiting), act, stepID, from, correlation)
      ensures Stamped(r, stepID) == if act.Fail? then Err(InvocationFailed)
                                    else Ok(ActionEnvelope(agentID, act, stepID, from, correlation))
      ensures r.env.Some? ==> HandedBack(r.env.value, act, stepID, from, correlation)
      ensures act.SendMessage? || act.FlushSelf? ==>
                waiting == old(waiting)[stepID := Waiter(act.k, act.FlushSelf?, from, correlation)]
      ensures act.Return? || act.Fail? ==> waiting == old(waiting)
    {
      match act {
        case SendMessage(target, message, k) =>
          waiting := waiting[stepID := Waiter(k, false, from, correlation)];
          r := Reply(Some(Envelope(agentID, target, stepID, "", false, MessageData(message))), None);
        case FlushSelf(data, k) =>
          waiting := waiting[stepID := Waiter(k, true, from, correlation)];
          r := Reply(Some(Envelope(agentID, agentID, stepID, "", true, data)), None);
        case Return(data) =>
          r := Reply(Some(Envelope(agentID, from, correlation, "", true, data)), None);
        case Fail =>
          r := Reply(None, Some(InvocationFailed));
      }
    }

    method Spawn(current: Envelope, c: Choice) returns (r: Reply)
      requires !current.reply
      modifies this`local, this`waiting
      ensures WellReplied(r)
      ensures DeliverOnce(agent, agentID, old(State()), current, c) == (State(), Stamped(r, current.stepID))
      ensures var data := current.data;
              var message := if data.task.Some? then data.task.value.statusMessage else data.message;
              local == agent.start(old(local), message, c).0
    {
      var (l, act) := agent.start(local, HopMessage(current.data), c);
      local := l;
      r := HandBack(act, current.stepID, current.from, current.correlation);
    }

    method Deliver(current: Envelope, c: Choice) returns (r: Reply)
      modifies this`local, this`waiting
      ensures WellReplied(r)
      ensures DeliverOnce(agent, agentID, old(State()), current, c) == (State(), Stamped(r, current.stepID))
    {
      if !current.reply {
        r := Spawn(current, c);
        return;
      }
      var token := current.correlation;
      if token !in waiting {
        return Reply(None, Some(NoWaiter));
      }
      var w := waiting[token];
      waiting := waiting - {token};
      var (l, act) := agent.resume(local, w.k, WakeData(w, current), c);
      local := l;
      r := HandBack(act, current.stepID, w.from, w.correlation);
    }

    /** The first lock section of routeOrAwait: join a running round, or start one. */
    method Begin(current: Envelope) returns (joined: bool)
      requires Valid()
      modifies this`inFlight
      ensures Valid() && joined == (current.stepID in old(inFlight))
      ensures inFlight == if joined then old(inFlight) else old(inFlight)[current.stepID := current]
      ensures current.stepID != lastInputID ==> Contents() == Arrive(old(Contents()), current)
    {
      if current.stepID in inFlight {
        return true;
      }
      inFlight := inFlight[current.stepID := current];
      joined := false;
    }

    /** The running round `stepID`, from its delivery to the second lock section. */
    method End(stepID: string, c: Choice) returns (outcome: Outcome)
      requires Valid() && stepID in inFlight && inFlight[stepID].stepID == stepID
      modifies this
      ensures Valid() && Contents() == Finish(agent, agentID, old(Contents()), stepID, c)
      ensures Some(outcome) == Last()
    {
      var current := inFlight[stepID];
      var r := Deliver(current, c);
      lastInputID := stepID;
      if r.error.None? {
        var env := r.env.value.(stepID := stepID);
        lastOutput, lastErr := Some(env), None;
        outcome := Ok(env);
      } else {
        lastOutput, lastErr := None, r.error;
        outcome := Err(r.error.value);
      }
      inFlight := inFlight - {stepID};
      rounds := rounds + [Round(current, c)];
    }

    /** Every step must carry an envelope; the turn is about the last one. */
    method CurrentEnvelope(steps: seq<Step>) returns (current: Option<Envelope>)
      ensures current.Some? <==> steps != [] && AllEnvelopes(steps)
      ensures current.Some? ==> current == Parse(steps[|steps| - 1].text)
    {
      current := None;
      for i := 0 to |steps|
        invariant AllEnvelopes(steps[..i])
        invariant current == if i == 0 then None else Parse(steps[i - 1].text)
      {
        var env := Parse(steps[i].text);
        if env.None? {
          assert !AllEnvelopes(steps) by {
            assert !steps[i].text.Json?;
          }
          return None;
        }
        assert steps[..i + 1] == steps[..i] + [steps[i]];
        current := env;
      }
      assert steps[..|steps|] == steps;
    }

    /** One turn's Connect with nothing else going on in between: duplicates answered, anything else run once. */
    method Connect(steps: seq<Step>, c: Choice) returns (r: Connected)
      requires Valid()
      modifies this
      ensures Valid()
      ensures r == InvalidArgument <==>
                steps == [] || !AllEnvelopes(steps) || Parse(steps[|steps| - 1].text).value.stepID == ""
      ensures r == InvalidArgument ==> Contents() == old(Contents())
      ensures r != InvalidArgument ==>
                var current := Parse(steps[|steps| - 1].text).value;
                if current.stepID == old(lastInputID) then
                  Contents() == old(Contents()) && r == Answered(old(Last()).value)
                else if current.stepID in old(inFlight) then
                  Contents() == old(Contents()) && r == Joined
                else
                  && Contents() == Finish(agent, agentID, Arrive(old(Contents()), current), current.stepID, c)
                  && r == Answered(Last().value)
    {
      var parsed := CurrentEnvelope(steps);
      if parsed.None? || parsed.value.stepID == "" {
        return InvalidArgument;
      }
      var current := parsed.value;
      if current.stepID == lastInputID {
        return Answered(if lastErr.Some? then Err(lastErr.value) else Ok(lastOutput.value));
      }
      var joined := Begin(current);
      if joined {
        return Joined;
      }
      var outcome := End(current.stepID, c);
      r := Answered(outcome);
    }
  }
}
