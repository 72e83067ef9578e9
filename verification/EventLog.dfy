/** Step events, the texts read back out of them, and the per-conversation view of a log. */
module EventLog {
  import opened Hop

  /** A step's text: empty, one JSON-encoded hop envelope, or anything else. */
  datatype Text = Blank | Json(env: Envelope) | Plain(s: string)

  datatype Role = User | Assistant | Checkpointd

  datatype Step = Step(role: Role, text: Text)

  datatype State = StateUnset | StatePending | StateCompleted

  datatype StepEvent = StepEvent(
    conversationID: string,
    agentID: string,
    sessionID: string,
    steps: seq<Step>,
    state: State)

  function UserStep(env: Envelope): Step {
    Step(User, Json(env))
  }

  function ReplyStep(env: Envelope): Step {
    Step(Assistant, Json(env))
  }

  function Parse(t: Text): Option<Envelope> {
    if t.Json? then Some(t.env) else None
  }

  /** The last non-empty text of `steps`. */
  function NewestText(steps: seq<Step>): Text {
    if steps == [] then Blank
    else
      var last := steps[|steps| - 1];
      if last.text != Blank then last.text else NewestText(steps[..|steps| - 1])
  }

  /** The first non-empty text of `steps`. */
  function StepText(steps: seq<Step>): Text {
    if steps == [] then Blank
    else if steps[0].text != Blank then steps[0].text
    else StepText(steps[1..])
  }

  /** The events of one conversation, in append order. */
  function Conv(log: seq<StepEvent>, id: string): seq<StepEvent> {
    if log == [] then []
    else
      var rest := Conv(log[..|log| - 1], id);
      var ev := log[|log| - 1];
      if ev.conversationID == id then rest + [ev] else rest
  }

  lemma {:induction false} ConvAppend(log: seq<StepEvent>, ev: StepEvent, id: string)
    ensures Conv(log + [ev], id) == Conv(log, id) + if ev.conversationID == id then [ev] else []
  {
    assert (log + [ev])[..|log|] == log;
  }

  /** The history sent along with a new turn: each event's first text, once per event. */
  function HistorySteps(events: seq<StepEvent>): seq<Step> {
    if events == [] then []
    else
      var rest := HistorySteps(events[..|events| - 1]);
      var text := StepText(events[|events| - 1].steps);
      if text != Blank then rest + [Step(User, text)] else rest
  }

  lemma {:induction false} HistoryStepsAppend(events: seq<StepEvent>, ev: StepEvent)
    ensures HistorySteps(events + [ev]) ==
            HistorySteps(events) + if StepText(ev.steps) != Blank then [Step(User, StepText(ev.steps))] else []
  {
    assert (events + [ev])[..|events|] == events;
  }

  /** The step ids an actor's conversation already mentions. */
  function StepIDs(events: seq<StepEvent>): set<string> {
    if events == [] then {}
    else
      var rest := StepIDs(events[..|events| - 1]);
      var env := Parse(NewestText(events[|events| - 1].steps));
      if env.Some? then rest + {env.value.stepID} else rest
  }

  lemma {:induction false} StepIDsAppend(events: seq<StepEvent>, ev: StepEvent)
    ensures StepIDs(events + [ev]) ==
            StepIDs(events) +
            if Parse(NewestText(ev.steps)).Some? then {Parse(NewestText(ev.steps)).value.stepID} else {}
  {
    assert (events + [ev])[..|events|] == events;
  }

  /** The newest envelope a log holds, scanning backwards past events that carry none. */
  function LastHop(log: seq<StepEvent>): Option<Envelope> {
    if log == [] then None
    else
      var env := Parse(NewestText(log[|log| - 1].steps));
      if env.Some? then env else LastHop(log[..|log| - 1])
  }

  lemma {:induction false} LastHopAppend(log: seq<StepEvent>, ev: StepEvent)
    ensures LastHop(log + [ev]) ==
            if Parse(NewestText(ev.steps)).Some? then Parse(NewestText(ev.steps)) else LastHop(log)
  {
    assert (log + [ev])[..|log|] == log;
  }
}
