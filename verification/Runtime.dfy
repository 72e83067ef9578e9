/** An actor's runtime: suspended invocations, the in-flight table and the one-entry result cache. */
module Runtime {
  import opened Hop

  /** One agent's process state, a suspended call's own state, and everything else an invocation may observe. */
  type Local(!new)
  type Cont(!new)
  type Choice(!new)

  /** What an invocation does next, up to its next blocking point. */
  datatype Action =
    | SendMessage(target: string, message: Message, k: Cont)
    | FlushSelf(data: Data, k: Cont)
    | Return(data: Data)
    | Fail

  /** An agent that makes its calls one at a time. Every invocation shares the process state. */
  datatype Agent = Agent(
    start: (Local, Option<Message>, Choice) -> (Local, Action),
    resume: (Local, Cont, Option<Data>, Choice) -> (Local, Action))

  /** A suspended invocation, with the sender and token of the envelope that spawned it. */
  datatype Waiter = Waiter(k: Cont, flushing: bool, from: string, correlation: string)

  datatype Error = NoWaiter | InvocationFailed

  datatype Outcome = Ok(env: Envelope) | Err(error: Error)

  /** One executed delivery, kept as a record of what the process has lived through. */
  datatype Round = Round(msg: Envelope, choice: Choice)

  datatype Runtime = Runtime(
    local: Local,
    waiting: map<string, Waiter>,
    lastInputID: string,
    last: Option<Outcome>,
    rounds: seq<Round>)

  function Boot(local: Local): Runtime {
    Runtime(local, map[], "", None, [])
  }

  function Served(rt: Runtime): set<string> {
    set r | r in rt.rounds :: r.msg.stepID
  }

  /** The envelope an action hands back, when it hands one back. */
  function ActionEnvelope(id: string, act: Action, stepID: string, from: string, correlation: string): Envelope
    requires !act.Fail?
  {
    match act
    case SendMessage(target, message, _) => Envelope(id, target, stepID, stepID, false, MessageData(message))
    case FlushSelf(data, _) => Envelope(id, id, stepID, stepID, true, data)
    case Return(data) => Envelope(id, from, correlation, stepID, true, data)
  }

  /** The waiting table after an action: a suspending one registers its step id as token. */
  function Register(waiting: map<string, Waiter>, act: Action, stepID: string, from: string, correlation: string)
    : map<string, Waiter>
  {
    match act
    case SendMessage(_, _, k) => waiting[stepID := Waiter(k, false, from, correlation)]
    case FlushSelf(_, k) => waiting[stepID := Waiter(k, true, from, correlation)]
    case Return(_) => waiting
    case Fail => waiting
  }

  /** What a waiting invocation is woken with: a flush ignores the envelope it is woken by. */
  function WakeData(w: Waiter, cur: Envelope): Option<Data> {
    if w.flushing then None else Some(cur.data)
  }

  /** Runs one delivery to its next blocking point. */
  function DeliverOnce(agent: Agent, id: string, rt: Runtime, cur: Envelope, c: Choice): (Runtime, Outcome) {
    if cur.reply then
      if cur.correlation !in rt.waiting then (rt, Err(NoWaiter))
      else
        var w := rt.waiting[cur.correlation];
        var waiting := rt.waiting - {cur.correlation};
        var (local, act) := agent.resume(rt.local, w.k, WakeData(w, cur), c);
        Settle(id, rt.(local := local, waiting := waiting), act, cur.stepID, w.from, w.correlation)
    else
      var (local, act) := agent.start(rt.local, HopMessage(cur.data), c);
      Settle(id, rt.(local := local), act, cur.stepID, cur.from, cur.correlation)
  }

  function Settle(id: string, rt: Runtime, act: Action, stepID: string, from: string, correlation: string)
    : (Runtime, Outcome)
  {
    (rt.(waiting := Register(rt.waiting, act, stepID, from, correlation)),
     if act.Fail? then Err(InvocationFailed) else Ok(ActionEnvelope(id, act, stepID, from, correlation)))
  }

  /** One whole round: the delivery, then its outcome remembered as the latest one. */
  function Route(agent: Agent, id: string, rt: Runtime, cur: Envelope, c: Choice): (r: Runtime)
    ensures r.last.Some?
  {
    var (rt', out) := DeliverOnce(agent, id, rt, cur, c);
    rt'.(lastInputID := cur.stepID, last := Some(out), rounds := rt.rounds + [Round(cur, c)])
  }

  /** A live process: its runtime, and the rounds it has begun but not finished. */
  datatype Memory = Memory(rt: Runtime, inFlight: map<string, Envelope>)

  /** A delivery reaching the process: the latest id is answered from the cache and a running one is joined. */
  function Arrive(m: Memory, cur: Envelope): Memory {
    if cur.stepID == m.rt.lastInputID || cur.stepID in m.inFlight then m
    else m.(inFlight := m.inFlight[cur.stepID := cur])
  }

  /** A running round reaching its next blocking point. */
  function Finish(agent: Agent, id: string, m: Memory, stepID: string, c: Choice): Memory
    requires stepID in m.inFlight
  {
    Memory(Route(agent, id, m.rt, m.inFlight[stepID], c), m.inFlight - {stepID})
  }

  /** A delivery and the end of the round it starts or joins; an id answered from the cache changes nothing. */
  function Ran(agent: Agent, id: string, m: Memory, cur: Envelope, c: Choice): Memory {
    var m' := Arrive(m, cur);
    if cur.stepID in m'.inFlight then Finish(agent, id, m', cur.stepID, c) else m'
  }

  /** The reply a process holds for its latest step id, if that is `stepID` and it did not fail. */
  function ReplyTo(m: Memory, stepID: string): Option<Envelope> {
    if m.rt.lastInputID == stepID && m.rt.last.Some? && m.rt.last.value.Ok? then Some(m.rt.last.value.env) else None
  }

  /** No id twice among the rounds a process has finished, and none of those running now, each under its own id. */
  ghost predicate ServedOnce(mem: Memory) {
    && (forall i, j :: 0 <= i < j < |mem.rt.rounds| ==> mem.rt.rounds[i].msg.stepID != mem.rt.rounds[j].msg.stepID)
    && (forall id :: id in mem.inFlight ==> id !in Served(mem.rt) && mem.inFlight[id].stepID == id)
  }
}
