/** The values every component passes around: A2A messages, tasks, and the hop envelope. */
module Hop {

  datatype Option<+T> = None | Some(value: T)

  /** A2A task states, split into the classes the runtime and the relay distinguish. */
  datatype TaskState =
    | StateUnspecified | Submitted | Working
    | InputRequired | AuthRequired
    | Completed | Canceled | Failed | Rejected
  {
    predicate Terminal() {
      Completed? || Canceled? || Failed? || Rejected?
    }

    predicate Interrupted() {
      InputRequired? || AuthRequired?
    }

    /** The agent has more of its own work left to do. */
    predicate SelfContinue() {
      !StateUnspecified? && !Terminal() && !Interrupted()
    }
  }

  datatype Message = Message(taskID: string, contextID: string, text: string)

  datatype Task = Task(
    id: string,
    contextID: string,
    state: TaskState,
    statusMessage: Option<Message>,
    artifacts: seq<string>,
    metadata: map<string, string>)

  datatype DataType = DataUnspecified | DataMessage | DataTask

  datatype Data = Data(message: Option<Message>, task: Option<Task>, kind: DataType)

  /** What an agent's own call carries: a bare message. */
  function MessageData(m: Message): Data {
    Data(Some(m), None, DataMessage)
  }

  /** One hop on the wire. `to == ""` is checkpointd itself: a final reply. */
  datatype Envelope = Envelope(
    from: string,
    to: string,
    correlation: string,
    stepID: string,
    reply: bool,
    data: Data)

  /** The message an invocation is started with. */
  function HopMessage(d: Data): Option<Message> {
    if d.task.Some? then d.task.value.statusMessage else d.message
  }

  predicate IsTerminalReply(env: Envelope) {
    env.to == ""
  }
}
