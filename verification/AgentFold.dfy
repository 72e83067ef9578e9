/** One Execute call's events folded into the data it hands back. */
module AgentFold {
  import opened Hop

  datatype StatusUpdate = StatusUpdate(
    taskID: string, contextID: string, state: TaskState, message: Option<Message>, metadata: map<string, string>)

  datatype ArtifactUpdate = ArtifactUpdate(taskID: string, contextID: string, artifact: string)

  datatype Event =
    | MessageEvent(message: Message)
    | StatusEvent(status: StatusUpdate)
    | ArtifactEvent(update: ArtifactUpdate)
    | TaskEvent(task: Task)
    | OtherEvent
    | Fault

  datatype Refusal =
    | AgentFailed | AfterTerminal | MessageAfterTask | UpdateBeforeTask | BadArtifact | Unsupported | LeftWorking

  /** The library's own artifact merge: refused, or the task with the update applied. */
  type ApplyArtifact = (Task, ArtifactUpdate) -> Option<Task>

  const EMPTY_TASK := Task("", "", StateUnspecified, None, [], map[])

  const NO_DATA := Data(None, None, DataUnspecified)

  /** The task in hand: the one being built, else the stored one, else an empty one. */
  function SeedTask(stored: Option<Task>, task: Option<Task>): Task {
    if task.Some? then task.value
    else if stored.Some? then stored.value
    else EMPTY_TASK
  }

  function MergeMetadata(t: Task, extra: map<string, string>): Task {
    t.(metadata := t.metadata + extra)
  }

  function ApplyStatus(t: Task, v: StatusUpdate): Task {
    MergeMetadata(t.(
      state := v.state,
      statusMessage := if v.message.Some? then v.message else t.statusMessage,
      id := if v.taskID != "" then v.taskID else t.id,
      contextID := if v.contextID != "" then v.contextID else t.contextID), v.metadata)
  }

  /** A Task event replaces the task, behind the artifacts and under the metadata already there. */
  function AdoptTask(t: Task, v: Task): Task {
    v.(artifacts := t.artifacts + v.artifacts, metadata := t.metadata + v.metadata)
  }

  /** `flushed` are the data handed back as self-continuations on the way. */
  datatype Fold = Fold(data: Data, established: bool, terminal: bool, flushed: seq<Data>)

  datatype Outcome = Refused(reason: Refusal) | Folded(data: Data, flushed: seq<Data>)

  function Flush(f: Fold, state: TaskState): Fold {
    if state.SelfContinue() then f.(flushed := f.flushed + [f.data]) else f
  }

  /** One event; the refusals are checked in this order. */
  function Next(stored: Option<Task>, apply: ApplyArtifact, f: Fold, ev: Event): (r: (Fold, Option<Refusal>)) {
    if ev.Fault? then (f, Some(AgentFailed))
    else if f.terminal then (f, Some(AfterTerminal))
    else
      match ev
      case MessageEvent(m) =>
        if f.established then (f, Some(MessageAfterTask))
        else (f.(data := f.data.(message := Some(m), kind := DataMessage)), None)
      case StatusEvent(v) =>
        if !f.established then (f, Some(UpdateBeforeTask))
        else
          var t := ApplyStatus(SeedTask(stored, f.data.task), v);
          (Flush(f.(data := f.data.(task := Some(t), kind := DataTask), terminal := v.state.Terminal()), v.state), None)
      case ArtifactEvent(v) =>
        if !f.established then (f, Some(UpdateBeforeTask))
        else
          var seeded := SeedTask(stored, f.data.task);
          var t := seeded.(
            id := if v.taskID != "" then v.taskID else seeded.id,
            contextID := if v.contextID != "" then v.contextID else seeded.contextID);
          var merged := apply(t, v.(taskID := t.id, contextID := t.contextID));
          if merged.None? then (f, Some(BadArtifact))
          else (f.(data := f.data.(task := merged, kind := DataTask)), None)
      case TaskEvent(v) =>
        var t := AdoptTask(SeedTask(stored, f.data.task), v);
        (Flush(f.(data := Data(None, Some(t), DataTask), established := true, terminal := t.state.Terminal()),
               t.state), None)
      case OtherEvent => (f, Some(Unsupported))
      case Fault => (f, Some(AgentFailed))
  }

  function Initial(stored: Option<Task>): Fold {
    Fold(NO_DATA, stored.Some?, false, [])
  }

  function FoldAll(stored: Option<Task>, apply: ApplyArtifact, events: seq<Event>): (Fold, Option<Refusal>) {
    if events == [] then (Initial(stored), None)
    else
      var (f, bad) := FoldAll(stored, apply, events[..|events| - 1]);
      if bad.Some? then (f, bad) else Next(stored, apply, f, events[|events| - 1])
  }

  function Finish(f: Fold): Outcome {
    if f.data.task.Some? && f.data.task.value.state.SelfContinue() then Refused(LeftWorking)
        else Folded(f.data, f.flushed)
  }

  function Execute(stored: Option<Task>, apply: ApplyArtifact, events: seq<Event>): Outcome {
    var (f, bad) := FoldAll(stored, apply, events);
    if bad.Some? then Refused(bad.value) else Finish(f)
  }

  /** The event loop with its own variables. */
  method RunEvents(stored: Option<Task>, apply: ApplyArtifact, events: seq<Event>) returns (r: Outcome)
    ensures r == Execute(stored, apply, events)
  {
    var data := NO_DATA;
    var established := stored.Some?;
    var terminal := false;
    var flushed: seq<Data> := [];
    for i := 0 to |events|
      invariant FoldAll(stored, apply, events[..i]) == (Fold(data, established, terminal, flushed), None)
    {
      assert events[..i + 1][..i] == events[..i];
      ghost var f := Fold(data, established, terminal, flushed);
      var ev := events[i];
      if ev.Fault? {
        FirstRefusalStays(stored, apply, events, i + 1);
        return Refused(AgentFailed);
      }
      if terminal {
        FirstRefusalStays(stored, apply, events, i + 1);
        return Refused(AfterTerminal);
      }
      match ev {
        case MessageEvent(m) =>
          if established {
            FirstRefusalStays(stored, apply, events, i + 1);
            return Refused(MessageAfterTask);
          }
          data := data.(message := Some(m), kind := DataMessage);
        case StatusEvent(v) =>
          if !established {
            FirstRefusalStays(stored, apply, events, i + 1);
            return Refused(UpdateBeforeTask);
          }
          var t := SeedTask(stored, data.task);
          t := t.(state := v.state);
          if v.message.Some? {
            t := t.(statusMessage := v.message);
          }
          if v.taskID != "" {
            t := t.(id := v.taskID);
          }
          if v.contextID != "" {
            t := t.(contextID := v.contextID);
          }
          t := MergeMetadata(t, v.metadata);
          data := data.(task := Some(t), kind := DataTask);
          terminal := v.state.Terminal();
          if v.state.SelfContinue() {
            flushed := flushed + [data];
          }
        case ArtifactEvent(v) =>
          if !established {
            FirstRefusalStays(stored, apply, events, i + 1);
            return Refused(UpdateBeforeTask);
          }
          var t := SeedTask(stored, data.task);
          var u := v;
          if v.taskID != "" { t := t.(id := v.taskID); } else { u := u.(taskID := t.id); }
          if v.contextID != "" { t := t.(contextID := v.contextID); } else { u := u.(contextID := t.contextID); }
          var merged := apply(t, u);
          if merged.None? {
            FirstRefusalStays(stored, apply, events, i + 1);
            return Refused(BadArtifact);
          }
          data := data.(task := merged, kind := DataTask);
        case TaskEvent(v) =>
          var t := AdoptTask(SeedTask(stored, data.task), v);
          data := Data(None, Some(t), DataTask);
          established := true;
          terminal := t.state.Terminal();
          if t.state.SelfContinue() {
            flushed := flushed + [data];
          }
        case OtherEvent =>
          FirstRefusalStays(stored, apply, events, i + 1);
          return Refused(Unsupported);
      }
      assert Next(stored, apply, f, ev) == (Fold(data, established, terminal, flushed), None);
    }
    assert events[..|events|] == events;
    if data.task.Some? && data.task.value.state.SelfContinue() {
      return Refused(LeftWorking);
    }
    r := Folded(data, flushed);
  }

  lemma {:induction false} FirstRefusalStays(stored: Option<Task>, apply: ApplyArtifact, events: seq<Event>, n: nat)
    requires n <= |events| && FoldAll(stored, apply, events[..n]).1.Some?
    ensures FoldAll(stored, apply, events).1 == FoldAll(stored, apply, events[..n]).1
    decreases |events|
  {
    if n == |events| {
      assert events[..n] == events;
    } else {
      assert events[..|events| - 1][..n] == events[..n];
      FirstRefusalStays(stored, apply, events[..|events| - 1], n);
    }
  }

  // ---------- what an accepted sequence of events is ----------

  predicate IsTaskOrUpdate(ev: Event) {
    ev.TaskEvent? || ev.StatusEvent? || ev.ArtifactEvent?
  }

  predicate Ends(ev: Event) {
    || (ev.TaskEvent? && ev.task.state in {Completed, Canceled, Failed, Rejected})
    || (ev.StatusEvent? && ev.status.state in {Completed, Canceled, Failed, Rejected})
  }

  /** The protocol an agent must keep to, said without the fold. */
  ghost predicate InOrder(stored: Option<Task>, events: seq<Event>) {
    // only supported events
    && (forall i :: 0 <= i < |events| ==> events[i].MessageEvent? || IsTaskOrUpdate(events[i]))
    // updates only of a task that exists, a bare message only while none does
    && (forall i :: 0 <= i < |events| && (events[i].StatusEvent? || events[i].ArtifactEvent?) ==>
          stored.Some? || exists j :: 0 <= j < i && events[j].TaskEvent?)
    && (forall i :: 0 <= i < |events| && events[i].MessageEvent? ==>
          stored.None? && forall j :: 0 <= j < i ==> !events[j].TaskEvent?)
    // nothing after the end
    && (forall i :: 0 <= i < |events| - 1 ==> !Ends(events[i]))
  }

  /** What has been folded so far, in terms of the events. */
  ghost predicate Matches(stored: Option<Task>, events: seq<Event>, f: Fold) {
    && (f.established <==> stored.Some? || exists j :: 0 <= j < |events| && events[j].TaskEvent?)
    && (f.terminal <==> events != [] && Ends(events[|events| - 1]))
    && match f.data.kind
       case DataUnspecified => events == [] && f.data == NO_DATA
       case DataMessage =>
         && f.data.task == None && f.data.message.Some? && events != []
         && events[|events| - 1] == MessageEvent(f.data.message.value)
         && forall j :: 0 <= j < |events| ==> events[j].MessageEvent?
       case DataTask => f.data.message == None && f.data.task.Some? && exists j :: 0 <= j < |events| && IsTaskOrUpdate(events[j])
  }

  lemma {:induction false} FoldMatches(stored: Option<Task>, apply: ApplyArtifact, events: seq<Event>)
    requires FoldAll(stored, apply, events).1.None?
    ensures InOrder(stored, events) && Matches(stored, events, FoldAll(stored, apply, events).0)
  {
    if events != [] {
      var init, ev := events[..|events| - 1], events[|events| - 1];
      FoldMatches(stored, apply, init);
      var f := FoldAll(stored, apply, init).0;
      forall i | 0 <= i < |init| ensures init[i] == events[i] {
      }
      assert events == init + [ev];
      StepMatches(stored, apply, init, ev, f);
    }
  }

  lemma {:induction false} StepMatches(stored: Option<Task>, apply: ApplyArtifact, init: seq<Event>, ev: Event,
                                       f: Fold)
    requires InOrder(stored, init) && Matches(stored, init, f) && Next(stored, apply, f, ev).1.None?
    ensures InOrder(stored, init + [ev]) && Matches(stored, init + [ev], Next(stored, apply, f, ev).0)
  {
    var events := init + [ev];
    forall i | 0 <= i < |init| ensures events[i] == init[i] {
    }
    assert events[|init|] == ev;
    if f.established && stored.None? {
      var j :| 0 <= j < |init| && init[j].TaskEvent?;
      assert events[j].TaskEvent?;
    }
    if f.data.kind == DataTask {
      var j :| 0 <= j < |init| && IsTaskOrUpdate(init[j]);
      assert IsTaskOrUpdate(events[j]);
    }
  }

  /**
   * Every sequence that ends without error kept to the protocol, and its output is exactly one of nothing, its last
   * Message, or a Task, by whether any Task or update was among the events; a Task is never left Working or Submitted.
   */
  lemma {:induction false} AcceptedOutput(stored: Option<Task>, apply: ApplyArtifact, events: seq<Event>)
    requires Execute(stored, apply, events).Folded?
    ensures InOrder(stored, events)
    ensures var d := Execute(stored, apply, events).data;
            if events == [] then d == NO_DATA
            else if forall j :: 0 <= j < |events| ==> events[j].MessageEvent? then
              d == Data(Some(events[|events| - 1].message), None, DataMessage)
            else
              d.kind == DataTask && d.message == None && d.task.Some? && d.task.value.state !in {Submitted, Working}
  {
    FoldMatches(stored, apply, events);
  }

  /** And the other way round: whoever keeps to the protocol is refused for nothing but a bad artifact update. */
  lemma {:induction false} OrderlyIsAccepted(stored: Option<Task>, apply: ApplyArtifact, events: seq<Event>)
    requires InOrder(stored, events)
    ensures var bad := FoldAll(stored, apply, events).1; bad.None? || bad == Some(BadArtifact)
  {
    if events != [] {
      var init, ev := events[..|events| - 1], events[|events| - 1];
      assert events == init + [ev];
      OrderlyPrefix(stored, init, ev);
      OrderlyIsAccepted(stored, apply, init);
      if FoldAll(stored, apply, init).1.None? {
        FoldMatches(stored, apply, init);
        LastIsOrderly(stored, apply, init, ev, FoldAll(stored, apply, init).0);
      }
    }
  }

  lemma {:induction false} OrderlyPrefix(stored: Option<Task>, init: seq<Event>, ev: Event)
    requires InOrder(stored, init + [ev])
    ensures InOrder(stored, init)
  {
    var events := init + [ev];
    forall i | 0 <= i < |init| ensures init[i] == events[i] {
    }
    forall i | 0 <= i < |init| && (init[i].StatusEvent? || init[i].ArtifactEvent?) && stored.None?
      ensures exists j :: 0 <= j < i && init[j].TaskEvent?
    {
      assert events[i] == init[i];
      var j :| 0 <= j < i && events[j].TaskEvent?;
      assert init[j].TaskEvent?;
    }
  }

  lemma {:induction false} LastIsOrderly(stored: Option<Task>, apply: ApplyArtifact, init: seq<Event>, ev: Event,
                                         f: Fold)
    requires InOrder(stored, init + [ev]) && Matches(stored, init, f)
    ensures var bad := Next(stored, apply, f, ev).1; bad.None? || bad == Some(BadArtifact)
  {
    var events := init + [ev];
    assert events[|init|] == ev;
    if init != [] {
      assert !Ends(events[|init| - 1]);
    }
    if (ev.StatusEvent? || ev.ArtifactEvent?) && stored.None? {
      var j :| 0 <= j < |init| && events[j].TaskEvent?;
      assert init[j].TaskEvent?;
    }
    if ev.MessageEvent? {
      forall j | 0 <= j < |init| ensures !init[j].TaskEvent? {
        assert events[j] == init[j];
      }
    }
  }

  /** No reported artifact is dropped or reordered, no metadata key lost. */
  ghost predicate Grows(t: Task, t': Task) {
    t.artifacts <= t'.artifacts && t.metadata.Keys <= t'.metadata.Keys
  }

  lemma {:induction false} NextGrows(stored: Option<Task>, apply: ApplyArtifact, f: Fold, ev: Event)
    requires Next(stored, apply, f, ev).1.None? && (ev.TaskEvent? || ev.StatusEvent?)
    ensures var f' := Next(stored, apply, f, ev).0;
            f'.data.task.Some? && Grows(SeedTask(stored, f.data.task), f'.data.task.value)
  {
  }

  /** Over Task and status events the stored task's artifacts stay a prefix and its metadata keys are kept. */
  lemma {:induction false} StoredTaskGrows(stored: Option<Task>, apply: ApplyArtifact, events: seq<Event>)
    requires FoldAll(stored, apply, events).1.None?
    requires forall ev :: ev in events ==> ev.TaskEvent? || ev.StatusEvent?
    ensures Grows(SeedTask(stored, None), SeedTask(stored, FoldAll(stored, apply, events).0.data.task))
  {
    if events != [] {
      var init, ev := events[..|events| - 1], events[|events| - 1];
      StoredTaskGrows(stored, apply, init);
      NextGrows(stored, apply, FoldAll(stored, apply, init).0, ev);
    }
  }

  /** How many events report more work to come. */
  function Continuations(events: seq<Event>): nat {
    if events == [] then 0
    else
      var ev := events[|events| - 1];
      Continuations(events[..|events| - 1]) +
      if (ev.TaskEvent? && ev.task.state in {Submitted, Working}) ||
         (ev.StatusEvent? && ev.status.state in {Submitted, Working}) then 1 else 0
  }

  /** Every Working or Submitted report is flushed, once, and nothing else is. */
  lemma {:induction false} EveryContinuationIsFlushed(stored: Option<Task>, apply: ApplyArtifact, events: seq<Event>)
    requires FoldAll(stored, apply, events).1.None?
    ensures var flushed := FoldAll(stored, apply, events).0.flushed;
            && |flushed| == Continuations(events)
            && forall i :: 0 <= i < |flushed| ==>
                 flushed[i].kind == DataTask && flushed[i].task.Some?
                     && flushed[i].task.value.state in {Submitted, Working}
  {
    if events != [] {
      EveryContinuationIsFlushed(stored, apply, events[..|events| - 1]);
    }
  }

  // ---------- what the folded task says ----------

  /** What the newest of the events that give something gives. */
  function Newest<T>(events: seq<Event>, gives: Event -> Option<T>): Option<T> {
    if events == [] then None
    else
      var given := gives(events[|events| - 1]);
      if given.Some? then given else Newest(events[..|events| - 1], gives)
  }

  function OrElse<T>(given: Option<T>, before: T): T {
    if given.Some? then given.value else before
  }

  lemma {:induction false} NewestAppend<T>(events: seq<Event>, ev: Event, gives: Event -> Option<T>)
    ensures Newest(events + [ev], gives) == if gives(ev).Some? then gives(ev) else Newest(events, gives)
  {
    assert (events + [ev])[..|events|] == events;
  }

  /** A Task event gives everything, a status event its state and whatever else it fills in. */
  function GivesState(ev: Event): Option<TaskState> {
    if ev.TaskEvent? then Some(ev.task.state) else if ev.StatusEvent? then Some(ev.status.state) else None
  }

  function GivesMessage(ev: Event): Option<Option<Message>> {
    if ev.TaskEvent? then Some(ev.task.statusMessage)
    else if ev.StatusEvent? && ev.status.message.Some? then Some(ev.status.message)
    else None
  }

  function GivesID(ev: Event): Option<string> {
    if ev.TaskEvent? then Some(ev.task.id)
    else if ev.StatusEvent? && ev.status.taskID != "" then Some(ev.status.taskID)
    else if ev.ArtifactEvent? && ev.update.taskID != "" then Some(ev.update.taskID)
    else None
  }

  function GivesContext(ev: Event): Option<string> {
    if ev.TaskEvent? then Some(ev.task.contextID)
    else if ev.StatusEvent? && ev.status.contextID != "" then Some(ev.status.contextID)
    else if ev.ArtifactEvent? && ev.update.contextID != "" then Some(ev.update.contextID)
    else None
  }

  function Under(metadata: map<string, string>, key: string): Option<string> {
    if key in metadata then Some(metadata[key]) else None
  }

  function GivesKey(key: string): Event -> Option<string> {
    (ev: Event) =>
      if ev.TaskEvent? then Under(ev.task.metadata, key)
      else if ev.StatusEvent? then Under(ev.status.metadata, key)
      else None
  }

  /** The artifacts of all Task events and artifact updates, in order. */
  function ArtifactsOf(events: seq<Event>): seq<string> {
    if events == [] then []
    else
      var ev := events[|events| - 1];
      ArtifactsOf(events[..|events| - 1]) +
      if ev.TaskEvent? then ev.task.artifacts else if ev.ArtifactEvent? then [ev.update.artifact] else []
  }

  lemma {:induction false} ArtifactsAppend(events: seq<Event>, ev: Event)
    ensures ArtifactsOf(events + [ev]) == ArtifactsOf(events) +
              if ev.TaskEvent? then ev.task.artifacts else if ev.ArtifactEvent? then [ev.update.artifact] else []
  {
    assert (events + [ev])[..|events|] == events;
  }

  /** A merge that, whenever it accepts an update, appends its artifact and changes nothing else. */
  ghost predicate Appends(apply: ApplyArtifact) {
    forall t: Task, u: ArtifactUpdate :: apply(t, u).Some? ==>
      apply(t, u).value == t.(artifacts := t.artifacts + [u.artifact])
  }

  /** A merge that refuses updates of another task only. */
  ghost predicate AcceptsOwn(apply: ApplyArtifact) {
    forall t: Task, u: ArtifactUpdate :: t.id == u.taskID && t.contextID == u.contextID ==> apply(t, u).Some?
  }

  /** `t` is what `events` make of `before`, with regard to metadata key `key`. */
  ghost predicate SaysAll(before: Task, events: seq<Event>, t: Task, key: string) {
    && t.artifacts == before.artifacts + ArtifactsOf(events)
    && t.state == OrElse(Newest(events, GivesState), before.state)
    && t.statusMessage == OrElse(Newest(events, GivesMessage), before.statusMessage)
    && t.id == OrElse(Newest(events, GivesID), before.id)
    && t.contextID == OrElse(Newest(events, GivesContext), before.contextID)
    && Under(t.metadata, key) ==
       (if Newest(events, GivesKey(key)).Some? then Newest(events, GivesKey(key)) else Under(before.metadata, key))
  }

  lemma {:induction false} NextSaysAll(stored: Option<Task>, apply: ApplyArtifact, before: Task, init: seq<Event>,
                                       ev: Event, f: Fold, key: string)
    requires SaysAll(before, init, SeedTask(stored, f.data.task), key)
    requires Next(stored, apply, f, ev).1.None? && (ev.ArtifactEvent? ==> Appends(apply))
    ensures SaysAll(before, init + [ev], SeedTask(stored, Next(stored, apply, f, ev).0.data.task), key)
  {
    hide Newest, ArtifactsOf;
    NewestAppend(init, ev, GivesState);
    NewestAppend(init, ev, GivesMessage);
    NewestAppend(init, ev, GivesID);
    NewestAppend(init, ev, GivesContext);
    NewestAppend(init, ev, GivesKey(key));
    ArtifactsAppend(init, ev);
  }

  lemma {:induction false} HandSaysAll(stored: Option<Task>, apply: ApplyArtifact, events: seq<Event>, key: string)
    requires FoldAll(stored, apply, events).1.None?
    requires Appends(apply) || forall ev :: ev in events ==> !ev.ArtifactEvent?
    ensures SaysAll(SeedTask(stored, None), events, SeedTask(stored, FoldAll(stored, apply, events).0.data.task), key)
  {
    hide Next, SaysAll, Appends;
    if events == [] {
      NothingSaid(stored, key);
    } else {
      var init, ev := events[..|events| - 1], events[|events| - 1];
      HandSaysAll(stored, apply, init, key);
      NextSaysAll(stored, apply, SeedTask(stored, None), init, ev, FoldAll(stored, apply, init).0, key);
      assert init + [ev] == events;
    }
  }

  lemma {:induction false} NothingSaid(stored: Option<Task>, key: string)
    ensures SaysAll(SeedTask(stored, None), [], SeedTask(stored, None), key)
  {
  }

  /**
   * The Task handed back: the stored artifacts followed by those of every Task and artifact update, in order; and the
   * state, status message, ids and value under each metadata key that the newest event giving one gives, else the stored
   * task's. Of the library's merge nothing need be known when there is no artifact update.
   */
  lemma {:induction false} FoldedTaskSaysAll(stored: Option<Task>, apply: ApplyArtifact, events: seq<Event>,
                                             key: string)
    requires Execute(stored, apply, events).Folded?
    requires Appends(apply) || forall ev :: ev in events ==> !ev.ArtifactEvent?
    ensures var d := Execute(stored, apply, events).data;
            d.task.Some? ==>
              var before := if stored.Some? then stored.value else Task("", "", StateUnspecified, None, [], map[]);
              SaysAll(before, events, d.task.value, key)
  {
    hide Next, SaysAll, FoldAll, Appends;
    HandSaysAll(stored, apply, events, key);
  }

  /** What is handed back on the way is the data folded so far, at each event that reports more work to come. */
  lemma {:induction false} FlushedSoFar(stored: Option<Task>, apply: ApplyArtifact, events: seq<Event>, n: nat)
    requires FoldAll(stored, apply, events).1.None? && n < |events|
    requires GivesState(events[n]).Some? && GivesState(events[n]).value in {Submitted, Working}
    ensures var at := Continuations(events[..n]);
            && at < |FoldAll(stored, apply, events).0.flushed|
            && FoldAll(stored, apply, events[..n + 1]).1.None?
            && FoldAll(stored, apply, events).0.flushed[at] == FoldAll(stored, apply, events[..n + 1]).0.data
  {
    var init := events[..|events| - 1];
    EveryContinuationIsFlushed(stored, apply, init);
    if n == |events| - 1 {
      assert events[..n + 1] == events;
    } else {
      assert init[..n] == events[..n] && init[..n + 1] == events[..n + 1];
      FlushedSoFar(stored, apply, init, n);
    }
  }

  /** An update that names no task is one of the task in hand: a merge that takes those refuses no orderly sequence. */
  lemma {:induction false} OwnUpdatesAreTaken(stored: Option<Task>, apply: ApplyArtifact, events: seq<Event>)
    requires InOrder(stored, events) && AcceptsOwn(apply)
    ensures FoldAll(stored, apply, events).1.None?
  {
    hide InOrder;
    if events != [] {
      var init, ev := events[..|events| - 1], events[|events| - 1];
      assert events == init + [ev];
      OrderlyPrefix(stored, init, ev);
      OwnUpdatesAreTaken(stored, apply, init);
      OrderlyIsAccepted(stored, apply, events);
    }
  }
}
