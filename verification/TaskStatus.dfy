/**
 * The task's status row beside the ownership of its session: the drivers' status writes and a cancellation, over any
 * number of replicas, one step per SQL statement.
 */
module TaskStatus {
  import opened Hop
  import opened Ownership
  import opened Claims

  /** Where a driver's recordTaskStatus stands: past its check of the session, or past its read of the row's version. */
  datatype Writer = Checked(next: TaskState) | Read(next: TaskState, version: nat)

  /**
   * `own` is the session and everybody's place in it, `status` the task's row, if there is one, `writers` the drivers in
   * the middle of recording a reply, `seen` the version each cancellation has read.
   */
  datatype Life = Life(
    own: State, status: Option<TaskState>, version: nat, writers: map<nat, Writer>, seen: map<nat, nat>)

  const NEWBORN := Life(START, None, 0, map[], map[])

  datatype Event =
    | Own(l: Label)
    // a driver's check passes, and it has an own reply to record; then its read and its write
    | Record(g: nat, next: TaskState) | ReadRow(g: nat) | WriteRow(g: nat)
    // or one of these fails
    | GiveUp(g: nat)

  /** A task that its client may still continue or cancel. */
  predicate IsOpen(s: Life) {
    s.status.Some? && !s.status.value.Terminal()
  }

  /** Ownership moves on; a goroutine that is gone writes no more. */
  function Moved(s: Life, own: State): Life {
    s.(own := own, writers := map g | g in s.writers && g in own.threads :: s.writers[g])
  }

  function Forget(s: Life, g: nat): Life {
    s.(writers := s.writers - {g})
  }

  predicate AtCancel(s: Life, g: nat) {
    g in s.own.threads && s.own.threads[g].pc.Cancelling?
  }

  /** CancelTaskAndSession: on the version the cancellation has read, task and session together, or neither. */
  function Cancel(s: Life, g: nat): Life {
    if g in s.seen && s.seen[g] == s.version then
      Moved(s, Take(s.own, Go(g, Succeeds))).(status := Some(Canceled), version := s.version + 1)
    else Moved(s, Take(s.own, Go(g, Fails)))
  }

  /** A continuation and a cancellation are admitted while the task is open. */
  function OwnStep(s: Life, l: Label): Life {
    match l
    case Begin(g, _, op) =>
      if (op.ContinueTask? || op.CancelTask?) && !IsOpen(s) then s
      else
        var s' := Moved(s, Take(s.own, l));
        if op.CancelTask? && g !in s.own.threads then s'.(seen := s.seen[g := s.version]) else s'
    case Go(g, how) =>
      if g in s.writers then s
      else if AtCancel(s, g) && how == Succeeds then Cancel(s, g)
      else Moved(s, Take(s.own, l))
    case _ => Moved(s, Take(s.own, l))
  }

  /** recordTaskStatus lets every session state pass but TERMINATING. */
  predicate MayRecord(s: Life, g: nat) {
    && g in s.own.threads && s.own.threads[g].pc.Checking? && g !in s.writers
    && s.own.row.Some? && s.own.row.value.state != Terminating
  }

  /** The guarded write; version 0 stands for a row that is yet to be inserted. */
  function Write(s: Life, g: nat): Life
    requires g in s.writers && s.writers[g].Read?
  {
    var w := s.writers[g];
    if w.version == s.version then Forget(s, g).(status := Some(w.next), version := s.version + 1)
    else Moved(Forget(s, g), Take(s.own, Go(g, Fails)))
  }

  function Step(s: Life, e: Event): Life {
    match e
    case Own(l) => OwnStep(s, l)
    case Record(g, next) =>
      if MayRecord(s, g) then
        var s' := Moved(s, Take(s.own, Go(g, Succeeds)));
        s'.(writers := s'.writers[g := Checked(next)])
      else s
    case ReadRow(g) =>
      if g in s.writers && s.writers[g].Checked?
      then s.(writers := s.writers[g := Read(s.writers[g].next, s.version)]) else s
    case WriteRow(g) => if g in s.writers && s.writers[g].Read? then Write(s, g) else s
    case GiveUp(g) => if g in s.writers then Moved(Forget(s, g), Take(s.own, Go(g, Fails))) else s
  }

  function After(s: Life, events: seq<Event>): Life {
    if events == [] then s else Step(After(s, events[..|events| - 1]), events[|events| - 1])
  }

  /** No startup resume of a row its own process owns. */
  predicate Plain(e: Event) {
    e.Own? ==> NoRestamp(e.l)
  }

  ghost predicate AllPlain(events: seq<Event>) {
    forall e :: e in events ==> Plain(e)
  }

  // ---------- the invariant ----------

  ghost predicate Valid(s: Life) {
    && Sound(s.own)
    && forall g :: g in s.writers ==>
         && g in s.own.threads && s.own.threads[g].pc.Ready?
         && (s.writers[g].Read? ==> s.writers[g].version <= s.version)
  }

  lemma {:induction false} NewbornIsValid()
    ensures Valid(NEWBORN)
  {
    StartIsSound();
  }

  /** One step of ownership that moves no writer. */
  lemma {:induction false} MovedKeeps(s: Life, l: Label)
    requires Valid(s) && NoRestamp(l) && (l.Go? ==> l.g !in s.writers)
    ensures Valid(Moved(s, Take(s.own, l)))
  {
    hide Sound, DoGo, DoBegin, DoBoot, DoDie;
    StepKeepsSound(s.own, l);
    match l
    case Go(g, how) => OthersUntouched(s.own, g, how);
    case Boot(uid, pod) => BootChanges(s.own, uid, pod);
    case Die(uid) => DieChanges(s.own, uid);
    case Begin(g, uid, op) => BeginChanges(s.own, g, uid, op);
  }

  lemma {:induction false} BeginChanges(s: State, g: nat, uid: string, op: Op)
    ensures var s' := DoBegin(s, g, uid, op);
            && s'.row == s.row && s'.alive == s.alive && s'.registry == s.registry && s'.pods == s.pods
            && (s' == s || (g !in s.threads && s'.threads == s.threads[g := s'.threads[g]]))
  {
  }

  /** A check that passes moves its goroutine on, and nothing else. */
  lemma {:induction false} CheckPasses(s: State, g: nat)
    requires Inv(s) && g in s.threads && s.threads[g].pc.Checking? && s.row.Some? && s.row.value.state != Terminating
    ensures Take(s, Go(g, Succeeds)) == At(s, g, Ready)
  {
    ThreadFacts(s, g);
  }

  lemma {:induction false} StepKeepsValid(s: Life, e: Event)
    requires Valid(s) && Plain(e)
    ensures Valid(Step(s, e))
  {
    hide Sound, Take;
    match e
    case Own(l) =>
      if l.Go? && AtCancel(s, l.g) && l.g !in s.writers {
        MovedKeeps(s, Go(l.g, Succeeds));
        MovedKeeps(s, Go(l.g, Fails));
      }
      if l.Go? ==> l.g !in s.writers {
        MovedKeeps(s, l);
      }
    case Record(g, next) =>
      if MayRecord(s, g) {
        MovedKeeps(s, Go(g, Succeeds));
        SoundIsInv(s.own);
        CheckPasses(s.own, g);
      }
    case ReadRow(g) =>
    case WriteRow(g) => MovedKeeps(Forget(s, g), Go(g, Fails));
    case GiveUp(g) => MovedKeeps(Forget(s, g), Go(g, Fails));
  }

  lemma {:induction false} SoundIsInv(s: State)
    requires Sound(s)
    ensures Inv(s) && LifeInv(s) && OwnersHold(s) && AdoptionsInTime(s)
  {
  }

  lemma {:induction false} AfterIsValid(s: Life, events: seq<Event>)
    requires Valid(s) && AllPlain(events)
    ensures Valid(After(s, events))
  {
    hide Valid, Step;
    if events != [] {
      AfterIsValid(s, events[..|events| - 1]);
      StepKeepsValid(After(s, events[..|events| - 1]), events[|events| - 1]);
    }
  }

  // ---------- who may still overwrite a cancellation ----------

  /** TERMINATED, and owned by a process that died before it released the row: nobody can claim it any more. */
  predicate Stranded(s: State) {
    Over(s) && s.row.value.uid != "" && s.row.value.uid !in s.alive
  }

  /** With the claim in hand and hops still to start or to record. */
  predicate MayHop(pc: PC) {
    pc.Acquiring? || pc.Ready? || pc.InHop? || pc.Checking?
  }

  /**
   * Past its check with another status to write; or an admitted continuation that can still claim; or, in a session that
   * is TERMINATED already, any driver that still hops, unless the version it has read makes it fail.
   */
  predicate Overwriter(s: Life, g: nat)
    requires g in s.own.threads
  {
    var pc := s.own.threads[g].pc;
    || (g in s.writers && s.writers[g].Checked? && s.writers[g].next != Canceled)
    || (pc.ClaimingToContinue? && !Stranded(s.own))
    || (Over(s.own) && MayHop(pc) && !(g in s.writers && s.writers[g].Read?))
  }

  ghost predicate NoOverwriter(s: Life) {
    forall g :: g in s.own.threads ==> !Overwriter(s, g)
  }

  ghost predicate StaysCanceled(s: Life) {
    forall events :: AllPlain(events) ==> After(s, events).status == Some(Canceled)
  }

  /** Nobody is left who could write anything else. */
  ghost predicate Settled(s: Life) {
    && s.status == Some(Canceled)
    && s.own.row.Some? && s.own.row.value.state != Running
    && NoOverwriter(s)
    && forall g :: g in s.writers && s.writers[g].Read? ==>
         s.writers[g].version < s.version || (s.writers[g].next == Canceled && !Over(s.own))
  }

  /** What a goroutine's own step can make of it once the session is no longer RUNNING. */
  ghost predicate StepHops(s: State, s': State, g: nat)
    requires g in s.threads && s.row.Some?
  {
    && s'.row.Some? && s'.row.value.state != Running
    && (Stranded(s) ==> Stranded(s'))
    && (Over(s') && !Over(s) ==> Holds(s.threads[g].pc) && !MayHop(s.threads[g].pc))
    && (g in s'.threads ==>
          && !s'.threads[g].pc.ClaimingToContinue?
          && (Over(s') && MayHop(s'.threads[g].pc) ==>
                Over(s) && (MayHop(s.threads[g].pc) || (s.threads[g].pc.ClaimingToContinue? && !Stranded(s)))))
  }

  lemma {:induction false} ClaimHops(s: State, g: nat, how: How)
    requires Inv(s) && g in s.threads && ThreadOK(s, g) && NotOverFor(s, s.threads[g].pc)
    requires s.row.Some? && s.row.value.state != Running
    requires !Holds(s.threads[g].pc) && !s.threads[g].pc.Released?
    ensures StepHops(s, DoClaim(s, g, how), g)
  {
  }

  lemma {:induction false} HoldHops(s: State, g: nat, how: How)
    requires Inv(s) && g in s.threads && ThreadOK(s, g) && NotOverFor(s, s.threads[g].pc)
    requires s.row.Some? && s.row.value.state != Running
    requires Holds(s.threads[g].pc) || s.threads[g].pc.Released?
    ensures StepHops(s, DoHold(s, g, how), g)
  {
    hide DoHold, StepHops, ThreadOK, NotOverFor;
    if Registered(s.threads[g].pc) {
      DriveHops(s, g, how);
    } else {
      EntryHops(s, g, how);
    }
  }

  lemma {:induction false} DriveHops(s: State, g: nat, how: How)
    requires g in s.threads && ThreadOK(s, g) && Registered(s.threads[g].pc) && RowOK(s) && PodsOK(s)
    requires s.row.Some? && s.row.value.state != Running
    ensures StepHops(s, DoHold(s, g, how), g)
  {
  }

  lemma {:induction false} EntryHops(s: State, g: nat, how: How)
    requires g in s.threads && ThreadOK(s, g) && NotOverFor(s, s.threads[g].pc) && RowOK(s) && PodsOK(s)
    requires s.row.Some? && s.row.value.state != Running && Holds(s.threads[g].pc) && !Registered(s.threads[g].pc)
    ensures StepHops(s, DoHold(s, g, how), g)
  {
  }

  lemma {:induction false} GoHops(s: State, g: nat, how: How)
    requires Sound(s) && g in s.threads && s.row.Some? && s.row.value.state != Running
    ensures StepHops(s, DoGo(s, g, how), g)
  {
    SoundIsInv(s);
    ThreadFacts(s, g);
    assert NotOverFor(s, s.threads[g].pc);
    if Holds(s.threads[g].pc) || s.threads[g].pc.Released? {
      HoldHops(s, g, how);
    } else {
      ClaimHops(s, g, how);
    }
  }

  /** Other goroutines are no more dangerous after `g`'s step than before it. */
  lemma {:induction false} OthersSettled(s: Life, own: State, g: nat, h: nat)
    requires Valid(s) && Settled(s) && g in s.own.threads && StepHops(s.own, own, g) && Untouched(s.own, own, g)
    requires h in own.threads && h != g
    ensures !Overwriter(Moved(Forget(s, g), own), h)
  {
    hide LifeInv, OwnersHold, AdoptionsInTime;
    assert !Overwriter(s, h);
    if Over(own) && !Over(s.own) && MayHop(own.threads[h].pc) {
      HolderOwns(s.own, g);
    }
  }

  lemma {:induction false} GoSettles(s: Life, g: nat, how: How)
    requires Valid(s) && Settled(s) && (g in s.writers ==> how == Fails)
    ensures Settled(Moved(Forget(s, g), Take(s.own, Go(g, how))))
  {
    hide Valid, Sound, DoGo, StepHops, Untouched;
    var own := DoGo(s.own, g, how);
    var s' := Moved(Forget(s, g), own);
    if g in s.own.threads {
      assert Sound(s.own) by {
        ValidIsSound(s);
      }
      GoHops(s.own, g, how);
      OthersUntouched(s.own, g, how);
      forall h | h in own.threads ensures !Overwriter(s', h) {
        if h != g {
          OthersSettled(s, own, g, h);
        } else {
          OwnSettled(s, own, g, how);
        }
      }
      StillOver(s, own, g);
    } else {
      NobodyGoes(s.own, g, how);
      forall h | h in own.threads ensures !Overwriter(s', h) {
        assert !Overwriter(s, h);
      }
    }
  }

  lemma {:induction false} ValidIsSound(s: Life)
    requires Valid(s)
    ensures Sound(s.own)
    ensures forall g :: g in s.writers ==> g in s.own.threads && s.own.threads[g].pc.Ready?
  {
  }

  lemma {:induction false} StillOver(s: Life, own: State, g: nat)
    requires Valid(s) && Settled(s) && g in s.own.threads && StepHops(s.own, own, g) && Untouched(s.own, own, g)
    ensures own.row.Some? && own.row.value.state != Running
    ensures var s' := Moved(Forget(s, g), own);
            forall h :: h in s'.writers && s'.writers[h].Read? ==>
              s'.writers[h].version < s'.version || (s'.writers[h].next == Canceled && !Over(own))
  {
    hide LifeInv, OwnersHold, AdoptionsInTime;
    var s' := Moved(Forget(s, g), own);
    forall h | h in s'.writers && s'.writers[h].Read?
      ensures s'.writers[h].version < s'.version || (s'.writers[h].next == Canceled && !Over(own))
    {
      if Over(own) && !Over(s.own) {
        HolderOwns(s.own, g);
      }
    }
  }

  lemma {:induction false} OwnSettled(s: Life, own: State, g: nat, how: How)
    requires Valid(s) && Settled(s) && g in s.own.threads && (g in s.writers ==> how == Fails)
    requires own == DoGo(s.own, g, how) && StepHops(s.own, own, g) && g in own.threads
    ensures !Overwriter(Moved(Forget(s, g), own), g)
  {
    hide DoGo, LifeInv, OwnersHold, AdoptionsInTime, Inv;
    assert !Overwriter(s, g);
    if g in s.writers {
      SoundIsInv(s.own);
      ReadyFails(s.own, g);
    }
  }

  lemma {:induction false} ReadyFails(s: State, g: nat)
    requires Inv(s) && g in s.threads && s.threads[g].pc.Ready?
    ensures DoGo(s, g, Fails) == At(s, g, Releasing)
  {
    ThreadFacts(s, g);
  }

  /** Processes that start or die, and goroutines that begin. */
  lemma {:induction false} NewcomersSettle(s: Life, l: Label)
    requires Valid(s) && Settled(s) && NoRestamp(l) && !l.Go?
    requires l.Begin? ==> !l.op.ContinueTask?
    ensures Settled(Moved(s, Take(s.own, l)))
  {
    hide LifeInv, OwnersHold, AdoptionsInTime;
    var s' := Moved(s, Take(s.own, l));
    forall h | h in s'.own.threads ensures !Overwriter(s', h) {
      if h in s.own.threads {
        assert !Overwriter(s, h);
      }
    }
  }

  lemma {:induction false} StepSettles(s: Life, e: Event)
    requires Valid(s) && Settled(s) && Plain(e)
    ensures Settled(Step(s, e))
  {
    hide Valid, Take, Settled;
    match e
    case Own(l) => OwnStepSettles(s, l);
    case Record(g, next) => NoRecord(s, g);
    case ReadRow(g) => ReadSettles(s, g);
    case WriteRow(g) =>
      if g in s.writers && s.writers[g].Read? {
        GoSettles(s, g, Fails);
        WriteSettles(s, g);
      }
    case GiveUp(g) =>
      if g in s.writers {
        GoSettles(s, g, Fails);
      }
  }

  lemma {:induction false} OwnStepSettles(s: Life, l: Label)
    requires Valid(s) && Settled(s) && NoRestamp(l)
    ensures Settled(OwnStep(s, l))
  {
    hide Valid, Take, NoOverwriter;
    match l
    case Go(g, how) =>
      if g !in s.writers {
        assert Forget(s, g) == s;
        GoSettles(s, g, how);
        GoSettles(s, g, Fails);
        if AtCancel(s, g) {
          CancelSettles(s, g);
        }
      }
    case Begin(_, _, op) =>
      if !op.ContinueTask? && !op.CancelTask? {
        NewcomersSettle(s, l);
      }
    case Boot(_, _) => NewcomersSettle(s, l);
    case Die(_) => NewcomersSettle(s, l);
  }

  lemma {:induction false} CancelSettles(s: Life, g: nat)
    requires Valid(s) && Settled(s) && AtCancel(s, g) && g !in s.writers
    ensures Settled(Cancel(s, g))
  {
    hide Valid, Take, DoGo;
    assert Forget(s, g) == s;
    GoSettles(s, g, Succeeds);
    GoSettles(s, g, Fails);
    if g in s.seen && s.seen[g] == s.version {
      var s' := Moved(s, Take(s.own, Go(g, Succeeds)));
      forall h | h in s'.own.threads ensures !Overwriter(Cancel(s, g), h) {
        assert !Overwriter(s', h);
      }
    }
  }

  lemma {:induction false} NoRecord(s: Life, g: nat)
    requires Settled(s)
    ensures !MayRecord(s, g)
  {
    assert g in s.own.threads ==> !Overwriter(s, g);
  }

  lemma {:induction false} ReadSettles(s: Life, g: nat)
    requires Valid(s) && Settled(s)
    ensures Settled(Step(s, ReadRow(g)))
  {
    hide Sound;
    var s' := Step(s, ReadRow(g));
    forall h | h in s'.own.threads ensures !Overwriter(s', h) {
      assert !Overwriter(s, h);
    }
    if g in s.writers {
      assert !Overwriter(s, g);
    }
  }

  lemma {:induction false} WriteSettles(s: Life, g: nat)
    requires Valid(s) && Settled(s) && g in s.writers && s.writers[g].Read?
    requires Settled(Moved(Forget(s, g), Take(s.own, Go(g, Fails))))
    ensures Settled(Write(s, g))
  {
    hide Sound, Take;
    var s' := Write(s, g);
    if s.writers[g].version == s.version {
      forall h | h in s'.own.threads ensures !Overwriter(s', h) {
        assert !Overwriter(s, h);
      }
    }
  }

  lemma {:induction false} SettledStays(s: Life, events: seq<Event>)
    requires Valid(s) && Settled(s) && AllPlain(events)
    ensures Settled(After(s, events))
  {
    hide Valid, Settled, Step;
    if events != [] {
      var init := events[..|events| - 1];
      SettledStays(s, init);
      AfterIsValid(s, init);
      StepSettles(After(s, init), events[|events| - 1]);
    }
  }
}
