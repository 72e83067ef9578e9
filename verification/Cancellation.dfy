/** A cancellation against everybody else at work on its task: exactly when it stays, and the runs that overwrite it. */
module Cancellation {
  import opened Hop
  import opened Ownership
  import opened Claims
  import opened OwnershipLimits
  import Restamp
  import opened TaskStatus

  /** Some run from here on writes another status. */
  ghost predicate Lost(s: Life) {
    !StaysCanceled(s)
  }

  lemma {:induction false} AfterHead(s: Life, e: Event, events: seq<Event>)
    ensures After(s, [e] + events) == After(Step(s, e), events)
  {
    hide Step;
    if events == [] {
      assert [e][..0] == [] && [e] + events == [e];
      assert After(s, []) == s;
    } else {
      AfterHead(s, e, events[..|events| - 1]);
      assert ([e] + events)[..|events|] == [e] + events[..|events| - 1];
    }
  }

  lemma {:induction false} LeadsTo(s: Life, e: Event)
    requires Plain(e) && Lost(Step(s, e))
    ensures Lost(s)
  {
    hide Step, After;
    var events :| AllPlain(events) && After(Step(s, e), events).status != Some(Canceled);
    AfterHead(s, e, events);
    assert AllPlain([e] + events);
  }

  lemma {:induction false} LostNow(s: Life)
    requires s.status != Some(Canceled)
    ensures Lost(s)
  {
    assert After(s, []) == s && AllPlain([]);
  }

  // ---------- single steps ----------

  lemma {:induction false} SameWriters(s: Life, own: State)
    requires Valid(s) && s.writers.Keys <= own.threads.Keys
    ensures Moved(s, own) == s.(own := own)
  {
  }

  /** A step of ownership that leaves all writers at work. */
  lemma {:induction false} OwnGo(s: Life, g: nat, how: How)
    requires Valid(s) && g !in s.writers && !(AtCancel(s, g) && how == Succeeds)
    requires s.writers.Keys <= Take(s.own, Go(g, how)).threads.Keys
    ensures Step(s, Own(Go(g, how))) == s.(own := Take(s.own, Go(g, how)))
    ensures Valid(s.(own := Take(s.own, Go(g, how))))
  {
    hide Sound, Take;
    SameWriters(s, Take(s.own, Go(g, how)));
    StepKeepsValid(s, Own(Go(g, how)));
  }

  /** `g` moved on to `pc`, the row's owner and state being `row`. */
  function Put(s: Life, g: nat, row: Row, pc: PC): Life
    requires g in s.own.threads
  {
    s.(own := At(s.own.(row := Some(row)), g, pc))
  }

  /** If `g`'s next step is known, what it leads to decides. */
  lemma {:induction false} PutLost(s: Life, g: nat, how: How, row: Row, pc: PC)
    requires Valid(s) && g in s.own.threads && g !in s.writers && !s.own.threads[g].pc.Cancelling?
    requires Take(s.own, Go(g, how)) == At(s.own.(row := Some(row)), g, pc)
    ensures Valid(Put(s, g, row, pc))
    ensures Lost(Put(s, g, row, pc)) ==> Lost(s)
  {
    hide Sound, Take, Lost, Step;
    ValidIsSound(s);
    assert s.writers.Keys <= At(s.own.(row := Some(row)), g, pc).threads.Keys;
    OwnGo(s, g, how);
    if Lost(Put(s, g, row, pc)) {
      LeadsTo(s, Own(Go(g, how)));
    }
  }

  // ---------- a driver that still hops ----------

  lemma {:induction false} CheckedIsLost(s: Life, g: nat)
    requires g in s.writers && s.writers[g].Checked? && s.writers[g].next != Canceled
    ensures Lost(s)
  {
    hide Lost;
    var s1 := Step(s, ReadRow(g));
    var s2 := Step(s1, WriteRow(g));
    LostNow(s2);
    LeadsTo(s1, WriteRow(g));
    LeadsTo(s, ReadRow(g));
  }

  lemma {:induction false} CheckingIsLost(s: Life, g: nat)
    requires Valid(s) && Over(s.own) && g in s.own.threads && s.own.threads[g].pc.Checking?
    ensures Lost(s)
  {
    hide Lost, Sound, Take;
    ValidIsSound(s);
    SoundIsInv(s.own);
    CheckPasses(s.own, g);
    var s1 := Step(s, Record(g, Working));
    CheckedIsLost(s1, g);
    LeadsTo(s, Record(g, Working));
  }

  lemma {:induction false} HopTakes(s: State, g: nat)
    requires Inv(s) && g in s.threads && s.row.Some? && s.threads[g].uid in s.pods
    ensures s.threads[g].pc.InHop? ==> Take(s, Go(g, Succeeds)) == At(s.(row := Some(s.row.value)), g, Checking)
    ensures s.threads[g].pc.Ready? ==> Take(s, Go(g, Succeeds)) == StartHop(s, g)
  {
  }

  lemma {:induction false} InHopIsLost(s: Life, g: nat)
    requires Valid(s) && Over(s.own) && g in s.own.threads && s.own.threads[g].pc.InHop?
    ensures Lost(s)
  {
    hide Lost, Sound, Take;
    ValidIsSound(s);
    SoundIsInv(s.own);
    ThreadFacts(s.own, g);
    HopTakes(s.own, g);
    PutLost(s, g, Succeeds, s.own.row.value, Checking);
    CheckingIsLost(Put(s, g, s.own.row.value, Checking), g);
  }

  lemma {:induction false} ReadyIsLost(s: Life, g: nat)
    requires Valid(s) && Over(s.own) && g in s.own.threads && s.own.threads[g].pc.Ready? && g !in s.writers
    ensures Lost(s)
  {
    hide Lost, Sound, Take, Step;
    ValidIsSound(s);
    SoundIsInv(s.own);
    ThreadFacts(s.own, g);
    HopTakes(s.own, g);
    OwnGo(s, g, Succeeds);
    InHopIsLost(s.(own := StartHop(s.own, g)), g);
    LeadsTo(s, Own(Go(g, Succeeds)));
  }

  /** Even one that is about to write Canceled goes on to its next hop. */
  lemma {:induction false} WritesCanceledIsLost(s: Life, g: nat)
    requires Valid(s) && Over(s.own) && g in s.writers && s.writers[g].Checked?
    ensures Lost(s)
  {
    hide Lost, Sound, Take;
    var s1 := Step(s, ReadRow(g));
    StepKeepsValid(s, ReadRow(g));
    var s2 := Step(s1, WriteRow(g));
    StepKeepsValid(s1, WriteRow(g));
    ReadyIsLost(s2, g);
    LeadsTo(s1, WriteRow(g));
    LeadsTo(s, ReadRow(g));
  }

  // ---------- entering the registry ----------

  /** If `g`'s next step loses no writer, what it leads to decides. */
  lemma {:induction false} GoLost(s: Life, g: nat, how: How, own: State)
    requires Valid(s) && g !in s.writers && !(AtCancel(s, g) && how == Succeeds)
    requires own == Take(s.own, Go(g, how)) && s.writers.Keys <= own.threads.Keys
    ensures Valid(s.(own := own))
    ensures Lost(s.(own := own)) ==> Lost(s)
  {
    hide Sound, Take, Lost, Step;
    OwnGo(s, g, how);
    if Lost(s.(own := own)) {
      LeadsTo(s, Own(Go(g, how)));
    }
  }

  lemma {:induction false} ReleasedLeaves(s: State, x: nat)
    requires Inv(s) && x in s.threads && s.threads[x].pc.Released?
    ensures Take(s, Go(x, Succeeds)) == Gone(s.(registry := s.registry - {s.threads[x].uid}), x)
  {
    ThreadFacts(s, x);
  }

  /** Whoever blocks `h`'s registry entry has released the row already, and leaves. */
  lemma {:induction false} BlockerIsReleased(s: State, h: nat)
    requires Inv(s) && h in s.threads && Holds(s.threads[h].pc) && !Registered(s.threads[h].pc)
    requires s.threads[h].uid in s.registry
    ensures var x := s.registry[s.threads[h].uid];
            x in s.threads && s.threads[x].pc.Released? && s.threads[x].uid == s.threads[h].uid && x != h
  {
  }

  /** The same, but with `h`'s registry entry free. */
  ghost predicate Freed(s: Life, s': Life, h: nat)
    requires h in s.own.threads
  {
    && Valid(s') && (Lost(s') ==> Lost(s))
    && s'.own.row == s.own.row && s'.own.alive == s.own.alive && s'.own.pods == s.own.pods && s'.writers == s.writers
    && s.own.threads[h].uid !in s'.own.registry
    && forall t :: t in s.own.threads && !s.own.threads[t].pc.Released? ==>
         t in s'.own.threads && s'.own.threads[t] == s.own.threads[t]
  }

  lemma {:induction false} FreeEntry(s: Life, h: nat) returns (s': Life)
    requires Valid(s) && h in s.own.threads && Holds(s.own.threads[h].pc) && !Registered(s.own.threads[h].pc)
    ensures Freed(s, s', h)
  {
    hide Lost, Sound, Take;
    ValidIsSound(s);
    SoundIsInv(s.own);
    var uid := s.own.threads[h].uid;
    s' := s;
    if uid in s.own.registry {
      var x := s.own.registry[uid];
      BlockerIsReleased(s.own, h);
      ReleasedLeaves(s.own, x);
      var own := Gone(s.own.(registry := s.own.registry - {uid}), x);
      GoLost(s, x, Succeeds, own);
      s' := s.(own := own);
    }
  }

  function EntersAs(pc: PC): PC {
    if pc.AwaitingRegistry? || (pc.Acquiring? && pc.origin.ByAdoption? && pc.origin.listed == Terminating)
    then Finishing(false) else Ready
  }

  lemma {:induction false} EntersFreely(s: State, h: nat)
    requires Inv(s) && h in s.threads && (s.threads[h].pc.Acquiring? || s.threads[h].pc.AwaitingRegistry?)
    requires s.threads[h].uid !in s.registry
    ensures Take(s, Go(h, Succeeds)) == Enter(s, h, EntersAs(s.threads[h].pc))
  {
    ThreadFacts(s, h);
  }

  /** The state in which `h`, having the claim in hand, has entered the registry. */
  ghost predicate Entered(s: Life, s': Life, h: nat)
    requires h in s.own.threads
  {
    && Valid(s') && (Lost(s') ==> Lost(s))
    && s'.own.row == s.own.row && s'.own.alive == s.own.alive && s'.own.pods == s.own.pods && s'.writers == s.writers
    && h in s'.own.threads && s'.own.threads[h].pc == EntersAs(s.own.threads[h].pc)
    && forall t :: t in s.own.threads && t != h && !s.own.threads[t].pc.Released? ==>
         t in s'.own.threads && s'.own.threads[t] == s.own.threads[t]
  }

  lemma {:induction false} EnterLost(s: Life, h: nat) returns (s': Life)
    requires Valid(s) && h in s.own.threads && (s.own.threads[h].pc.Acquiring? || s.own.threads[h].pc.AwaitingRegistry?)
    ensures Entered(s, s', h)
  {
    hide Lost, Sound, Take;
    var s1 := FreeEntry(s, h);
    ValidIsSound(s1);
    SoundIsInv(s1.own);
    EntersFreely(s1.own, h);
    var own := Enter(s1.own, h, EntersAs(s.own.threads[h].pc));
    GoLost(s1, h, Succeeds, own);
    s' := s1.(own := own);
  }

  /** A driver about to enter a session that is over hops as well. */
  lemma {:induction false} AcquiringIsLost(s: Life, g: nat)
    requires Valid(s) && Over(s.own) && g in s.own.threads && s.own.threads[g].pc.Acquiring?
    ensures Lost(s)
  {
    hide Lost, Sound, Take;
    ValidIsSound(s);
    SoundIsInv(s.own);
    assert NotOverFor(s.own, s.own.threads[g].pc);
    var s' := EnterLost(s, g);
    ReadyIsLost(s', g);
  }

  // ---------- a continuation that has been admitted ----------

  predicate Admitted(s: Life, k: nat) {
    k in s.own.threads && s.own.threads[k].pc.ClaimingToContinue?
  }

  lemma {:induction false} ContinuationClaims(s: State, k: nat)
    requires Inv(s) && k in s.threads && s.threads[k].pc.ClaimingToContinue? && s.row.Some? && s.row.value.pod == ""
    ensures var own := Take(s, Go(k, Succeeds));
            && own.threads.Keys == s.threads.Keys && own.threads[k].pc == Acquiring(ByContinue)
            && own.row.Some? && own.row.value.state == s.row.value.state
  {
    ThreadFacts(s, k);
  }

  /** It claims a session that is over and nobody's, and hops. */
  lemma {:induction false} FreeIsLost(s: Life, k: nat)
    requires Valid(s) && Admitted(s, k) && Over(s.own) && s.own.row.value.pod == ""
    ensures Lost(s)
  {
    hide Lost, Sound, Take;
    ValidIsSound(s);
    SoundIsInv(s.own);
    ContinuationClaims(s.own, k);
    var own := Take(s.own, Go(k, Succeeds));
    GoLost(s, k, Succeeds, own);
    AcquiringIsLost(s.(own := own), k);
  }

  /** Once the session is not RUNNING: it is over, or `c` is still to clean up after its cancellation. */
  predicate Ending(s: Life, k: nat, c: nat) {
    && Admitted(s, k) && s.own.row.Some? && s.own.row.value.state != Running
    && (Over(s.own) || (c in s.own.threads && s.own.threads[c].pc.ClaimingToCleanUp?))
  }

  lemma {:induction false} FinishingEnds(s: State, h: nat)
    requires Inv(s) && h in s.threads && s.threads[h].pc.Finishing? && s.row.Some?
    ensures Take(s, Go(h, Succeeds)) == At(s.(row := Some(TerminateSession(s.row.value))), h, Releasing)
  {
    ThreadFacts(s, h);
  }

  lemma {:induction false} ReleasingEnds(s: State, h: nat)
    requires Inv(s) && h in s.threads && s.threads[h].pc.Releasing? && s.row.Some?
    ensures Take(s, Go(h, Succeeds)) == At(s.(row := Some(ReleaseSession(s.row.value))), h, Released)
  {
    ThreadFacts(s, h);
  }

  lemma {:induction false} ReleasingIsLost(s: Life, k: nat, c: nat, h: nat)
    requires Valid(s) && Ending(s, k, c) && h in s.own.threads && s.own.threads[h].pc.Releasing?
    ensures Lost(s)
  {
    hide Lost, Sound, Take;
    ValidIsSound(s);
    SoundIsInv(s.own);
    ReleasingEnds(s.own, h);
    var row := ReleaseSession(s.own.row.value);
    PutLost(s, h, Succeeds, row, Released);
    UnownedIsLost(Put(s, h, row, Released), k, c);
  }

  lemma {:induction false} OverReleasingIsLost(s: Life, k: nat, h: nat)
    requires Valid(s) && Admitted(s, k) && Over(s.own) && h in s.own.threads && s.own.threads[h].pc.Releasing?
    ensures Lost(s)
  {
    hide Lost, Sound, Take;
    ValidIsSound(s);
    SoundIsInv(s.own);
    ReleasingEnds(s.own, h);
    var row := ReleaseSession(s.own.row.value);
    PutLost(s, h, Succeeds, row, Released);
    FreeIsLost(Put(s, h, row, Released), k);
  }

  lemma {:induction false} FinishingIsLost(s: Life, k: nat, h: nat)
    requires Valid(s) && Admitted(s, k) && s.own.row.Some? && h in s.own.threads && s.own.threads[h].pc.Finishing?
    ensures Lost(s)
  {
    hide Lost, Sound, Take;
    ValidIsSound(s);
    SoundIsInv(s.own);
    FinishingEnds(s.own, h);
    var row := TerminateSession(s.own.row.value);
    PutLost(s, h, Succeeds, row, Releasing);
    OverReleasingIsLost(Put(s, h, row, Releasing), k, h);
  }

  lemma {:induction false} AwaitingIsLost(s: Life, k: nat, h: nat)
    requires Valid(s) && Admitted(s, k) && s.own.row.Some? && h in s.own.threads
        && s.own.threads[h].pc.AwaitingRegistry?
    ensures Lost(s)
  {
    hide Lost, Sound;
    var s' := EnterLost(s, h);
    FinishingIsLost(s', k, h);
  }

  lemma {:induction false} CleanUpClaims(s: State, c: nat)
    requires Inv(s) && c in s.threads && s.threads[c].pc.ClaimingToCleanUp? && s.row.Some? && s.row.value.pod == ""
    ensures var own := Take(s, Go(c, Succeeds));
            && own.threads.Keys == s.threads.Keys && own.threads[c].pc == AwaitingRegistry && own.row.Some?
            && forall t :: t in s.threads && t != c ==> own.threads[t] == s.threads[t]
  {
    ThreadFacts(s, c);
  }

  /** Nobody's row: the continuation takes it, or the cancellation first, to end the session. */
  lemma {:induction false} UnownedIsLost(s: Life, k: nat, c: nat)
    requires Valid(s) && Ending(s, k, c) && s.own.row.value.pod == ""
    ensures Lost(s)
  {
    hide Lost, Sound, Take;
    if Over(s.own) {
      FreeIsLost(s, k);
    } else {
      ValidIsSound(s);
      SoundIsInv(s.own);
      CleanUpClaims(s.own, c);
      var own := Take(s.own, Go(c, Succeeds));
      GoLost(s, c, Succeeds, own);
      AwaitingIsLost(s.(own := own), k, c);
    }
  }

  // ---------- a dead owner ----------

  lemma {:induction false} AdoptionBegins(s: State, k: nat, x: nat)
    requires Inv(s) && k in s.threads && x !in s.threads && s.row.Some? && s.row.value.state == Terminating
    requires s.row.value.uid in s.pods && s.row.value.uid !in s.alive
    ensures var dead := s.row.value.uid;
            Take(s, Begin(x, s.threads[k].uid, Adopt(dead))) ==
            s.(threads := s.threads[x := Thread(s.threads[k].uid, Adopting(dead, Terminating), Terminating, 0)])
  {
    ThreadFacts(s, k);
  }

  lemma {:induction false} AdoptionClaims(s: State, x: nat, dead: string)
    requires Inv(s) && x in s.threads && s.threads[x].pc == Adopting(dead, Terminating) && s.row.Some?
    requires s.row.value.uid == dead
    ensures var own := Take(s, Go(x, Succeeds));
            && own.threads.Keys == s.threads.Keys && own.row.Some?
            && own.threads[x].pc == Acquiring(ByAdoption(dead, Terminating))
            && forall t :: t in s.threads && t != x ==> own.threads[t] == s.threads[t]
  {
    ThreadFacts(s, x);
  }

  /** A dead owner's session is adopted by the continuation's own process, to be ended. */
  lemma {:induction false} DeadOwnedIsLost(s: Life, k: nat)
    requires Valid(s) && Admitted(s, k) && s.own.row.Some? && s.own.row.value.state == Terminating
    requires s.own.row.value.uid in s.own.pods && s.own.row.value.uid !in s.own.alive
    ensures Lost(s)
  {
    hide Lost, Sound, Take;
    var dead, uid := s.own.row.value.uid, s.own.threads[k].uid;
    var x := Restamp.UnusedThread(s.own.threads);
    ValidIsSound(s);
    SoundIsInv(s.own);
    AdoptionBegins(s.own, k, x);
    var own := Take(s.own, Begin(x, uid, Adopt(dead)));
    SameWriters(s, own);
    StepKeepsValid(s, Own(Begin(x, uid, Adopt(dead))));
    var s1 := s.(own := own);
    assert Step(s, Own(Begin(x, uid, Adopt(dead)))) == s1;
    AdoptedIsLost(s1, k, x, dead);
    LeadsTo(s, Own(Begin(x, uid, Adopt(dead))));
  }

  lemma {:induction false} AdoptedIsLost(s: Life, k: nat, x: nat, dead: string)
    requires Valid(s) && Admitted(s, k) && s.own.row.Some? && s.own.row.value.uid == dead
    requires x in s.own.threads && s.own.threads[x].pc == Adopting(dead, Terminating)
    ensures Lost(s)
  {
    hide Lost, Sound, Take;
    ValidIsSound(s);
    SoundIsInv(s.own);
    AdoptionClaims(s.own, x, dead);
    var own := Take(s.own, Go(x, Succeeds));
    GoLost(s, x, Succeeds, own);
    var s' := EnterLost(s.(own := own), x);
    FinishingIsLost(s', k, x);
  }

  // ---------- an owner at work ----------

  lemma {:induction false} DriverFails(s: State, h: nat)
    requires Inv(s) && h in s.threads && s.row.Some?
    requires s.threads[h].pc.Ready? || s.threads[h].pc.InHop? || s.threads[h].pc.Checking? || s.threads[h].pc.Marking?
    ensures Take(s, Go(h, Fails)) ==
            At(s.(row := Some(s.row.value)), h, if s.threads[h].pc.Marking? then Finishing(true) else Releasing)
  {
    ThreadFacts(s, h);
  }

  lemma {:induction false} DrivingIsLost(s: Life, k: nat, c: nat, h: nat)
    requires Valid(s) && Ending(s, k, c) && h in s.own.threads && h !in s.writers
    requires var pc := s.own.threads[h].pc; pc.Ready? || pc.InHop? || pc.Checking? || pc.Marking?
    ensures Lost(s)
  {
    hide Lost, Sound, Take;
    ValidIsSound(s);
    SoundIsInv(s.own);
    DriverFails(s.own, h);
    if s.own.threads[h].pc.Marking? {
      PutLost(s, h, Fails, s.own.row.value, Finishing(true));
      FinishingIsLost(Put(s, h, s.own.row.value, Finishing(true)), k, h);
    } else {
      PutLost(s, h, Fails, s.own.row.value, Releasing);
      ReleasingIsLost(Put(s, h, s.own.row.value, Releasing), k, c, h);
    }
  }

  lemma {:induction false} WriterIsLost(s: Life, k: nat, c: nat, h: nat)
    requires Valid(s) && Ending(s, k, c) && h in s.writers
    ensures Lost(s)
  {
    hide Lost, Sound, Take;
    ValidIsSound(s);
    SoundIsInv(s.own);
    DriverFails(s.own, h);
    StepKeepsValid(s, GiveUp(h));
    ReleasingIsLost(Step(s, GiveUp(h)), k, c, h);
    LeadsTo(s, GiveUp(h));
  }

  lemma {:induction false} EnteringIsLost(s: Life, k: nat, c: nat, h: nat)
    requires Valid(s) && Ending(s, k, c) && h in s.own.threads && s.own.threads[h].pc.Acquiring?
    ensures Lost(s)
  {
    hide Lost, Sound;
    ValidIsSound(s);
    var s' := EnterLost(s, h);
    if s'.own.threads[h].pc.Ready? {
      DrivingIsLost(s', k, c, h);
    } else {
      FinishingIsLost(s', k, h);
    }
  }

  lemma {:induction false} HolderHandsBack(s: State, h: nat)
    requires Inv(s) && h in s.threads && s.row.Some? && (s.threads[h].pc.GivingBack? || s.threads[h].pc.Reverting?)
    ensures var own := Take(s, Go(h, Succeeds));
            && own.threads == s.threads - {h} && own.row.Some? && own.row.value.state == s.row.value.state
            && own.alive == s.alive && own.pods == s.pods
            && if s.threads[h].pc.GivingBack? then own.row.value.pod == ""
               else own.row.value.uid in s.pods && own.row.value.uid !in s.alive
  {
    ThreadFacts(s, h);
  }

  lemma {:induction false} HandingBackIsLost(s: Life, k: nat, c: nat, h: nat)
    requires Valid(s) && Ending(s, k, c) && h in s.own.threads
    requires s.own.threads[h].pc.GivingBack? || s.own.threads[h].pc.Reverting?
    ensures Lost(s)
  {
    hide Lost, Sound, Take;
    ValidIsSound(s);
    SoundIsInv(s.own);
    assert NotOverFor(s.own, s.own.threads[h].pc);
    HolderHandsBack(s.own, h);
    var own := Take(s.own, Go(h, Succeeds));
    GoLost(s, h, Succeeds, own);
    if s.own.threads[h].pc.GivingBack? {
      UnownedIsLost(s.(own := own), k, c);
    } else {
      DeadOwnedIsLost(s.(own := own), k);
    }
  }

  lemma {:induction false} HeldIsLost(s: Life, k: nat, c: nat, h: nat)
    requires Valid(s) && Ending(s, k, c) && h in s.own.threads && Holds(s.own.threads[h].pc)
    ensures Lost(s)
  {
    hide Lost, Sound;
    ValidIsSound(s);
    if h in s.writers {
      WriterIsLost(s, k, c, h);
    } else {
      match s.own.threads[h].pc
      case Acquiring(_) => EnteringIsLost(s, k, c, h);
      case AwaitingRegistry => AwaitingIsLost(s, k, h);
      case GivingBack => HandingBackIsLost(s, k, c, h);
      case Reverting(_) => HandingBackIsLost(s, k, c, h);
      case Finishing(_) => FinishingIsLost(s, k, h);
      case Releasing => ReleasingIsLost(s, k, c, h);
      case _ => DrivingIsLost(s, k, c, h);
    }
  }

  /** Whoever has the row and wherever they are, an admitted continuation can get to write. */
  lemma {:induction false} ContinuationIsLost(s: Life, k: nat, c: nat)
    requires Valid(s) && Ending(s, k, c) && !Stranded(s.own)
    ensures Lost(s)
  {
    hide Lost;
    var row := s.own.row.value;
    if row.uid == "" {
      UnownedIsLost(s, k, c);
    } else if row.uid in s.own.alive {
      var h :| h in s.own.threads && Holds(s.own.threads[h].pc);
      HeldIsLost(s, k, c, h);
    } else {
      DeadOwnedIsLost(s, k);
    }
  }

  // ---------- the theorem ----------

  lemma {:induction false} CancelOwn(s: State, c: nat)
    requires Inv(s) && c in s.threads && s.threads[c].pc.Cancelling?
    ensures s.row.Some?
    ensures Take(s, Go(c, Succeeds)) == At(s.(row := Some(MarkTerminating(s.row.value))), c, ClaimingToCleanUp)
  {
    ThreadFacts(s, c);
  }

  /** The cancellation itself changes nobody's chances. */
  lemma {:induction false} CancelOutcome(s: Life, c: nat) returns (s': Life)
    requires Valid(s) && AtCancel(s, c) && c in s.seen && s.seen[c] == s.version
    ensures s' == Step(s, Own(Go(c, Succeeds))) && Valid(s')
    ensures s'.status == Some(Canceled) && s'.version == s.version + 1 && s'.writers == s.writers
    ensures s'.own.threads.Keys == s.own.threads.Keys && s'.own.threads[c].pc == ClaimingToCleanUp
    ensures s'.own.row.Some? && s'.own.row.value.state != Running
    ensures forall g :: g in s.own.threads ==> (Overwriter(s', g) <==> Overwriter(s, g))
  {
    hide Sound, Take;
    ValidIsSound(s);
    SoundIsInv(s.own);
    CancelOwn(s.own, c);
    var own := Take(s.own, Go(c, Succeeds));
    SameWriters(s, own);
    s' := Step(s, Own(Go(c, Succeeds)));
    StepKeepsValid(s, Own(Go(c, Succeeds)));
    assert s' == s.(own := own, status := Some(Canceled), version := s.version + 1);
    forall g | g in s.own.threads ensures Overwriter(s', g) <==> Overwriter(s, g) {
      SameDanger(s, s', c, g);
    }
  }

  lemma {:induction false} SameDanger(s: Life, s': Life, c: nat, g: nat)
    requires s.own.row.Some? && g in s.own.threads && AtCancel(s, c)
    requires s'.writers == s.writers
    requires s'.own == At(s.own.(row := Some(MarkTerminating(s.own.row.value))), c, ClaimingToCleanUp)
    ensures Overwriter(s', g) <==> Overwriter(s, g)
  {
  }

  lemma {:induction false} OverwriterIsLost(s: Life, g: nat, c: nat)
    requires Valid(s) && s.own.row.Some? && s.own.row.value.state != Running
    requires c in s.own.threads && s.own.threads[c].pc.ClaimingToCleanUp?
    requires g in s.own.threads && Overwriter(s, g)
    ensures Lost(s)
  {
    hide Lost, Sound;
    ValidIsSound(s);
    if g in s.writers && s.writers[g].Checked? {
      if s.writers[g].next != Canceled {
        CheckedIsLost(s, g);
      } else {
        WritesCanceledIsLost(s, g);
      }
    } else {
      match s.own.threads[g].pc
      case Acquiring(_) => AcquiringIsLost(s, g);
      case InHop => InHopIsLost(s, g);
      case Checking => CheckingIsLost(s, g);
      case Ready => ReadyIsLost(s, g);
      case _ => ContinuationIsLost(s, g, c);
    }
  }

  /**
   * A cancellation that succeeds stays the task's status, in every run from there on, if and only if nobody is an
   * overwriter at that moment: no driver past its check with another status, no continuation admitted that can still
   * claim the session, and, where the session is TERMINATED already, no driver with hops to come.
   */
  lemma {:induction false} CancellationStaysIff(s: Life, c: nat)
    requires Valid(s) && AtCancel(s, c) && c in s.seen && s.seen[c] == s.version
    ensures var s' := Step(s, Own(Go(c, Succeeds)));
            s'.status == Some(Canceled) && (StaysCanceled(s') <==> NoOverwriter(s))
  {
    hide Step, Overwriter, StaysCanceled, Sound;
    var s' := CancelOutcome(s, c);
    if NoOverwriter(s) {
      NewlySettled(s, s');
      CancelStays(s');
    } else {
      var g :| g in s.own.threads && Overwriter(s, g);
      OverwriterIsLost(s', g, c);
    }
  }

  lemma {:induction false} NewlySettled(s: Life, s': Life)
    requires Valid(s) && NoOverwriter(s) && s'.version == s.version + 1 && s'.writers == s.writers
    requires s'.status == Some(Canceled) && s'.own.row.Some? && s'.own.row.value.state != Running
    requires s'.own.threads.Keys == s.own.threads.Keys
    requires forall g :: g in s.own.threads ==> (Overwriter(s', g) <==> Overwriter(s, g))
    ensures Settled(s')
  {
    hide Overwriter, Sound;
  }

  lemma {:induction false} CancelStays(s: Life)
    requires Valid(s) && Settled(s)
    ensures StaysCanceled(s)
  {
    hide After, Valid;
    forall events | AllPlain(events) ensures After(s, events).status == Some(Canceled) {
      SettledStays(s, events);
    }
  }

  // ---------- a run ----------

  /** One more event of a run from the start, while nobody is recording. */
  lemma {:induction false} OwnEvent(events: seq<Event>, s: Life, l: Label) returns (longer: seq<Event>)
    requires AllPlain(events) && After(NEWBORN, events) == s && s.writers == map[] && NoRestamp(l)
    requires l.Begin? ==> !l.op.ContinueTask? && !l.op.CancelTask?
    requires l.Go? ==> !AtCancel(s, l.g)
    ensures AllPlain(longer) && After(NEWBORN, longer) == s.(own := Take(s.own, l))
  {
    hide Take;
    longer := events + [Own(l)];
    OneEvent(events, Own(l));
    assert Moved(s, Take(s.own, l)).writers == map[];
  }

  lemma {:induction false} OneEvent(events: seq<Event>, e: Event)
    requires AllPlain(events) && Plain(e)
    ensures AllPlain(events + [e]) && After(NEWBORN, events + [e]) == Step(After(NEWBORN, events), e)
  {
    assert (events + [e])[..|events|] == events;
  }

  lemma {:induction false} Nothing()
    ensures After(NEWBORN, []) == NEWBORN && AllPlain([])
  {
  }

  /** The first process's session with nothing recorded yet, its goroutine in the registry. */
  function Started(p: Pair, pc: PC): Life {
    Life(p.With(Row(Running, p.podA, p.a), map[p.a := 0], map[0 := Thread(p.a, pc, Running, 0)]), None, 0, map[], map[])
  }

  lemma {:induction false} SessionStarts(p: Pair) returns (events: seq<Event>)
    requires p.Valid()
    ensures AllPlain(events)
    ensures After(NEWBORN, events) ==
            Life(p.With(Row(Running, p.podA, p.a), map[], map[0 := Thread(p.a, Acquiring(ByStart), Running, 0)]),
                 None, 0, map[], map[])
  {
    hide Take, After, Step;
    Nothing();
    BootsBoth(p);
    StartsTask(p);
    events := OwnEvent([], NEWBORN, Boot(p.a, p.podA));
    var s := NEWBORN.(own := Take(START, Boot(p.a, p.podA)));
    events := OwnEvent(events, s, Boot(p.b, p.podB));
    s := s.(own := Take(s.own, Boot(p.b, p.podB)));
    events := OwnEvent(events, s, Begin(0, p.a, StartTask));
    s := s.(own := Take(s.own, Begin(0, p.a, StartTask)));
    NotCancelling(p);
    events := OwnEvent(events, s, Go(0, Succeeds));
  }

  lemma {:induction false} NotCancelling(p: Pair)
    requires p.Valid()
    ensures var own := Take(State(None, p.Pods(), {p.a, p.b}, map[], map[]), Begin(0, p.a, StartTask));
            0 in own.threads ==> !own.threads[0].pc.Cancelling?
  {
  }

  /** It enters, hops once, and comes back with a reply. */
  lemma {:induction false} FirstHop(p: Pair)
    requires p.Valid()
    ensures var s := p.With(Row(Running, p.podA, p.a), map[], map[0 := Thread(p.a, Acquiring(ByStart), Running, 0)]);
            Take(s, Go(0, Succeeds)) == Started(p, Ready).own
    ensures Take(Started(p, Ready).own, Go(0, Succeeds)) == Started(p, InHop).own
    ensures Take(Started(p, InHop).own, Go(0, Succeeds)) == Started(p, Checking).own
    ensures Take(Started(p, Checking).own, Go(0, Succeeds)) == Started(p, Ready).own
  {
    hide Take;
    FirstEntry(p);
    FirstHopEnds(p);
  }

  lemma {:induction false} FirstEntry(p: Pair)
    requires p.Valid()
    ensures var s := p.With(Row(Running, p.podA, p.a), map[], map[0 := Thread(p.a, Acquiring(ByStart), Running, 0)]);
            Take(s, Go(0, Succeeds)) == Started(p, Ready).own
    ensures Take(Started(p, Ready).own, Go(0, Succeeds)) == Started(p, InHop).own
  {
  }

  lemma {:induction false} FirstHopEnds(p: Pair)
    requires p.Valid()
    ensures Take(Started(p, InHop).own, Go(0, Succeeds)) == Started(p, Checking).own
    ensures Take(Started(p, Checking).own, Go(0, Succeeds)) == Started(p, Ready).own
  {
  }

  /** The reply is a question to the client: it is recorded as the task's first row. */
  lemma {:induction false} FirstReplyRecorded(p: Pair)
    requires p.Valid()
    ensures Step(Step(Step(Started(p, Checking), Record(0, InputRequired)), ReadRow(0)), WriteRow(0)) ==
            Started(p, Ready).(status := Some(InputRequired), version := 1)
  {
    hide Take;
    FirstHop(p);
    var s1 := Started(p, Ready).(writers := map[0 := Checked(InputRequired)]);
    assert Step(Started(p, Checking), Record(0, InputRequired)) == s1;
    var s2 := Started(p, Ready).(writers := map[0 := Read(InputRequired, 0)]);
    assert Step(s1, ReadRow(0)) == s2;
    assert s2.writers - {0} == map[];
  }

  lemma {:induction false} FirstPause(p: Pair) returns (events: seq<Event>)
    requires p.Valid()
    ensures AllPlain(events)
    ensures After(NEWBORN, events) == Started(p, Ready).(status := Some(InputRequired), version := 1)
  {
    hide Take, After, Step;
    events := SessionStarts(p);
    var s := Life(p.With(Row(Running, p.podA, p.a), map[], map[0 := Thread(p.a, Acquiring(ByStart), Running, 0)]),
                  None, 0, map[], map[]);
    FirstHop(p);
    events := OwnEvent(events, s, Go(0, Succeeds));
    events := OwnEvent(events, Started(p, Ready), Go(0, Succeeds));
    events := OwnEvent(events, Started(p, InHop), Go(0, Succeeds));
    FirstReplyRecorded(p);
    OneEvent(events, Record(0, InputRequired));
    OneEvent(events + [Record(0, InputRequired)], ReadRow(0));
    OneEvent(events + [Record(0, InputRequired)] + [ReadRow(0)], WriteRow(0));
    events := events + [Record(0, InputRequired)] + [ReadRow(0)] + [WriteRow(0)];
  }

  /** A paused session, its task waiting for input, and a continuation and a cancellation just admitted. */
  function Contended(p: Pair): Life {
    Life(p.With(Row(Running, "", ""), map[],
                map[1 := Thread(p.a, ClaimingToContinue, Running, 0), 2 := Thread(p.a, Cancelling, Running, 0)]),
         Some(InputRequired), 1, map[], map[2 := 1])
  }

  lemma {:induction false} PausedAsked(p: Pair) returns (events: seq<Event>)
    requires p.Valid()
    ensures AllPlain(events)
    ensures After(NEWBORN, events) ==
        Life(p.With(Row(Running, "", ""), map[], map[]), Some(InputRequired), 1, map[], map[])
  {
    hide Take, After, Step;
    events := FirstPause(p);
    var s := Started(p, Ready).(status := Some(InputRequired), version := 1);
    ReadyPauses(p);
    PausesAndReleases(p);
    events := OwnEvent(events, s, Go(0, Fails));
    s := Started(p, Releasing).(status := Some(InputRequired), version := 1);
    events := OwnEvent(events, s, Go(0, Succeeds));
    s := s.(own := Take(s.own, Go(0, Succeeds)));
    PauseIsReleased(p);
    events := OwnEvent(events, s, Go(0, Succeeds));
  }

  lemma {:induction false} ReadyPauses(p: Pair)
    requires p.Valid()
    ensures Take(Started(p, Ready).own, Go(0, Fails)) == Started(p, Releasing).own
  {
  }

  lemma {:induction false} PauseIsReleased(p: Pair)
    requires p.Valid()
    ensures var own := Take(Started(p, Releasing).own, Go(0, Succeeds));
            0 in own.threads ==> !own.threads[0].pc.Cancelling?
  {
  }

  lemma {:induction false} BothAdmitted(p: Pair)
    requires p.Valid()
    ensures var s := Life(p.With(Row(Running, "", ""), map[], map[]), Some(InputRequired), 1, map[], map[]);
            Step(Step(s, Own(Begin(1, p.a, ContinueTask))), Own(Begin(2, p.a, CancelTask))) == Contended(p)
  {
    var s := Life(p.With(Row(Running, "", ""), map[], map[]), Some(InputRequired), 1, map[], map[]);
    var s1 := s.(own := p.With(Row(Running, "", ""), map[], map[1 := Thread(p.a, ClaimingToContinue, Running, 0)]));
    assert Step(s, Own(Begin(1, p.a, ContinueTask))) == s1;
  }

  /**
   * A cancellation of an idle session that does not stay: a continuation was admitted before it, claims the session
   * once the cancellation has ended it, and records its own reply.
   */
  lemma {:induction false} IdleCancellationIsOverwritten(p: Pair) returns (events: seq<Event>, more: seq<Event>)
    requires p.Valid()
    ensures AllPlain(events) && AllPlain(more)
    ensures var s := After(NEWBORN, events);
            && s.status == Some(Canceled) && s.writers == map[]
            && (forall g :: g in s.own.threads ==> !Holds(s.own.threads[g].pc))
            && After(s, more).status != Some(Canceled)
  {
    hide Take, After, Step, Overwriter;
    events := PausedAsked(p);
    BothAdmitted(p);
    OneEvent(events, Own(Begin(1, p.a, ContinueTask)));
    OneEvent(events + [Own(Begin(1, p.a, ContinueTask))], Own(Begin(2, p.a, CancelTask)));
    events := events + [Own(Begin(1, p.a, ContinueTask))] + [Own(Begin(2, p.a, CancelTask))];
    var s := Contended(p);
    NewbornIsValid();
    AfterIsValid(NEWBORN, events);
    CancellationStaysIff(s, 2);
    var s' := CancelOutcome(s, 2);
    ContinuationThreatens(p);
    more :| AllPlain(more) && After(s', more).status != Some(Canceled);
    OneEvent(events, Own(Go(2, Succeeds)));
    events := events + [Own(Go(2, Succeeds))];
    NobodyHolds(p);
  }

  lemma {:induction false} ContinuationThreatens(p: Pair)
    requires p.Valid()
    ensures !NoOverwriter(Contended(p))
  {
    assert Overwriter(Contended(p), 1);
  }

  lemma {:induction false} NobodyHolds(p: Pair)
    requires p.Valid()
    ensures var s := Step(Contended(p), Own(Go(2, Succeeds)));
            forall g :: g in s.own.threads ==> !Holds(s.own.threads[g].pc)
  {
  }
}
