/**
 * Two more invariants of session ownership: a live owner has a goroutine for it, and no dead one keeps a finished
 * row.
 */
module Claims {
  import opened Ownership

  /** Whoever owns the row and lives has a goroutine with the claim in hand. */
  ghost predicate OwnersHold(s: State) {
    s.row.Some? && s.row.value.uid in s.alive ==> exists h :: h in s.threads && Holds(s.threads[h].pc)
  }

  predicate Over(s: State) {
    s.row.Some? && s.row.value.state == Terminated
  }

  /** An adoption under way, or about to succeed, is of a session that is not TERMINATED. */
  predicate NotOverFor(s: State, pc: PC) {
    match pc
    case Adopting(dead, _) => s.row.Some? && s.row.value.uid == dead ==> !Over(s)
    case Acquiring(origin) => origin.ByAdoption? ==> !Over(s)
    case Reverting(_) => !Over(s)
    case _ => true
  }

  ghost predicate AdoptionsInTime(s: State) {
    forall g :: g in s.threads ==> NotOverFor(s, s.threads[g].pc)
  }

  ghost predicate Sound(s: State) {
    Inv(s) && LifeInv(s) && OwnersHold(s) && AdoptionsInTime(s)
  }

  lemma {:induction false} StartIsSound()
    ensures Sound(START)
  {
  }

  lemma {:induction false} HolderOwns(s: State, g: nat)
    requires Inv(s) && g in s.threads && Holds(s.threads[g].pc)
    ensures s.row.Some? && s.row.value.uid == s.threads[g].uid && s.row.value.pod == s.pods[s.threads[g].uid] != ""
    ensures s.threads[g].uid in s.alive && s.threads[g].uid in s.pods && s.threads[g].uid != ""
    ensures forall h :: h in s.threads && Holds(s.threads[h].pc) ==> h == g
  {
    assert ThreadOK(s, g);
  }

  lemma {:induction false} ThreadFacts(s: State, g: nat)
    requires Inv(s) && g in s.threads
    ensures ThreadOK(s, g)
  {
  }

  // ---------- steps ----------

  lemma {:induction false} DieKeepsSound(s: State, uid: string)
    requires Sound(s)
    ensures OwnersHold(DoDie(s, uid)) && AdoptionsInTime(DoDie(s, uid))
  {
    var s' := DoDie(s, uid);
    if s'.row.Some? && s'.row.value.uid in s'.alive {
      var h :| h in s.threads && Holds(s.threads[h].pc);
      HolderOwns(s, h);
      assert h in s'.threads;
    }
  }

  lemma {:induction false} BootKeepsSound(s: State, uid: string, pod: string)
    requires Sound(s)
    ensures OwnersHold(DoBoot(s, uid, pod)) && AdoptionsInTime(DoBoot(s, uid, pod))
  {
    var s' := DoBoot(s, uid, pod);
    if s'.row.Some? && s'.row.value.uid in s'.alive {
      assert s.row.value.uid in s.alive;
    }
  }

  lemma {:induction false} BeginKeepsSound(s: State, g: nat, uid: string, op: Op)
    requires Sound(s) && !op.Restamp?
    ensures OwnersHold(DoBegin(s, g, uid, op)) && AdoptionsInTime(DoBegin(s, g, uid, op))
  {
    var s' := DoBegin(s, g, uid, op);
    if s'.row.Some? && s'.row.value.uid in s'.alive {
      var h :| h in s.threads && Holds(s.threads[h].pc);
      assert h in s'.threads && Holds(s'.threads[h].pc);
    }
  }

  /** What one goroutine's step leaves of the row, and of itself. */
  ghost predicate OwnStepOK(s: State, s': State, g: nat)
    requires g in s.threads
  {
    // the row is its own still, or nobody's, or a dead process's; or it was somebody else's all along
    && (s'.row != s.row && s'.row.Some? && s'.row.value.uid in s'.alive ==>
          (g in s'.threads && Holds(s'.threads[g].pc)) || (s.row.Some? && s'.row.value.uid == s.row.value.uid
                                                           && !Holds(s.threads[g].pc)))
    && (s'.row == s.row && Holds(s.threads[g].pc) ==>
          (g in s'.threads && Holds(s'.threads[g].pc)) || s.threads[g].uid !in s'.alive)
    // it turns TERMINATED under a driver only, and goes to a dead process only unfinished
    && (Over(s') && !Over(s) ==> Driving(s.threads[g].pc) && s.row.Some? && s'.row.value.uid == s.row.value.uid)
    && (Over(s') ==> s'.row.value.uid in {"", s.threads[g].uid} || (s.row.Some? && s'.row.value.uid == s.row.value.uid))
    && (g in s'.threads ==> NotOverFor(s', s'.threads[g].pc))
    && s'.alive <= s.alive
    && (forall h :: h in s.threads && h != g ==> h in s'.threads || Holds(s.threads[g].pc))
  }

  lemma {:induction false} ClaimStepOK(s: State, g: nat, how: How)
    requires PodsOK(s) && g in s.threads && ThreadOK(s, g) && NotOverFor(s, s.threads[g].pc)
    requires !Holds(s.threads[g].pc) && !s.threads[g].pc.Released?
    ensures OwnStepOK(s, DoClaim(s, g, how), g)
  {
  }

  lemma {:induction false} HoldStepOK(s: State, g: nat, how: How)
    requires PodsOK(s) && g in s.threads && ThreadOK(s, g) && NotOverFor(s, s.threads[g].pc)
    requires Holds(s.threads[g].pc) || s.threads[g].pc.Released?
    ensures OwnStepOK(s, DoHold(s, g, how), g)
  {
  }

  lemma {:induction false} OwnerStillHolds(s: State, s': State, g: nat)
    requires Sound(s) && g in s.threads && OwnStepOK(s, s', g) && Untouched(s, s', g)
    ensures OwnersHold(s')
  {
    hide LifeInv, AdoptionsInTime, NotOverFor;
    if s'.row.Some? && s'.row.value.uid in s'.alive && !(g in s'.threads && Holds(s'.threads[g].pc)) {
      var h :| h in s.threads && Holds(s.threads[h].pc);
      HolderOwns(s, h);
      if h != g {
        assert h in s'.threads by {
          if Holds(s.threads[g].pc) {
            HolderOwns(s, g);
          }
        }
        assert Holds(s'.threads[h].pc);
      }
    }
  }

  lemma {:induction false} OthersInTime(s: State, s': State, g: nat, h: nat)
    requires Sound(s) && g in s.threads && OwnStepOK(s, s', g) && Untouched(s, s', g)
    requires h in s'.threads && h != g
    ensures NotOverFor(s', s'.threads[h].pc)
  {
    hide LifeInv, OwnersHold;
    assert NotOverFor(s, s.threads[h].pc);
    ThreadFacts(s, h);
    ThreadFacts(s, g);
    if Over(s') && !Over(s) {
      HolderOwns(s, g);
    }
  }

  lemma {:induction false} GoKeepsSound(s: State, g: nat, how: How)
    requires Sound(s)
    ensures OwnersHold(DoGo(s, g, how)) && AdoptionsInTime(DoGo(s, g, how))
  {
    if g in s.threads {
      var s' := DoGo(s, g, how);
      ThreadFacts(s, g);
      assert NotOverFor(s, s.threads[g].pc);
      if Holds(s.threads[g].pc) || s.threads[g].pc.Released? {
        HoldStepOK(s, g, how);
      } else {
        ClaimStepOK(s, g, how);
      }
      hide DoGo, DoClaim, DoHold, ThreadOK, LifeInv, OwnStepOK, Untouched, NotOverFor, Inv;
      OthersUntouched(s, g, how);
      OwnerStillHolds(s, s', g);
      forall h | h in s'.threads ensures NotOverFor(s', s'.threads[h].pc) {
        if h != g {
          OthersInTime(s, s', g, h);
        } else {
          OwnInTime(s, s', g);
        }
      }
    }
  }

  lemma {:induction false} OwnInTime(s: State, s': State, g: nat)
    requires g in s.threads && OwnStepOK(s, s', g) && g in s'.threads
    ensures NotOverFor(s', s'.threads[g].pc)
  {
  }

  /** Every step keeps all of it. */
  lemma {:induction false} StepKeepsSound(s: State, l: Label)
    requires Sound(s) && NoRestamp(l)
    ensures Sound(Take(s, l))
  {
    hide Inv, LifeInv, OwnersHold, AdoptionsInTime, DoBoot, DoDie, DoBegin, DoGo;
    StepKeeps(s, l);
    match l
    case Boot(uid, pod) =>
      BootKeepsSound(s, uid, pod);
      BootChanges(s, uid, pod);
      LivesUnchanged(s, DoBoot(s, uid, pod));
    case Die(uid) =>
      DieKeepsSound(s, uid);
      DieChanges(s, uid);
      LivesUnchanged(s, DoDie(s, uid));
    case Begin(g, uid, op) =>
      BeginKeepsSound(s, g, uid, op);
      BeginLives(s, g, uid, op);
    case Go(g, how) =>
      GoKeepsSound(s, g, how);
      GoLives(s, g, how);
  }

  lemma {:induction false} BootChanges(s: State, uid: string, pod: string)
    ensures var s' := DoBoot(s, uid, pod); s'.row == s.row && s'.threads == s.threads
  {
  }

  lemma {:induction false} DieChanges(s: State, uid: string)
    ensures var s' := DoDie(s, uid);
            s'.row == s.row && forall g :: g in s'.threads ==> g in s.threads && s'.threads[g] == s.threads[g]
  {
  }
}
