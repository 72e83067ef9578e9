/**
 * Session ownership and the turn protocol together: any number of goroutines of any number of replicas, each with a
 * driver of its own, over one log and one set of actors.
 */
module Replicas {
  import opened Hop
  import O = Ownership
  import opened Claims
  import opened Session
  import opened System
  import opened CrashSafety
  import opened StatusLag

  /** `sys` is what is durable, and its record; `drivers` is where each relaying goroutine stands. */
  datatype Fleet = Fleet(own: O.State, sys: Sys, drivers: map<nat, Driver>)

  datatype Event =
    // a step of somebody's claim, entry or release, a process starting or dying
    | Claim(c: O.Label)
    // a step of the protocol by one goroutine
    | Drive(g: nat, l: Label)
    // a step on the actors' side
    | Happen(l: Label)

  /** In its relay loop, between registry entry and the end of the loop. */
  predicate Relays(own: O.State, g: nat) {
    g in own.threads && (own.threads[g].pc.Ready? || own.threads[g].pc.InHop? || own.threads[g].pc.Checking?)
  }

  function DriverOf(f: Fleet, g: nat): Driver {
    if g in f.drivers then f.drivers[g] else Down
  }

  function Assemble(w: World): Fleet
    requires w.p.locals.Keys == w.p.agents.Keys
  {
    Fleet(O.START, Init(w), map[])
  }

  /** A goroutine that leaves its loop, or dies, takes what it had in hand with it. */
  function Step(w: World, f: Fleet, e: Event): Fleet {
    match e
    case Claim(l) =>
      var own := O.Take(f.own, l);
      Fleet(own, f.sys, map g | g in f.drivers && Relays(own, g) :: f.drivers[g])
    case Drive(g, l) =>
      if !Relays(f.own, g) || !ByDriver(l) then f
      else
        var s := Take(w, f.sys.(driver := DriverOf(f, g)), l);
        Fleet(f.own, s.(driver := Down), f.drivers[g := s.driver])
    case Happen(l) =>
      if ByDriver(l) || l.DriverCrash? then f else f.(sys := Take(w, f.sys, l))
  }

  function After(w: World, events: seq<Event>): Fleet
    requires w.p.locals.Keys == w.p.agents.Keys
  {
    if events == [] then Assemble(w) else Step(w, After(w, events[..|events| - 1]), events[|events| - 1])
  }

  ghost predicate AllPlain(events: seq<Event>) {
    forall e :: e in events && e.Claim? ==> O.NoRestamp(e.c)
  }

  // ---------- one driver at a time ----------

  /** Only one goroutine has anything in hand, and it is one that relays. */
  ghost predicate OneAtWork(f: Fleet) {
    && O.Inv(f.own) && f.sys.driver == Down
    && (forall g :: g in f.drivers ==> Relays(f.own, g))
  }

  lemma {:induction false} RelaysAlone(own: O.State, g: nat, h: nat)
    requires O.Inv(own) && Relays(own, g) && Relays(own, h)
    ensures g == h
  {
  }

  /** The one driver the protocol sees. */
  ghost function Seen(f: Fleet): Sys {
    if g :| g in f.drivers then f.sys.(driver := f.drivers[g]) else f.sys.(driver := Down)
  }

  lemma {:induction false} SeenIs(f: Fleet, g: nat)
    requires OneAtWork(f) && Relays(f.own, g)
    ensures Seen(f) == f.sys.(driver := DriverOf(f, g))
  {
    hide O.Inv;
    forall h | h in f.drivers ensures h == g {
      RelaysAlone(f.own, g, h);
    }
  }

  lemma {:induction false} NothingSeen(f: Fleet)
    requires f.drivers == map[] && f.sys.driver == Down
    ensures Seen(f) == f.sys
  {
  }

  /** What happens on the actors' side is the same whatever the driver has in hand. */
  lemma {:induction false} ActorsApart(w: World, s: Sys, d: Driver, l: Label)
    requires !ByDriver(l) && !l.DriverCrash?
    ensures Take(w, s.(driver := d), l) == Take(w, s, l).(driver := d)
  {
  }

  lemma {:induction false} StepKeepsOne(w: World, f: Fleet, e: Event)
    requires OneAtWork(f) && (e.Claim? ==> O.NoRestamp(e.c))
    ensures OneAtWork(Step(w, f, e))
  {
    hide O.Inv, O.Take, Take;
    match e
    case Claim(l) => O.StepKeeps(f.own, l);
    case Drive(g, l) =>
    case Happen(l) =>
      if !ByDriver(l) && !l.DriverCrash? {
        ActorsAside(w, f.sys, l);
      }
  }

  /** One event is one step of the protocol, the loss of its driver, or nothing to it at all. */
  lemma {:induction false} StepIsSeen(w: World, f: Fleet, e: Event) returns (labels: seq<Label>)
    requires OneAtWork(f) && (e.Claim? ==> O.NoRestamp(e.c))
    ensures |labels| <= 1
    ensures Seen(Step(w, f, e)) == if labels == [] then Seen(f) else Take(w, Seen(f), labels[0])
  {
    hide O.Inv, O.Take, Take;
    var f' := Step(w, f, e);
    StepKeepsOne(w, f, e);
    labels := [];
    match e
    case Claim(l) =>
      if g :| g in f.drivers {
        SeenIs(f, g);
        if Relays(f'.own, g) {
          SeenIs(f', g);
        } else {
          NobodyElse(f, f', g);
          NothingSeen(f');
          CrashOnly(w, Seen(f));
          labels := [DriverCrash];
        }
      } else {
        assert f'.drivers == map[] && f.drivers == map[];
        NothingSeen(f);
        NothingSeen(f');
      }
    case Drive(g, l) =>
      if Relays(f.own, g) && ByDriver(l) {
        SeenIs(f, g);
        SeenIs(f', g);
        labels := [l];
      }
    case Happen(l) =>
      if !ByDriver(l) && !l.DriverCrash? {
        if g :| g in f.drivers {
          SeenIs(f, g);
          SeenIs(f', g);
          ActorsApart(w, f.sys, f.drivers[g], l);
        } else {
          assert f'.drivers == map[] && f.drivers == map[];
          NothingSeen(f);
          NothingSeen(f');
        }
        labels := [l];
      }
  }

  lemma {:induction false} NobodyElse(f: Fleet, f': Fleet, g: nat)
    requires OneAtWork(f) && g in f.drivers && f'.drivers.Keys <= f.drivers.Keys && g !in f'.drivers
    ensures f'.drivers == map[]
  {
    forall h | h in f'.drivers ensures false {
      RelaysAlone(f.own, g, h);
    }
  }

  lemma {:induction false} AfterIsOne(w: World, events: seq<Event>)
    requires w.p.locals.Keys == w.p.agents.Keys && AllPlain(events)
    ensures OneAtWork(After(w, events))
  {
    hide Step, OneAtWork;
    if events == [] {
      AssembledIsOne(w);
    } else {
      AfterIsOne(w, events[..|events| - 1]);
      StepKeepsOne(w, After(w, events[..|events| - 1]), events[|events| - 1]);
    }
  }

  lemma {:induction false} AssembledIsOne(w: World)
    requires w.p.locals.Keys == w.p.agents.Keys
    ensures OneAtWork(Assemble(w)) && Seen(Assemble(w)) == Init(w)
  {
    NothingSeen(Assemble(w));
  }

  lemma {:induction false} AfterIsRun(w: World, events: seq<Event>) returns (labels: seq<Label>)
    requires w.p.locals.Keys == w.p.agents.Keys && AllPlain(events)
    ensures Seen(After(w, events)) == Run(w, labels)
  {
    hide Step, OneAtWork, Take, Seen;
    if events == [] {
      AssembledIsOne(w);
      labels := [];
    } else {
      var init := events[..|events| - 1];
      labels := AfterIsRun(w, init);
      AfterIsOne(w, init);
      var more := StepIsSeen(w, After(w, init), events[|events| - 1]);
      if more != [] {
        assert (labels + more)[..|labels|] == labels;
        labels := labels + [more[0]];
      }
    }
  }

  /**
   * The protocol's single driver is no restriction: whatever any goroutines of any replicas do, claims, crashes and
   * take-overs included, the log and the actors are those of a run of the protocol with one driver.
   */
  lemma {:induction false} FleetIsOneDriver(w: World, events: seq<Event>) returns (s: Sys)
    requires w.p.locals.Keys == w.p.agents.Keys && AllPlain(events)
    ensures Reachable(w, s)
    ensures var f := After(w, events);
            && s == f.sys.(driver := s.driver)
            && forall g :: g in f.drivers ==> s.driver == f.drivers[g]
  {
    hide After, Take, Run;
    var f := After(w, events);
    AfterIsOne(w, events);
    var labels := AfterIsRun(w, events);
    s := Seen(f);
    var trace := RunHasTrace(w, labels);
    forall g | g in f.drivers ensures s.driver == f.drivers[g] {
      SeenIs(f, g);
    }
  }

  /**
   * What the client of a replicated deployment gets: once the log's newest hop is a final reply, it and all saved agent
   * states are those of plain calls of the owner, one per client message the log shows.
   */
  lemma {:induction false} FinalReplyAcrossReplicas(w: World, events: seq<Event>) returns (segs: seq<Segment>)
    requires ValidWorld(w) && AllPlain(events)
    requires var hop := NewestHop(After(w, events).sys.log); hop.Some? && IsTerminalReply(hop.value)
    ensures var sys := After(w, events).sys;
            && Conversation(w, sys.log, segs)
            && sys.actors.Keys == w.p.agents.Keys
            && Serve(w.p, segs) == Some((SavedLocals(w, sys), NewestHop(sys.log).value.data))
  {
    hide After, Reachable, Conversation, Serve, NewestHop, SavedState;
    var s := FleetIsOneDriver(w, events);
    segs := FinalReplyIsCalls(w, s);
    assert SavedLocals(w, s) == SavedLocals(w, After(w, events).sys) by {
      SameActors(w, s, After(w, events).sys);
    }
  }

  lemma {:induction false} SameActors(w: World, s: Sys, s': Sys)
    requires w.p.locals.Keys == w.p.agents.Keys && s.actors.Keys == w.p.agents.Keys && s'.actors == s.actors
    ensures SavedLocals(w, s) == SavedLocals(w, s')
  {
  }

  /**
   * Nothing is ever appended but by a goroutine whose live process owns the row and whose own registry entry stands.
   */
  lemma {:induction false} OnlyTheOwnerAppends(w: World, events: seq<Event>, e: Event)
    requires w.p.locals.Keys == w.p.agents.Keys && AllPlain(events)
    requires var f := After(w, events); Step(w, f, e).sys.log != f.sys.log
    ensures var own := After(w, events).own;
            && e.Drive? && e.g in own.threads && O.Driving(own.threads[e.g].pc)
            && var uid := own.threads[e.g].uid;
               && uid in own.alive && uid in own.pods && uid in own.registry && own.registry[uid] == e.g
               && own.row.Some? && own.row.value.uid == uid && own.row.value.pod == own.pods[uid]
  {
    hide After, O.Take;
    var f := After(w, events);
    AfterIsOne(w, events);
    if e.Happen? && !ByDriver(e.l) && !e.l.DriverCrash? {
      ActorsLog(w, f.sys, e.l);
    }
    if e.Drive? && Relays(f.own, e.g) {
      ThreadFacts(f.own, e.g);
    }
  }

  lemma {:induction false} ActorsLog(w: World, s: Sys, l: Label)
    requires !ByDriver(l) && !l.DriverCrash?
    ensures Take(w, s, l).log == s.log
  {
  }
}
