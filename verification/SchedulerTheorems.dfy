/** The attraction worker's promises, for every usable configuration, script of passes and handshake outcome. */
module SchedulerTheorems {
  import opened Common
  import opened Mailbox
  import opened Rounds
  import opened Layout
  import opened SchedulerSpec
  import opened SchedulerProofs

  lemma StartIsSound(cfg: Config, now: nat)
    requires Usable(cfg)
    ensures Sound(cfg, Start(cfg, now), 0)
  {}

  lemma Reachable(cfg: Config, now: nat, ps: seq<Pass>, env: Script)
    requires Usable(cfg)
    ensures var s := Run(cfg, Start(cfg, now), ps, env);
            Sound(cfg, s, s.serial) && !s.ch.hand
  {
    StartIsSound(cfg, now);
    RunKeeps(cfg, Start(cfg, now), ps, env);
  }

  // ----- Capacity, admission and release -----

  /**
    * In every reachable state a running round is within capacity, and every rider was let in by an open, unpaused
    * worker, into this very round, because the party met the criteria.
    */
  lemma RoundsAreSound(cfg: Config, now: nat, ps: seq<Pass>, env: Script, i: nat)
    requires Usable(cfg)
    ensures var s := Run(cfg, Start(cfg, now), ps, env);
            && |s.slots| == |s.leave| == cfg.handlers
            && (i < |s.slots| && s.slots[i].Some? ==>
                 var r := s.slots[i].value;
                 && r.started && Load(r.clients) <= cfg.capacity
                 && forall p <- r.clients :: exists a <- s.admitted ::
                      && a.serial == r.serial && a.open && !a.paused && a.request.pid == p && a.request.visit.Some?
                      && var v := a.request.visit.value;
                         v.hasChild == r.clients[p].hasChild && Meets(cfg, v.person, v.child, v.hasChild))
  {
    Reachable(cfg, now, ps, env);
  }

  /** Whether the request has a right to a place in the round: asked of an open, unpaused worker by a fit party. */
  ghost predicate Entitled(cfg: Config, s: Sched, q: Request) {
    && s.open && !s.paused && q.visit.Some?
    && Meets(cfg, q.visit.value.person, q.visit.value.child, q.visit.value.hasChild)
  }

  ghost predicate NoRoom(cfg: Config, r: Round, q: Request) {
    q.visit.Some? && Load(r.clients) + 1 + (if q.visit.value.hasChild then 1 else 0) > cfg.capacity
  }

  /**
    * A rider is added exactly for a request that is entitled at the check, finds room and is acknowledged, with the
    * party of the request; this is put on record; nobody who is in the round is touched; and the request stays in the
    * queue exactly if it is entitled and finds no room.
    */
  lemma AdmittedOnlyIfAllowed(cfg: Config, s: Sched, r: Round, q: Request, h: Shake)
    requires |s.slots| == |s.leave|
    ensures var (s1, r1, served) := Register(cfg, s, r, q, h);
            var admitted := Entitled(cfg, s, q) && !NoRoom(cfg, r, q) && Acknowledged(h);
            && (served <==> !(Entitled(cfg, s, q) && NoRoom(cfg, r, q)))
            && r1.clients == (if admitted && q.pid !in r.clients
                              then r.clients[q.pid := Guest(q.visit.value.hasChild, FromPark)] else r.clients)
            && r1 == r.(clients := r1.clients)
            && s1.admitted == s.admitted + (if admitted
                                            then {Admission(q, true, false, r.serial, |s.handled|, |s1.ch.received|)}
                                            else {})
  {}

  /** Once installed a round never gains a client; what already ran stays in its slot until it is released. */
  lemma RoundsNeverGrow(cfg: Config, now: nat, ps: seq<Pass>, more: seq<Pass>, env: Script)
    requires Usable(cfg)
    ensures var s := Run(cfg, Start(cfg, now), ps, env);
            Evolves(s, Run(cfg, s, more, env))
  {
    Reachable(cfg, now, ps, env);
    RunKeeps(cfg, Run(cfg, Start(cfg, now), ps, env), more, env);
  }

  /** Until its release a round's semaphore is at zero, and no round is let go early or twice. */
  lemma NoEarlyRelease(cfg: Config, now: nat, ps: seq<Pass>, env: Script)
    requires Usable(cfg)
    ensures var s := Run(cfg, Start(cfg, now), ps, env);
            && (forall i :: 0 <= i < |s.slots| && s.slots[i].Some? ==> s.leave[i] == 0 && !s.slots[i].value.released)
            && (forall k :: 0 <= k < |s.freed| ==> Fair(s.freed[k]))
            && (forall k, l :: 0 <= k < l < |s.freed| ==> s.freed[k].round.serial != s.freed[l].round.serial)
            && (forall k, i :: 0 <= k < |s.freed| && 0 <= i < |s.slots| && s.slots[i].Some? ==>
                 s.freed[k].round.serial != s.slots[i].value.serial)
  {
    Reachable(cfg, now, ps, env);
  }

  /** A release gives each registered client one token; that of an emptied round finds the semaphore at zero. */
  lemma ReleaseTokens(cfg: Config, s: Sched, i: nat, bound: nat)
    requires Usable(cfg) && Sound(cfg, s, bound) && i < |s.slots| && s.slots[i].Some?
    ensures s.leave[i] == 0 && Free(s, i).leave[i] == |s.slots[i].value.clients| <= cfg.capacity
  {
    LoadEmpty(s.slots[i].value.clients);
  }

  /** A round that nobody boarded is discarded with its semaphore at zero, whatever happened meanwhile. */
  lemma DiscardNeverBlocks(cfg: Config, s: Sched, i: nat, env: Script)
    requires Usable(cfg) && Sound(cfg, s, s.serial) && i < |s.slots| && s.slots[i].None?
    ensures var (s1, r) := Prepare(cfg, s, i, env);
            s1.leave[i] == 0 && s1.slots[i].None? && !r.released
  {
    PrepareKeeps(cfg, s, i, env);
  }

  /** When the process closes every round is destroyed and each of its clients gets one token. */
  lemma ShutdownReleasesAll(cfg: Config, s: Sched, i: nat)
    requires Sound(cfg, s, s.serial) && i < |s.slots|
    ensures var r := Shutdown(s);
            && r.slots[i].None?
            && r.leave[i] == if s.slots[i].Some? then |s.slots[i].value.clients| else s.leave[i]
  {
    SweepEffectAt(s, 0, true, i);
  }

  // ----- Queueing and packing -----

  /** Served requests followed by the queue are the arrivals in order. */
  lemma ServedInOrder(cfg: Config, now: nat, ps: seq<Pass>, env: Script)
    requires Usable(cfg)
    ensures var s := Run(cfg, Start(cfg, now), ps, env);
            s.handled + s.queue == s.arrived
  {
    Reachable(cfg, now, ps, env);
  }

  /**
    * A new round takes a prefix of the queue into the first free slot; if it leaves a request behind, that
    * request does not fit, so at most one place stays empty.
    */
  lemma GreedyPacking(cfg: Config, s: Sched, env: Script)
    requires Usable(cfg) && Sound(cfg, s, s.serial)
    ensures var (r, made) := NewRound(cfg, s, env);
            && s.handled <= r.handled && r.arrived == s.arrived
            && (made ==>
                 var i := FirstFree(s.slots, 0).value;
                 && i < |s.slots| && s.slots[i].None? && r.slots[i].Some?
                 && var b := r.slots[i].value;
                    && b.serial == s.serial && b.started && 1 <= Load(b.clients) <= cfg.capacity
                    && (r.queue != [] ==> Refused(cfg, r, b, r.queue[0]) && Load(b.clients) >= cfg.capacity - 1))
  {
    NewRoundKeeps(cfg, s, env);
    FirstFreeIsFree(s.slots, 0);
    var (r, made) := NewRound(cfg, s, env);
    if made {
      var i := FirstFree(s.slots, 0).value;
      PrepareKeeps(cfg, s, i, env);
      LoadEmpty(r.slots[i].value.clients);
    }
  }

  lemma {:induction false} EmptyFillEmptiesQueue(cfg: Config, s: Sched, r: Round, env: Script)
    requires Usable(cfg) && |s.slots| == |s.leave|
    ensures var (s1, r1) := Fill(cfg, s, r, env);
            r1.clients == map[] ==> s1.queue == []
    decreases |s.queue|
  {
    var (s1, r1) := Fill(cfg, s, r, env);
    LoadEmpty(r1.clients);
  }

  /**
    * The creation loop is work-conserving: it ends with the worker paused, every slot running or the queue empty.
    * An empty round never refuses a request, because every capacity is at least 2 and every weight at most 2.
    */
  lemma {:induction false} WorkConserving(cfg: Config, s: Sched, env: Script)
    requires Usable(cfg) && |s.slots| == |s.leave|
    ensures var r := CreateRounds(cfg, s, env);
            r.paused || r.queue == [] || forall i :: 0 <= i < |r.slots| ==> r.slots[i].Some?
    decreases |s.queue|
  {
    FirstFreeIsFree(s.slots, 0);
    var (s1, made) := CreateRound(cfg, s, env);
    if made {
      WorkConserving(cfg, s1, env);
    } else if !s.paused && FirstFree(s.slots, 0).Some? {
      EmptyFillEmptiesQueue(cfg, Construct(s, FirstFree(s.slots, 0).value), Fresh(s.serial), env);
    }
  }
}
