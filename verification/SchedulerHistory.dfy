/** Every boarding has a handshake of its own request behind it, and so a client who has accepted a permit. */
module SchedulerHistory {
  import opened Common
  import opened Mailbox
  import opened Rounds
  import opened Layout
  import opened SchedulerSpec
  import opened SchedulerProofs
  import opened SchedulerTheorems
  import opened SchedulerWaits
  import Protocol = ReplyProtocol

  ghost predicate Granted(a: Admission, handled: seq<Request>, env: Script) {
    a.at < |handled| && handled[a.at] == a.request && Acknowledged(env.shakes(a.at))
  }

  ghost predicate Known(s: Sched, env: Script) {
    forall a <- s.admitted :: Granted(a, s.handled, env)
  }

  lemma RegisterKeepsKnown(cfg: Config, s: Sched, r: Round, env: Script)
    requires |s.slots| == |s.leave| && s.queue != [] && Known(s, env)
    ensures var (s1, _, served) := Register(cfg, s, r, s.queue[0], env.shakes(|s.handled|));
            served ==> Known(Take(s1), env)
  {
    var (s1, _, _) := Register(cfg, s, r, s.queue[0], env.shakes(|s.handled|));
    forall a <- s1.admitted
      ensures Granted(a, s.handled + [s.queue[0]], env)
    {
      assert a in s.admitted ==> Granted(a, s.handled, env);
    }
  }

  lemma {:induction false} FillKeepsKnown(cfg: Config, s: Sched, r: Round, env: Script)
    requires |s.slots| == |s.leave| && Known(s, env)
    ensures Known(Fill(cfg, s, r, env).0, env)
    decreases |s.queue|
  {
    if s.queue != [] {
      RegisterKeepsKnown(cfg, s, r, env);
      var (s1, r1, served) := Register(cfg, s, r, s.queue[0], env.shakes(|s.handled|));
      if served {
        FillKeepsKnown(cfg, Take(s1), r1, env);
      }
    }
  }

  lemma {:induction false} CreationKeepsKnown(cfg: Config, s: Sched, env: Script)
    requires |s.slots| == |s.leave| && Known(s, env)
    ensures Known(CreateRounds(cfg, s, env), env)
    decreases |s.queue|
  {
    FirstFreeIsFree(s.slots, 0);
    if !s.paused && FirstFree(s.slots, 0).Some? {
      FillKeepsKnown(cfg, Construct(s, FirstFree(s.slots, 0).value), Fresh(s.serial), env);
    }
    var (s1, made) := CreateRound(cfg, s, env);
    if made {
      CreationKeepsKnown(cfg, s1, env);
    }
  }

  lemma HandlingKeepsKnown(cfg: Config, s: Sched, receiving: seq<Event>, env: Script)
    requires |s.slots| == |s.leave| && Known(s, env)
    ensures Known(HandleAttraction(cfg, s, receiving, env), env)
  {
    hide CreateRounds, Granted;
    CreationKeepsKnown(cfg, HandleMailbox(s, receiving), env);
  }

  lemma IterateKeepsKnown(cfg: Config, s: Sched, p: Pass, env: Script)
    requires |s.slots| == |s.leave| && Known(s, env)
    ensures Known(Iterate(cfg, s, p, env), env)
  {
    hide HandleAttraction, Granted;
    if !Finished(s) {
      var s1 := Asleep(s, p);
      var w := Wait(s1.ch, Timeout(s), p.interrupted, p.expired);
      if w.Some? {
        HandlingKeepsKnown(cfg, SweepFrom(s1.(waiting := None, ch := w.value), 0, false), p.receiving, env);
      }
    }
  }

  lemma {:induction false} RunKeepsKnown(cfg: Config, s: Sched, ps: seq<Pass>, env: Script)
    requires |s.slots| == |s.leave| && Known(s, env)
    ensures Known(Run(cfg, s, ps, env), env)
    decreases |ps|
  {
    if ps != [] {
      IterateKeepsKnown(cfg, s, ps[0], env);
      RunKeepsKnown(cfg, Iterate(cfg, s, ps[0], env), ps[1..], env);
    }
  }

  /** Every rider of a running round has acknowledged a permit in a handshake for its own request. */
  lemma RidersHaveAcknowledged(cfg: Config, now: nat, ps: seq<Pass>, env: Script, i: nat, p: Pid)
    requires Usable(cfg)
    ensures var s := Run(cfg, Start(cfg, now), ps, env);
            i < |s.slots| && s.slots[i].Some? && p in s.slots[i].value.clients ==>
              exists k :: 0 <= k < |s.handled| && s.handled[k].pid == p && s.handled[k].visit.Some?
                          && Acknowledged(env.shakes(k))
  {
    RoundsAreSound(cfg, now, ps, env, i);
    RunKeepsKnown(cfg, Start(cfg, now), ps, env);
    var s := Run(cfg, Start(cfg, now), ps, env);
    if i < |s.slots| && s.slots[i].Some? && p in s.slots[i].value.clients {
      var a :| a in s.admitted && a.request.pid == p && a.request.visit.Some?;
      assert Granted(a, s.handled, env);
    }
  }

  /** Whom the worker's handshakes were with; a malformed request has none. */
  ghost function Asked(s: Sched): seq<Option<Pid>> {
    seq(|s.handled|, k requires 0 <= k < |s.handled| =>
      if s.handled[k].visit.Some? then Some(s.handled[k].pid) else None)
  }

  /** A worker whose handshakes are those of a run of the protocol: every rider has accepted a permit in it. */
  lemma RidersHaveAccepted(cfg: Config, now: nat, ps: seq<Pass>, env: Script, steps: seq<Protocol.Step>, at: seq<nat>,
                           i: nat, p: Pid)
    requires Usable(cfg)
    ensures var s, t := Run(cfg, Start(cfg, now), ps, env), Protocol.Exec(Protocol.INIT, steps);
            Protocol.Enacted(Asked(s), env.shakes, at, t)
            && i < |s.slots| && s.slots[i].Some? && p in s.slots[i].value.clients ==>
              exists k: nat :: Protocol.Accepted(t, k, p)
  {
    hide Run, Protocol.Exec;
    RidersHaveAcknowledged(cfg, now, ps, env, i, p);
    var s := Run(cfg, Start(cfg, now), ps, env);
    if i < |s.slots| && s.slots[i].Some? && p in s.slots[i].value.clients {
      var k: nat :| k < |s.handled| && s.handled[k].pid == p && s.handled[k].visit.Some? && Acknowledged(env.shakes(k));
      assert Asked(s)[k] == Some(p);
      Protocol.AcknowledgedMeansAccepted(steps, Asked(s), env.shakes, at, k);
    }
  }
}
