/** What a pause does to an attraction: to its rounds, and to its queue until the resume. */
module SchedulerPauses {
  import opened Common
  import opened Mailbox
  import opened Rounds
  import opened Layout
  import opened SchedulerSpec
  import opened SchedulerProofs
  import opened Serving

  // ----- Pausing -----

  /** While the worker is paused nobody is on the attraction. */
  ghost predicate CleanPause(s: Sched) {
    s.paused ==> AllFree(s)
  }

  ghost predicate AllFree(s: Sched) {
    forall i :: 0 <= i < |s.slots| ==> s.slots[i].None?
  }

  /** r has no round in a slot that was free in s. */
  ghost predicate NothingNew(s: Sched, r: Sched) {
    |r.slots| == |s.slots| && forall i :: 0 <= i < |r.slots| && s.slots[i].None? ==> r.slots[i].None?
  }

  lemma {:induction false} EventsKeepPauseClean(s: Sched, es: seq<Event>)
    requires |s.slots| == |s.leave|
    ensures NothingNew(s, DeliverAll(s, es))
    ensures CleanPause(s) ==> CleanPause(DeliverAll(s, es))
    decreases |es|
  {
    if es != [] {
      if es[0].Pause? {
        SweepEffect(BeginPause(s), true);
      }
      EventsKeepPauseClean(Deliver(s, es[0]), es[1..]);
    }
  }

  lemma RegisterKeepsPauseClean(cfg: Config, s: Sched, r: Round, q: Request, h: Shake)
    requires |s.slots| == |s.leave| && CleanPause(s)
    ensures CleanPause(Register(cfg, s, r, q, h).0) && NothingNew(s, Register(cfg, s, r, q, h).0)
  {
    if !h.Missing? {
      EventsKeepPauseClean(s, h.posting);
      if h.Sent? {
        EventsKeepPauseClean(DeliverAll(s, h.posting), h.awaiting);
      }
    }
  }

  lemma {:induction false} FillKeepsPauseClean(cfg: Config, s: Sched, r: Round, env: Script)
    requires |s.slots| == |s.leave| && CleanPause(s)
    ensures CleanPause(Fill(cfg, s, r, env).0) && NothingNew(s, Fill(cfg, s, r, env).0)
    decreases |s.queue|
  {
    if s.queue != [] {
      var (s1, r1, served) := Register(cfg, s, r, s.queue[0], env.shakes(|s.handled|));
      RegisterKeepsPauseClean(cfg, s, r, s.queue[0], env.shakes(|s.handled|));
      if served {
        FillKeepsPauseClean(cfg, Take(s1), r1, env);
      }
    }
  }

  function PausedAfter(paused: bool, es: seq<Event>): bool {
    After(paused, Pause, Resume, es)
  }

  /** A paused worker refuses whoever it serves. */
  function WorkerRules(cfg: Config): Rules<Event> {
    Rules(cfg.capacity, true, Close, Pause, Resume)
  }

  predicate Welcome(cfg: Config, q: Request) {
    q.visit.Some? && Meets(cfg, q.visit.value.person, q.visit.value.child, q.visit.value.hasChild)
  }

  function AsCall(cfg: Config, q: Request, h: Shake): Call<Event> {
    Call(q.pid, if q.visit.Some? then Some(Guest(q.visit.value.hasChild, FromPark)) else None, Welcome(cfg, q), h)
  }

  ghost function Calls(cfg: Config, s: Sched, env: Script): seq<Call<Event>> {
    seq(|s.queue|, k requires 0 <= k < |s.queue| => AsCall(cfg, s.queue[k], env.shakes(|s.handled| + k)))
  }

  lemma {:induction false} FlagsAfter(s: Sched, es: seq<Event>)
    requires |s.slots| == |s.leave|
    ensures DeliverAll(s, es).paused == PausedAfter(s.paused, es)
    ensures DeliverAll(s, es).open <==> s.open && Close !in es
    decreases |es|
  {
    if es != [] {
      FlagsAfter(Deliver(s, es[0]), es[1..]);
    }
  }

  lemma RegisterIsHeard(cfg: Config, s: Sched, r: Round, q: Request, h: Shake)
    requires |s.slots| == |s.leave| && !Refused(cfg, s, r, q)
    ensures var (s1, r1, _) := Register(cfg, s, r, q, h);
            var c, allowed := AsCall(cfg, q, h), s.open && !s.paused;
            var es := Heard(allowed, c);
            && s1.paused == PausedAfter(s.paused, es) && (s1.open <==> s.open && Close !in es)
            && r1 == Seated(allowed, r, c)
  {
    if q.visit.Some? && !h.Missing? {
      FlagsAfter(s, h.posting);
      if h.Sent? {
        FlagsAfter(DeliverAll(s, h.posting), h.awaiting);
        AfterConcat(s.paused, Pause, Resume, h.posting, h.awaiting);
      }
    }
  }

  lemma RefusedIfFull(cfg: Config, s: Sched, r: Round, q: Request, h: Shake)
    ensures Refused(cfg, s, r, q) <==> s.open && !s.paused && Full(WorkerRules(cfg), r, AsCall(cfg, q, h))
  {}

  lemma CallsOfRest(cfg: Config, s: Sched, s1: Sched, env: Script)
    requires s.queue != [] && s1.queue == s.queue && s1.handled == s.handled
    ensures var s2 := Take(s1);
            && Calls(cfg, s2, env) == Calls(cfg, s, env)[1..] && s2.open == s1.open && s2.paused == s1.paused
            && s2.handled + s2.queue == s.handled + s.queue && |s2.handled| == |s.handled| + 1
            && |s2.slots| == |s1.slots| && |s2.leave| == |s1.leave|
  {
    assert s.queue == [s.queue[0]] + s.queue[1..];
  }

  /** The worker's own serving loop ends with these flags, this round and this many served requests. */
  lemma {:induction false} FillIsServe(cfg: Config, s: Sched, r: Round, env: Script)
    requires |s.slots| == |s.leave|
    ensures var (s1, r1) := Fill(cfg, s, r, env);
            var g := Serve(WorkerRules(cfg), s.open, s.paused, r, Calls(cfg, s, env));
            && s1.open == g.open && s1.paused == g.paused && r1 == g.round
            && s1.handled + s1.queue == s.handled + s.queue && |s1.handled| == |s.handled| + g.served
    decreases |s.queue|
  {
    if s.queue != [] {
      var q, h := s.queue[0], env.shakes(|s.handled|);
      assert Calls(cfg, s, env)[0] == AsCall(cfg, q, h);
      RefusedIfFull(cfg, s, r, q, h);
      hide Register, Heard, Seated, Take, Calls, AsCall, Refused, Full;
      var (s1, r1, served) := Register(cfg, s, r, q, h);
      if served {
        RegisterIsHeard(cfg, s, r, q, h);
        CallsOfRest(cfg, s, s1, env);
        FillIsServe(cfg, Take(s1), r1, env);
      }
    }
  }

  ghost function ServeNext(cfg: Config, s: Sched, env: Script): Gate {
    Serve(WorkerRules(cfg), s.open, false, Fresh(s.serial), Calls(cfg, s, env))
  }

  /**
    * A call of pCreateNewHandler, seen from outside: exactly the riders seated in the handshakes served are installed,
    * in the first free slot, as a round that ends one duration after its installation.
    */
  lemma NewRoundIsServe(cfg: Config, s: Sched, env: Script)
    requires |s.slots| == |s.leave| && !s.paused && FirstFree(s.slots, 0).Some?
    ensures var (r, made) := NewRound(cfg, s, env);
            var g := ServeNext(cfg, s, env);
            && r.paused == g.paused && r.open == g.open && made == (g.round.clients != map[])
            && r.handled + r.queue == s.handled + s.queue && |r.handled| == |s.handled| + g.served
            && (made ==>
                 var i := FirstFree(s.slots, 0).value;
                 && i < |r.slots|
                 && r.slots[i] == Some(Round(s.serial, g.round.clients, r.now + cfg.duration, true, false)))
  {
    FirstFreeIsFree(s.slots, 0);
    ServedRound(WorkerRules(cfg), s.open, false, Fresh(s.serial), Calls(cfg, s, env));
    var c := Construct(s, FirstFree(s.slots, 0).value);
    assert Calls(cfg, c, env) == Calls(cfg, s, env);
    FillIsServe(cfg, c, Fresh(s.serial), env);
  }

  /**
    * The installation does not look at the pause flag again. Whether a call of pCreateNewHandler leaves a round
    * running under pause can be told from the flags, the queue and the handshakes: someone boards, and a pause
    * during these handshakes outlasts them.
    */
  lemma PauseBrokenExactly(cfg: Config, s: Sched, env: Script)
    requires |s.slots| == |s.leave| && CleanPause(s)
    ensures var g := ServeNext(cfg, s, env);
            !CleanPause(NewRound(cfg, s, env).0) <==>
              !s.paused && FirstFree(s.slots, 0).Some? && g.paused && g.round.clients != map[]
  {
    FirstFreeIsFree(s.slots, 0);
    var free := FirstFree(s.slots, 0);
    if !s.paused && free.Some? {
      FillKeepsPauseClean(cfg, Construct(s, free.value), Fresh(s.serial), env);
      NewRoundIsServe(cfg, s, env);
      var (r, made) := NewRound(cfg, s, env);
      assert made ==> r.slots[free.value].Some?;
    }
  }

  ghost predicate NoResume(es: seq<Event>) {
    Resume !in es
  }

  /** Without a resume signal: the pause is broken exactly if someone boards and a served handshake contains a pause. */
  lemma PauseBrokenByHandshake(cfg: Config, s: Sched, env: Script)
    requires Usable(cfg) && |s.slots| == |s.leave| && !s.paused && FirstFree(s.slots, 0).Some?
    requires NeverHeard(Resume, Calls(cfg, s, env))
    ensures var rules, calls := WorkerRules(cfg), Calls(cfg, s, env);
            !CleanPause(NewRound(cfg, s, env).0) <==>
              && SomeoneBoards(rules, s.open, calls)
              && HearsWithin(rules, Pause, s.open, calls, ServeNext(cfg, s, env).served)
  {
    PauseBrokenExactly(cfg, s, env);
    BoardsExactly(WorkerRules(cfg), s.open, false, Fresh(s.serial), Calls(cfg, s, env));
    PausesExactly(WorkerRules(cfg), s.open, false, Fresh(s.serial), Calls(cfg, s, env));
  }

  // ----- When a pause is clean -----

  ghost predicate NoPause(es: seq<Event>) {
    Pause !in es
  }

  lemma {:induction false} EventsDoNotPause(s: Sched, es: seq<Event>)
    requires |s.slots| == |s.leave| && Pause !in es && !s.paused
    ensures !DeliverAll(s, es).paused
    decreases |es|
  {
    if es != [] {
      EventsDoNotPause(Deliver(s, es[0]), es[1..]);
    }
  }

  lemma {:induction false} FillDoesNotPause(cfg: Config, s: Sched, r: Round, env: Script)
    requires |s.slots| == |s.leave| && !s.paused && forall i :: Throughout(env.shakes(i), NoPause)
    ensures !Fill(cfg, s, r, env).0.paused
    decreases |s.queue|
  {
    if s.queue != [] {
      var h := env.shakes(|s.handled|);
      if !h.Missing? {
        EventsDoNotPause(s, h.posting);
        if h.Sent? {
          EventsDoNotPause(DeliverAll(s, h.posting), h.awaiting);
        }
      }
      var (s1, r1, served) := Register(cfg, s, r, s.queue[0], h);
      if served {
        FillDoesNotPause(cfg, Take(s1), r1, env);
      }
    }
  }

  lemma NewRoundDoesNotPause(cfg: Config, s: Sched, env: Script)
    requires |s.slots| == |s.leave| && forall i :: Throughout(env.shakes(i), NoPause)
    ensures NewRound(cfg, s, env).0 == s || !NewRound(cfg, s, env).0.paused
  {
    FirstFreeIsFree(s.slots, 0);
    if !s.paused && FirstFree(s.slots, 0).Some? {
      FillDoesNotPause(cfg, Construct(s, FirstFree(s.slots, 0).value), Fresh(s.serial), env);
    }
  }

  lemma {:induction false} CreationKeepsPauseClean(cfg: Config, s: Sched, env: Script)
    requires |s.slots| == |s.leave| && CleanPause(s) && forall i :: Throughout(env.shakes(i), NoPause)
    ensures CleanPause(CreateRounds(cfg, s, env))
    decreases |s.queue|
  {
    NewRoundDoesNotPause(cfg, s, env);
    var (s1, made) := NewRound(cfg, s, env);
    if made {
      EventsKeepPauseClean(s1, env.logs(|s1.handled|));
      CreationKeepsPauseClean(cfg, CreateRound(cfg, s, env).0, env);
    }
  }

  lemma HandlingKeepsPauseClean(cfg: Config, s: Sched, receiving: seq<Event>, env: Script)
    requires |s.slots| == |s.leave| && CleanPause(s) && forall i :: Throughout(env.shakes(i), NoPause)
    ensures CleanPause(HandleAttraction(cfg, s, receiving, env))
  {
    if !s.paused {
      EventsKeepPauseClean(s, receiving);
      var s1 := DeliverAll(s, receiving);
      var s2 := HandleMailbox(s, receiving);
      RemoveFromEffect(s1.slots, 0, if s1.ch.box != [] then s1.ch.box[0].from else 0);
      assert CleanPause(s2);
      CreationKeepsPauseClean(cfg, s2, env);
    }
  }

  lemma IterateKeepsPauseClean(cfg: Config, s: Sched, p: Pass, env: Script)
    requires |s.slots| == |s.leave| && CleanPause(s) && forall i :: Throughout(env.shakes(i), NoPause)
    ensures CleanPause(Iterate(cfg, s, p, env))
  {
    if !Finished(s) {
      var timeout := if s.waiting.Some? then s.waiting.value else NextTimeout(s);
      var s0 := s.(waiting := Some(timeout));
      EventsKeepPauseClean(s0, p.asleep);
      var s1 := DeliverAll(s0, p.asleep);
      var w := Wait(s1.ch, timeout, p.interrupted, p.expired);
      if w.Some? {
        var s2 := s1.(waiting := None, ch := w.value);
        SweepEffect(s2, false);
        var s3 := SweepFrom(s2, 0, false);
        HandlingKeepsPauseClean(cfg, s3, p.receiving, env);
        EventsKeepPauseClean(HandleAttraction(cfg, s3, p.receiving, env), p.between);
      }
    }
  }

  /** With no pause during a handshake, every state in which the worker is paused has all slots empty. */
  lemma {:induction false} PauseIsClean(cfg: Config, s: Sched, ps: seq<Pass>, env: Script)
    requires |s.slots| == |s.leave| && CleanPause(s) && forall i :: Throughout(env.shakes(i), NoPause)
    ensures CleanPause(Run(cfg, s, ps, env))
    decreases |ps|
  {
    if ps != [] {
      IterateKeepsPauseClean(cfg, s, ps[0], env);
      PauseIsClean(cfg, Iterate(cfg, s, ps[0], env), ps[1..], env);
    }
  }

  /** A pause that reaches the worker while it waits for the first acknowledgement leaves a running round behind. */
  lemma PauseDuringHandshake(cfg: Config, s: Sched, env: Script)
    requires Usable(cfg) && |s.slots| == |s.leave| && FirstFree(s.slots, 0).Some? && !s.paused && s.open
    requires NeverHeard(Resume, Calls(cfg, s, env)) && s.queue != [] && Welcome(cfg, s.queue[0])
    requires env.shakes(|s.handled|) == Sent([], Ack, [Pause])
    ensures var r := NewRound(cfg, s, env).0;
            r.paused && !CleanPause(r)
  {
    var rules, calls := WorkerRules(cfg), Calls(cfg, s, env);
    PauseBrokenByHandshake(cfg, s, env);
    assert Heard(true, calls[0]) == [Pause];
    assert SeatAt(rules, s.open, calls, 0) && HearsAt(rules, Pause, s.open, calls, 0);
    LoadEmpty(Fresh(s.serial).clients);
  }

  lemma {:induction false} PauseEmpties(s: Sched, es: seq<Event>)
    requires |s.slots| == |s.leave| && Pause in es
    ensures AllFree(DeliverAll(s, es))
    decreases |es|
  {
    hide SweepFrom;
    assert es == [es[0]] + es[1..];
    var s1 := Deliver(s, es[0]);
    if es[0].Pause? {
      SweepEffect(BeginPause(s), true);
      assert AllFree(s1);
      EventsKeepPauseClean(s1, es[1..]);
    } else {
      PauseEmpties(s1, es[1..]);
    }
  }

  /**
    * The log line that follows the installation of a round is different from a handshake: a pause during it lets the
    * riders of the new round go like all others, ends the creation loop and keeps the rest of the queue.
    */
  lemma PauseDuringLog(cfg: Config, s: Sched, env: Script)
    requires |s.slots| == |s.leave| && NewRound(cfg, s, env).1
    requires var log := env.logs(|NewRound(cfg, s, env).0.handled|);
             Pause in log && NoResume(log)
    ensures var s1, r := NewRound(cfg, s, env).0, CreateRounds(cfg, s, env);
            && r.paused && AllFree(r)
            && r.queue == s1.queue && r.handled == s1.handled && r.serial == s1.serial
  {
    hide NewRound, DeliverAll;
    var s1 := NewRound(cfg, s, env).0;
    var log := env.logs(|s1.handled|);
    PauseEmpties(s1, log);
    FlagsAfter(s1, log);
    AfterExactly(s1.paused, Pause, Resume, log);
    var s2 := DeliverAll(s1, log);
    PausedCreatesNothing(cfg, s2, env);
  }

  lemma PausedCreatesNothing(cfg: Config, s: Sched, env: Script)
    requires |s.slots| == |s.leave| && s.paused
    ensures CreateRounds(cfg, s, env) == s
  {}

  // ----- From a pause to the resume -----

  /** While it is paused the worker has served no request, taken in none and started no round. */
  ghost predicate StandStill(s: Sched) {
    s.paused ==> s.held == Mark(s.queue, s.handled, s.serial)
  }

  lemma {:induction false} EventsKeepStill(s: Sched, es: seq<Event>)
    requires |s.slots| == |s.leave| && StandStill(s)
    ensures StandStill(DeliverAll(s, es))
    decreases |es|
  {
    if es != [] {
      EventsKeepStill(Deliver(s, es[0]), es[1..]);
    }
  }

  /** A pause during the receive lets the letter through: the queue grows exactly if it is a request. */
  lemma PauseDuringReceive(s: Sched, receiving: seq<Event>)
    requires |s.slots| == |s.leave| && !s.paused && PausedAfter(false, receiving)
    ensures var s1 := DeliverAll(s, receiving);
            var r := HandleMailbox(s, receiving);
            && r.paused && r.held.queue == s.queue
            && r.queue == s.queue + (if s1.ch.box != [] && s1.ch.box[0].body.EnterAttraction?
                                     then [Request(s1.ch.box[0].from, s1.ch.box[0].body.visit)] else [])
            && (StandStill(r) <==> s1.ch.box == [] || !s1.ch.box[0].body.EnterAttraction?)
  {
    FlagsAfter(s, receiving);
    EventsKeepStill(s, receiving);
  }

  lemma {:induction false} PausedFillDropsQueue(cfg: Config, s: Sched, r: Round, env: Script)
    requires |s.slots| == |s.leave| && (s.paused ==> s.held.queue != [])
    ensures var s1 := Fill(cfg, s, r, env).0;
            s1.paused ==> s1.queue == [] && s1.held.queue != []
    decreases |s.queue|
  {
    if s.queue != [] {
      var h := env.shakes(|s.handled|);
      HeldIsNotEmpty(s, if h.Missing? then [] else h.posting);
      if h.Sent? {
        HeldIsNotEmpty(DeliverAll(s, h.posting), h.awaiting);
      }
      var (s1, r1, served) := Register(cfg, s, r, s.queue[0], h);
      if served {
        PausedFillDropsQueue(cfg, Take(s1), r1, env);
      }
    }
  }

  lemma {:induction false} HeldIsNotEmpty(s: Sched, es: seq<Event>)
    requires |s.slots| == |s.leave| && s.queue != [] && (s.paused ==> s.held.queue != [])
    ensures var r := DeliverAll(s, es);
            r.paused ==> r.held.queue != []
    decreases |es|
  {
    if es != [] {
      HeldIsNotEmpty(Deliver(s, es[0]), es[1..]);
    }
  }

  /**
    * A pause during a handshake refuses and drops every request that is left, so a call of pCreateNewHandler keeps the
    * queue of the pause exactly if the flags do not end paused.
    */
  lemma PauseDropsQueueExactly(cfg: Config, s: Sched, env: Script)
    requires |s.slots| == |s.leave| && !s.paused && FirstFree(s.slots, 0).Some?
    ensures var r := NewRound(cfg, s, env).0;
            && (!StandStill(r) <==> ServeNext(cfg, s, env).paused)
            && (ServeNext(cfg, s, env).paused ==>
                 r.paused && r.queue == [] && r.handled == s.handled + s.queue && r.held.queue != [])
  {
    FirstFreeIsFree(s.slots, 0);
    NewRoundIsServe(cfg, s, env);
    PausedFillDropsQueue(cfg, Construct(s, FirstFree(s.slots, 0).value), Fresh(s.serial), env);
  }

  /** Some call of the creation loop serves the queue into a pause. */
  ghost predicate ServesIntoPause(cfg: Config, s: Sched, env: Script)
    requires |s.slots| == |s.leave|
    decreases |s.queue|
  {
    && !s.paused && FirstFree(s.slots, 0).Some?
    && (ServeNext(cfg, s, env).paused ||
        var (s1, made) := CreateRound(cfg, s, env);
        made && ServesIntoPause(cfg, s1, env))
  }

  ghost predicate ScriptWithoutResume(env: Script) {
    forall i :: Throughout(env.shakes(i), NoResume) && NoResume(env.logs(i))
  }

  lemma {:induction false} EventsKeepBroken(s: Sched, es: seq<Event>)
    requires |s.slots| == |s.leave| && s.paused && !StandStill(s) && NoResume(es)
    ensures DeliverAll(s, es).paused && !StandStill(DeliverAll(s, es))
    decreases |es|
  {
    if es != [] {
      EventsKeepBroken(Deliver(s, es[0]), es[1..]);
    }
  }

  lemma {:induction false} CreationBreaksStillExactly(cfg: Config, s: Sched, env: Script)
    requires |s.slots| == |s.leave| && StandStill(s) && ScriptWithoutResume(env)
    ensures !StandStill(CreateRounds(cfg, s, env)) <==> ServesIntoPause(cfg, s, env)
    decreases |s.queue|
  {
    if !s.paused && FirstFree(s.slots, 0).Some? {
      NewRoundIsServe(cfg, s, env);
      PauseDropsQueueExactly(cfg, s, env);
      var (s1, made) := NewRound(cfg, s, env);
      if made {
        var s2 := CreateRound(cfg, s, env).0;
        if s1.paused {
          EventsKeepBroken(s1, env.logs(|s1.handled|));
        } else {
          EventsKeepStill(s1, env.logs(|s1.handled|));
          CreationBreaksStillExactly(cfg, s2, env);
        }
      }
    }
  }

  /**
    * Without a resume signal: the handling of a wake-up ends paused with a queue that is not that of the pause exactly
    * if the pause falls into a receive that reads a request, or outlasts the handshakes of some call.
    */
  lemma HandlingBreaksStillExactly(cfg: Config, s: Sched, receiving: seq<Event>, env: Script)
    requires |s.slots| == |s.leave| && !s.paused && NoResume(receiving) && ScriptWithoutResume(env)
    ensures var box := DeliverAll(s, receiving).ch.box;
            var s1 := HandleMailbox(s, receiving);
            !StandStill(HandleAttraction(cfg, s, receiving, env)) <==>
              if Pause in receiving then box != [] && box[0].body.EnterAttraction?
              else (|s1.queue| > cfg.capacity || s1.ch.box == []) && ServesIntoPause(cfg, s1, env)
  {
    AfterExactly(false, Pause, Resume, receiving);
    var s1 := HandleMailbox(s, receiving);
    if Pause in receiving {
      PauseDuringReceive(s, receiving);
      assert CreateRounds(cfg, s1, env) == s1;
    } else {
      EventsDoNotPause(s, receiving);
      CreationBreaksStillExactly(cfg, s1, env);
    }
  }

  lemma {:induction false} CreationKeepsStill(cfg: Config, s: Sched, env: Script)
    requires |s.slots| == |s.leave| && StandStill(s) && forall i :: Throughout(env.shakes(i), NoPause)
    ensures StandStill(CreateRounds(cfg, s, env))
    decreases |s.queue|
  {
    NewRoundDoesNotPause(cfg, s, env);
    var (s1, made) := NewRound(cfg, s, env);
    if made {
      EventsKeepStill(s1, env.logs(|s1.handled|));
      CreationKeepsStill(cfg, CreateRound(cfg, s, env).0, env);
    }
  }

  lemma HandlingKeepsStill(cfg: Config, s: Sched, receiving: seq<Event>, env: Script)
    requires |s.slots| == |s.leave| && StandStill(s)
    requires NoPause(receiving) && forall i :: Throughout(env.shakes(i), NoPause)
    ensures StandStill(HandleAttraction(cfg, s, receiving, env))
  {
    if !s.paused {
      EventsDoNotPause(s, receiving);
      CreationKeepsStill(cfg, HandleMailbox(s, receiving), env);
    }
  }

  lemma IterateKeepsStill(cfg: Config, s: Sched, p: Pass, env: Script)
    requires |s.slots| == |s.leave| && StandStill(s)
    requires NoPause(p.receiving) && forall i :: Throughout(env.shakes(i), NoPause)
    ensures StandStill(Iterate(cfg, s, p, env))
  {
    if !Finished(s) {
      var timeout := if s.waiting.Some? then s.waiting.value else NextTimeout(s);
      var s0 := s.(waiting := Some(timeout));
      EventsKeepStill(s0, p.asleep);
      var s1 := DeliverAll(s0, p.asleep);
      var w := Wait(s1.ch, timeout, p.interrupted, p.expired);
      if w.Some? {
        var s3 := SweepFrom(s1.(waiting := None, ch := w.value), 0, false);
        HandlingKeepsStill(cfg, s3, p.receiving, env);
        EventsKeepStill(HandleAttraction(cfg, s3, p.receiving, env), p.between);
      }
    }
  }

  /**
    * From a pause to its resume the queue stands still and no round starts, over every run in which pauses come while
    * the worker sleeps or writes its log, and not during a receive or a handshake.
    */
  lemma {:induction false} PauseFreezesQueue(cfg: Config, s: Sched, ps: seq<Pass>, env: Script)
    requires |s.slots| == |s.leave| && StandStill(s)
    requires (forall p <- ps :: NoPause(p.receiving)) && forall i :: Throughout(env.shakes(i), NoPause)
    ensures StandStill(Run(cfg, s, ps, env))
    decreases |ps|
  {
    if ps != [] {
      assert ps[0] in ps;
      IterateKeepsStill(cfg, s, ps[0], env);
      PauseFreezesQueue(cfg, Iterate(cfg, s, ps[0], env), ps[1..], env);
    }
  }
}
