/** How long an attraction's worker sleeps, and which wake-ups it loses. */
module SchedulerWaits {
  import opened Common
  import opened Mailbox
  import opened Rounds
  import opened Layout
  import opened SchedulerSpec
  import opened SchedulerProofs
  import opened SchedulerPauses
  import opened SchedulerTheorems

  // ----- The wait -----

  ghost predicate Running(s: Sched, i: nat) {
    i < |s.slots| && s.slots[i].Some? && s.slots[i].value.finish != 0
  }

  lemma {:induction false} MinFinishIsMinimum(slots: seq<Option<Round>>)
    ensures var m := MinFinish(slots);
            && (m.Some? ==> exists i :: 0 <= i < |slots| && slots[i].Some? && slots[i].value.finish == m.value != 0)
            && (forall i :: 0 <= i < |slots| && slots[i].Some? && slots[i].value.finish != 0 ==>
                 m.Some? && m.value <= slots[i].value.finish)
  {
    if slots != [] {
      var n := |slots| - 1;
      MinFinishIsMinimum(slots[..n]);
    }
  }

  /** The worker sleeps until the earliest finish time. */
  lemma NextTimeoutIsMinimum(s: Sched)
    ensures (forall i: nat :: !Running(s, i)) ==> NextTimeout(s) == -1
    ensures (exists i: nat :: Running(s, i)) ==>
              exists i: nat :: Running(s, i) && NextTimeout(s) == s.slots[i].value.finish - s.now
    ensures forall i: nat :: Running(s, i) ==> NextTimeout(s) <= s.slots[i].value.finish - s.now
  {
    MinFinishIsMinimum(s.slots);
    var m := MinFinish(s.slots);
    if m.Some? {
      var i: nat :| i < |s.slots| && s.slots[i].Some? && s.slots[i].value.finish == m.value;
      assert Running(s, i);
    }
  }

  /** A wait that no expiry can end: nothing runs, or the earliest round is overdue by exactly one second. */
  lemma SleepsForeverExactly(s: Sched, ch: Channel<Message>)
    requires ch.tokens == 0
    ensures Wait(ch, NextTimeout(s), false, true).None? <==>
              MinFinish(s.slots).None? || MinFinish(s.slots).value == s.now - 1
  {}

  /** A letter that is posted and signalled while the worker sleeps. */
  lemma LetterArrives(s: Sched, l: Letter<Message>)
    requires |s.slots| == |s.leave| && s.ch.box == [] && s.ch.pending == {}
    ensures var r := DeliverAll(s, [Mail(Post(l)), Mail(Signal(l.from))]);
            && r == s.(ch := r.ch) && r.ch.box == [l] && r.ch.pending == {} && r.ch.hand == s.ch.hand
            && r.ch.tokens == s.ch.tokens + 1
  {
    var es := [Mail(Post(l)), Mail(Signal(l.from))];
    var s1 := Deliver(s, es[0]);
    assert s1.ch.box == [l] && s1.ch.pending == {l.from};
    var s2 := Deliver(s1, es[1]);
    assert s2.ch.pending == {};
    assert es[1..] == [es[1]] && DeliverAll(s1, [es[1]]) == DeliverAll(s2, []);
  }

  /** A worker in its initial state that is asked for a ride, and is delayed by one second more than it lasts. */
  function LatePass(cfg: Config, l: Letter<Message>): Pass {
    Pass([Mail(Post(l)), Mail(Signal(l.from))], false, false, [], [Elapse(cfg.duration + 1)])
  }

  lemma FirstRideStarts(cfg: Config, s: Sched, l: Letter<Message>, env: Script)
    requires Usable(cfg) && |s.slots| == |s.leave| == cfg.handlers && s.slots[0].None?
    requires !s.paused && s.open && s.queue == [] && s.ch.box == [l]
    requires l.body.EnterAttraction? && Welcome(cfg, Request(l.from, l.body.visit))
    requires env.shakes(|s.handled|) == Sent([], Ack, []) && env.logs(|s.handled| + 1) == []
    ensures var r := HandleAttraction(cfg, s, [], env);
            && r.slots[0].Some? && r.slots[0].value.finish == s.now + cfg.duration
            && (forall j :: 1 <= j < |s.slots| ==> r.slots[j] == s.slots[j]) && |r.slots| == |s.slots|
            && r.now == s.now && r.open && r.ch.box == [] && r.ch.tokens == s.ch.tokens && r.ch.pending == s.ch.pending
            && r.waiting == s.waiting && r.queue == []
  {
    var s1 := HandleMailbox(s, []);
    var q := Request(l.from, l.body.visit);
    assert s1.queue == [q] && s1.slots == s.slots && s1.ch.box == [];
    var c, f := Construct(s1, 0), Fresh(s1.serial);
    LoadEmpty(f.clients);
    var (s2, r1, served) := Register(cfg, c, f, q, Sent([], Ack, []));
    assert served && q.pid in r1.clients;
    assert Fill(cfg, c, f, env) == (Take(s2), r1);
    var s3 := NewRound(cfg, s1, env).0;
    assert s3.slots == s1.slots[0 := s3.slots[0]] && |s3.handled| == |s.handled| + 1;
    assert CreateRound(cfg, s1, env) == (s3, true);
    NothingToServe(cfg, s3, env);
  }

  lemma NothingToServe(cfg: Config, s: Sched, env: Script)
    requires |s.slots| == |s.leave| && s.queue == []
    ensures var r := CreateRounds(cfg, s, env);
            r == s.(leave := r.leave, serial := r.serial, freed := r.freed) && |r.leave| == |s.leave|
  {
    FirstFreeIsFree(s.slots, 0);
  }

  /**
    * It does happen: a worker that comes back to its loop one second after the end of its only round takes the delay
    * for no timeout, and sleeps with the round still running until somebody else wakes it.
    */
  lemma OverdueRoundSleepsOn(cfg: Config, now: nat, l: Letter<Message>, env: Script)
    requires Usable(cfg) && l.body.EnterAttraction? && Welcome(cfg, Request(l.from, l.body.visit))
    requires env.shakes(0) == Sent([], Ack, []) && env.logs(1) == []
    ensures var s := Iterate(cfg, Start(cfg, now), LatePass(cfg, l), env);
            && s.slots[0].Some? && s.slots[0].value.finish == s.now - 1 && s.ch.box == []
            && NextTimeout(s) == -1 && Wait(s.ch, NextTimeout(s), false, true).None?
  {
    hide Iterate, HandleAttraction, NextTimeout, Welcome, DeliverAll;
    var s, p := Start(cfg, now), LatePass(cfg, l);
    var s3 := WakesToLetter(cfg, s, l, p, env);
    FirstRideStarts(cfg, s3, l, env);
    var s4 := HandleAttraction(cfg, s3, [], env);
    DeliverOne(s4, Elapse(cfg.duration + 1));
    OneRound(Deliver(s4, Elapse(cfg.duration + 1)));
  }

  /** A worker with nothing to do is woken by a letter; s3 is its state when it begins to handle it. */
  lemma WakesToLetter(cfg: Config, s: Sched, l: Letter<Message>, p: Pass, env: Script) returns (s3: Sched)
    requires |s.slots| == |s.leave| && forall i :: 0 <= i < |s.slots| ==> s.slots[i].None?
    requires s.open && !s.paused && s.waiting.None? && s.queue == [] && s.handled == []
    requires s.ch.box == [] && s.ch.pending == {} && s.ch.tokens == 0
    requires p.asleep == [Mail(Post(l)), Mail(Signal(l.from))] && !p.interrupted
    ensures |s3.slots| == |s3.leave| == |s.slots| && forall i :: 0 <= i < |s3.slots| ==> s3.slots[i].None?
    ensures s3.open && !s3.paused && s3.waiting.None? && s3.queue == [] && s3.handled == [] && s3.now == s.now
    ensures s3.ch.box == [l] && s3.ch.tokens == 0 && s3.ch.pending == {}
    ensures Iterate(cfg, s, p, env) == DeliverAll(HandleAttraction(cfg, s3, p.receiving, env), p.between)
  {
    NothingRuns(s);
    var s0 := s.(waiting := Some(-1));
    LetterArrives(s0, l);
    hide DeliverAll, NextTimeout, HandleAttraction, SweepFrom;
    var s1 := DeliverAll(s0, p.asleep);
    var s2 := s1.(waiting := None, ch := Wait(s1.ch, -1, false, p.expired).value);
    NothingRuns(s2);
    s3 := SweepFrom(s2, 0, false);
  }

  lemma DeliverOne(s: Sched, e: Event)
    requires |s.slots| == |s.leave|
    ensures DeliverAll(s, [e]) == Deliver(s, e)
  {
    assert DeliverAll(Deliver(s, e), []) == Deliver(s, e);
  }

  lemma OneRound(s: Sched)
    requires s.slots != [] && s.slots[0].Some? && s.slots[0].value.finish != 0
    requires forall j :: 1 <= j < |s.slots| ==> s.slots[j].None?
    ensures NextTimeout(s) == s.slots[0].value.finish - s.now
  {
    NextTimeoutIsMinimum(s);
    assert Running(s, 0);
    assert forall i: nat :: Running(s, i) ==> i == 0;
  }

  // ----- Wake-ups -----

  /** A paused worker spends tokens without reading, and only those can be missing later. */
  lemma UnreadLettersAreCovered(cfg: Config, now: nat, ps: seq<Pass>, env: Script)
    requires Usable(cfg)
    ensures var s := Run(cfg, Start(cfg, now), ps, env);
            |s.ch.box| <= s.ch.tokens + |s.ch.pending| + s.ch.skipped
  {
    Reachable(cfg, now, ps, env);
  }

  /** The state in which the worker of pass p has slept. */
  ghost function Asleep(s: Sched, p: Pass): Sched
    requires |s.slots| == |s.leave|
  {
    DeliverAll(s.(waiting := Some(Timeout(s))), p.asleep)
  }

  ghost function Timeout(s: Sched): int {
    if s.waiting.Some? then s.waiting.value else NextTimeout(s)
  }

  lemma {:induction false} EventsKeepSkipped(s: Sched, es: seq<Event>)
    requires |s.slots| == |s.leave|
    ensures DeliverAll(s, es).ch.skipped == s.ch.skipped
    decreases |es|
  {
    if es != [] {
      EventsKeepSkipped(Deliver(s, es[0]), es[1..]);
    }
  }

  lemma {:induction false} FillKeepsSkipped(cfg: Config, s: Sched, r: Round, env: Script)
    requires |s.slots| == |s.leave|
    ensures Fill(cfg, s, r, env).0.ch.skipped == s.ch.skipped
    decreases |s.queue|
  {
    if s.queue != [] {
      var h := env.shakes(|s.handled|);
      EventsKeepSkipped(s, if h.Missing? then [] else h.posting);
      if h.Sent? {
        EventsKeepSkipped(DeliverAll(s, h.posting), h.awaiting);
      }
      var (s1, r1, served) := Register(cfg, s, r, s.queue[0], h);
      if served {
        FillKeepsSkipped(cfg, Take(s1), r1, env);
      }
    }
  }

  lemma {:induction false} CreationKeepsSkipped(cfg: Config, s: Sched, env: Script)
    requires |s.slots| == |s.leave|
    ensures CreateRounds(cfg, s, env).ch.skipped == s.ch.skipped
    decreases |s.queue|
  {
    FirstFreeIsFree(s.slots, 0);
    if !s.paused && FirstFree(s.slots, 0).Some? {
      FillKeepsSkipped(cfg, Construct(s, FirstFree(s.slots, 0).value), Fresh(s.serial), env);
    }
    var (s1, made) := NewRound(cfg, s, env);
    if made {
      EventsKeepSkipped(s1, env.logs(|s1.handled|));
      CreationKeepsSkipped(cfg, CreateRound(cfg, s, env).0, env);
    }
  }

  lemma HandlingSkipsExactly(cfg: Config, s: Sched, receiving: seq<Event>, env: Script)
    requires |s.slots| == |s.leave|
    ensures HandleAttraction(cfg, s, receiving, env).ch.skipped ==
            s.ch.skipped + if s.paused && s.ch.hand then 1 else 0
  {
    if !s.paused {
      EventsKeepSkipped(s, receiving);
      CreationKeepsSkipped(cfg, HandleMailbox(s, receiving), env);
    }
  }

  /** A pass spends a token without reading exactly if it finds one, uninterrupted, while the worker is paused. */
  lemma SkipsExactly(cfg: Config, s: Sched, p: Pass, env: Script)
    requires |s.slots| == |s.leave| && !s.ch.hand
    ensures var s1 := Asleep(s, p);
            Iterate(cfg, s, p, env).ch.skipped == s.ch.skipped +
              if !Finished(s) && s1.paused && Timeout(s) >= -1 && !p.interrupted && s1.ch.tokens > 0 then 1 else 0
  {
    if !Finished(s) {
      EventsKeepHand(s.(waiting := Some(Timeout(s))), p.asleep);
      EventsKeepSkipped(s.(waiting := Some(Timeout(s))), p.asleep);
      var s1 := Asleep(s, p);
      var w := Wait(s1.ch, Timeout(s), p.interrupted, p.expired);
      if w.Some? {
        var s3 := SweepFrom(s1.(waiting := None, ch := w.value), 0, false);
        HandlingSkipsExactly(cfg, s3, p.receiving, env);
        EventsKeepSkipped(HandleAttraction(cfg, s3, p.receiving, env), p.between);
      }
    }
  }

  lemma {:induction false} EventsKeepHand(s: Sched, es: seq<Event>)
    requires |s.slots| == |s.leave|
    ensures DeliverAll(s, es).ch.hand == s.ch.hand
    decreases |es|
  {
    if es != [] {
      EventsKeepHand(Deliver(s, es[0]), es[1..]);
    }
  }

  /** No pause signal reaches the worker, whatever it is doing. */
  ghost predicate NeverPaused(ps: seq<Pass>, env: Script) {
    && (forall p <- ps :: NoPause(p.asleep) && NoPause(p.receiving) && NoPause(p.between))
    && forall i :: Throughout(env.shakes(i), NoPause) && NoPause(env.logs(i))
  }

  lemma {:induction false} CreationDoesNotPause(cfg: Config, s: Sched, env: Script)
    requires |s.slots| == |s.leave| && !s.paused && NeverPaused([], env)
    ensures !CreateRounds(cfg, s, env).paused
    decreases |s.queue|
  {
    NewRoundDoesNotPause(cfg, s, env);
    var (s1, made) := NewRound(cfg, s, env);
    if made {
      EventsDoNotPause(s1, env.logs(|s1.handled|));
      CreationDoesNotPause(cfg, CreateRound(cfg, s, env).0, env);
    }
  }

  lemma PassDoesNotPause(cfg: Config, s: Sched, p: Pass, env: Script)
    requires |s.slots| == |s.leave| && !s.paused && NeverPaused([p], env) && !s.ch.hand
    ensures var r := Iterate(cfg, s, p, env);
            !r.paused && r.ch.skipped == s.ch.skipped
  {
    assert p in [p];
    SkipsExactly(cfg, s, p, env);
    if !Finished(s) {
      EventsDoNotPause(s.(waiting := Some(Timeout(s))), p.asleep);
      var s1 := Asleep(s, p);
      var w := Wait(s1.ch, Timeout(s), p.interrupted, p.expired);
      if w.Some? {
        var s3 := SweepFrom(s1.(waiting := None, ch := w.value), 0, false);
        EventsDoNotPause(s3, p.receiving);
        var s4 := HandleMailbox(s3, p.receiving);
        CreationDoesNotPause(cfg, s4, env);
        EventsDoNotPause(HandleAttraction(cfg, s3, p.receiving, env), p.between);
      }
    }
  }

  lemma {:induction false} NeverPausedSkipsNone(cfg: Config, s: Sched, ps: seq<Pass>, env: Script)
    requires Usable(cfg) && Sound(cfg, s, s.serial) && !s.ch.hand && !s.paused && NeverPaused(ps, env)
    ensures Run(cfg, s, ps, env).ch.skipped == s.ch.skipped
    decreases |ps|
  {
    if ps != [] {
      assert ps[0] in ps;
      PassDoesNotPause(cfg, s, ps[0], env);
      IterateKeeps(cfg, s, ps[0], env);
      NeverPausedSkipsNone(cfg, Iterate(cfg, s, ps[0], env), ps[1..], env);
    }
  }

  /** So a worker that is never paused loses no wake-up, like the cashier ... */
  lemma NeverPausedLosesNone(cfg: Config, now: nat, ps: seq<Pass>, env: Script)
    requires Usable(cfg) && NeverPaused(ps, env)
    ensures var s := Run(cfg, Start(cfg, now), ps, env);
            && |s.ch.box| <= s.ch.tokens + |s.ch.pending|
            && (s.ch.pending == {} && s.ch.tokens == 0 ==> s.ch.box == [])
  {
    hide SlotsSound, AdmittedSound, Once, AllFair, Run;
    StartIsSound(cfg, now);
    Reachable(cfg, now, ps, env);
    NeverPausedSkipsNone(cfg, Start(cfg, now), ps, env);
  }

  /** The signal interrupts the sleep in which it arrives; the letter comes while the worker is paused. */
  function PausePasses(l: Letter<Message>): seq<Pass> {
    [Pass([Pause], true, false, [], []),
     Pass([Mail(Post(l)), Mail(Signal(l.from))], false, false, [], [])]
  }

  /** ... but one that is paused can be left asleep over a letter whose sender has signalled. */
  lemma WakeUpLostDuringPause(cfg: Config, now: nat, l: Letter<Message>, env: Script)
    requires Usable(cfg)
    ensures var s := Run(cfg, Start(cfg, now), PausePasses(l), env);
            && s.ch.box == [l] && s.ch.tokens == 0 && s.ch.pending == {} && NextTimeout(s) == -1
            && Wait(s.ch, NextTimeout(s), false, true).None?
  {
    var s, ps := Start(cfg, now), PausePasses(l);
    var s1 := Iterate(cfg, s, ps[0], env);
    PauseOnEmptySlots(cfg, s, env);
    var s2 := s1.(waiting := Some(NextTimeout(s1)));
    NothingRuns(s1);
    LetterArrives(s2, l);
    var s3 := DeliverAll(s2, ps[1].asleep);
    var s4 := s3.(waiting := None, ch := Wait(s3.ch, -1, false, false).value);
    NothingRuns(s4);
    NothingRuns(Iterate(cfg, s1, ps[1], env));
    assert ps[1..] == [ps[1]] && ps[1..][1..] == [];
    assert Run(cfg, s, ps, env) == Run(cfg, s1, ps[1..], env) == Run(cfg, Iterate(cfg, s1, ps[1], env), [], env);
  }

  lemma NothingRuns(s: Sched)
    requires |s.slots| == |s.leave| && forall i :: 0 <= i < |s.slots| ==> s.slots[i].None?
    ensures NextTimeout(s) == -1 && SweepFrom(s, 0, false).slots == s.slots && SweepFrom(s, 0, true).slots == s.slots
  {
    NextTimeoutIsMinimum(s);
    SweepEffect(s, false);
    SweepEffect(s, true);
  }

  lemma PauseOnEmptySlots(cfg: Config, s: Sched, env: Script)
    requires |s.slots| == |s.leave| && forall i :: 0 <= i < |s.slots| ==> s.slots[i].None?
    requires s.open && s.waiting.None? && !s.ch.hand
    ensures var r := Iterate(cfg, s, Pass([Pause], true, false, [], []), env);
            r.paused && r.open && r.waiting.None? && r.ch == s.ch && r.slots == s.slots
  {
    var s0 := s.(waiting := Some(NextTimeout(s)));
    NothingRuns(s);
    NothingRuns(BeginPause(s0));
    var s1 := Deliver(s0, Pause);
    assert DeliverAll(s0, [Pause]) == DeliverAll(s1, []);
    NothingRuns(s1.(waiting := None));
  }
}
