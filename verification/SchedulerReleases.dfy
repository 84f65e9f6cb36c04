/** When an attraction's rounds begin and end, who gets a token then, and when the worker sleeps and stops. */
module SchedulerReleases {
  import opened Common
  import opened Mailbox
  import opened Rounds
  import opened Layout
  import opened SchedulerSpec
  import opened SchedulerProofs
  import opened SchedulerPauses
  import opened SchedulerTheorems
  import opened SchedulerWaits
  import opened SchedulerMembership

  // ----- Sweeps -----

  /** The time of the round is up, or nobody is left on it. */
  predicate Done(r: Round, now: nat) {
    r.finish <= now || r.clients == map[]
  }

  predicate Goes(s: Sched, j: nat, all: bool) {
    j < |s.slots| && s.slots[j].Some? && (all || Done(s.slots[j].value, s.now))
  }

  /** The releases on record since: each for a round that goes, with the time and the pause flag as they are. */
  ghost predicate Records(s: Sched, i: nat, all: bool, freed: seq<Freed>) {
    && s.freed <= freed
    && (forall f <- freed[|s.freed|..] :: f.at == s.now && f.paused == s.paused
                                         && exists j: nat :: i <= j && Goes(s, j, all) && f.round == s.slots[j].value)
    && (forall j: nat :: i <= j && Goes(s, j, all) ==> Freed(s.slots[j].value, s.now, s.paused) in freed)
  }

  lemma RecordsOne(s: Sched, i: nat, all: bool, freed: seq<Freed>)
    requires i < |s.slots| == |s.leave| && Goes(s, i, all) && Records(Free(s, i), i + 1, all, freed)
    ensures Records(s, i, all, freed)
  {
    var s1, f := Free(s, i), Freed(s.slots[i].value, s.now, s.paused);
    assert forall j: nat :: i < j ==> (Goes(s1, j, all) <==> Goes(s, j, all));
    assert freed[|s.freed|..] == [f] + freed[|s1.freed|..] by {
      assert freed[|s.freed|] == s1.freed[|s.freed|] == f;
    }
    forall g <- freed[|s.freed|..]
      ensures g.at == s.now && g.paused == s.paused
              && exists j: nat :: i <= j && Goes(s, j, all) && g.round == s.slots[j].value
    {
      if g in freed[|s1.freed|..] {
        var j: nat :| i + 1 <= j && Goes(s1, j, all) && g.round == s1.slots[j].value;
        assert Goes(s, j, all);
      }
    }
    assert f in freed by {
      assert s1.freed[|s.freed|] == f;
    }
  }

  lemma {:induction false} SweepRecords(s: Sched, i: nat, all: bool)
    requires i <= |s.slots| == |s.leave|
    ensures Records(s, i, all, SweepFrom(s, i, all).freed)
    decreases |s.slots| - i
  {
    if i < |s.slots| {
      SweepRecords(SweepSlot(s, i, all), i + 1, all);
      hide Records;
      if Goes(s, i, all) {
        RecordsOne(s, i, all, SweepFrom(s, i, all).freed);
      } else {
        RecordsNone(s, i, all, SweepFrom(s, i, all).freed);
      }
    }
  }

  lemma RecordsNone(s: Sched, i: nat, all: bool, freed: seq<Freed>)
    requires !Goes(s, i, all) && Records(s, i + 1, all, freed)
    ensures Records(s, i, all, freed)
  {
    forall f <- freed[|s.freed|..]
      ensures exists j: nat :: i <= j && Goes(s, j, all) && f.round == s.slots[j].value
    {
      var j: nat :| i + 1 <= j && Goes(s, j, all) && f.round == s.slots[j].value;
    }
  }

  /**
    * A sweep destroys exactly the rounds whose time is up or which nobody rides any more (at a pause or the end of the
    * process, all of them), gives each of their riders a token unless that has been done, and records just that.
    */
  lemma SweepExactly(s: Sched, all: bool, j: nat)
    requires |s.slots| == |s.leave| && j < |s.slots|
    ensures var r := SweepFrom(s, 0, all);
            && r.slots[j] == (if Goes(s, j, all) then None else s.slots[j])
            && r.leave[j] == s.leave[j] + (if Goes(s, j, all) && !s.slots[j].value.released
                                           then |s.slots[j].value.clients| else 0)
            && Records(s, 0, all, r.freed)
  {
    SweepEffectAt(s, 0, all, j);
    SweepRecords(s, 0, all);
  }

  /** A pause lets everybody go at once. */
  lemma PauseExactly(s: Sched, j: nat)
    requires |s.slots| == |s.leave| && j < |s.slots|
    ensures var r := Deliver(s, Pause);
            && r.paused && r.slots[j].None?
            && r.leave[j] == s.leave[j] + (if s.slots[j].Some? && !s.slots[j].value.released
                                           then |s.slots[j].value.clients| else 0)
            && (s.slots[j].Some? ==> Freed(s.slots[j].value, s.now, true) in r.freed)
  {
    SweepExactly(BeginPause(s), true, j);
    assert s.slots[j].Some? ==> Goes(BeginPause(s), j, true);
  }

  /** While no pause comes, the tokens of a slot are those that its clients have not taken. */
  lemma {:induction false} LeavesTakeTokens(s: Sched, es: seq<Event>, j: nat)
    requires |s.slots| == |s.leave| && j < |s.leave| && NoPause(es)
    ensures var taken := multiset(es)[Leave(j)];
            DeliverAll(s, es).leave[j] == if taken < s.leave[j] then s.leave[j] - taken else 0
    decreases |es|
  {
    if es != [] {
      assert es == [es[0]] + es[1..];
      LeavesTakeTokens(Deliver(s, es[0]), es[1..], j);
    }
  }

  // ----- No round is lost -----

  ghost predicate Released(freed: seq<Freed>, serial: nat) {
    exists k :: 0 <= k < |freed| && freed[k].round.serial == serial
  }

  ghost predicate InSlot(slots: seq<Option<Round>>, serial: nat) {
    exists i :: 0 <= i < |slots| && slots[i].Some? && slots[i].value.serial == serial
  }

  /** Every round of s is still in its slot in r, or has been released. */
  ghost predicate Keeps(s: Sched, r: Sched) {
    && |r.slots| == |s.slots| && s.freed <= r.freed
    && forall j :: 0 <= j < |s.slots| && s.slots[j].Some? ==>
         || (r.slots[j].Some? && r.slots[j].value.serial == s.slots[j].value.serial)
         || Released(r.freed, s.slots[j].value.serial)
  }

  /** Every round constructed so far runs, or has been released. */
  ghost predicate Accounted(slots: seq<Option<Round>>, freed: seq<Freed>, bound: nat) {
    forall n: nat :: n < bound ==> Released(freed, n) || InSlot(slots, n)
  }

  lemma ReleasedStays(freed: seq<Freed>, later: seq<Freed>, n: nat)
    requires Released(freed, n) && freed <= later
    ensures Released(later, n)
  {
    var k :| 0 <= k < |freed| && freed[k].round.serial == n;
    assert later[k] == freed[k];
  }

  lemma KeepsTransitive(a: Sched, b: Sched, c: Sched)
    requires Keeps(a, b) && Keeps(b, c)
    ensures Keeps(a, c)
  {
    forall j | 0 <= j < |a.slots| && a.slots[j].Some?
      ensures (c.slots[j].Some? && c.slots[j].value.serial == a.slots[j].value.serial)
              || Released(c.freed, a.slots[j].value.serial)
    {
      if Released(b.freed, a.slots[j].value.serial) {
        ReleasedStays(b.freed, c.freed, a.slots[j].value.serial);
      }
    }
  }

  lemma KeepsAccounted(s: Sched, r: Sched, bound: nat)
    requires Accounted(s.slots, s.freed, bound) && Keeps(s, r)
    ensures Accounted(r.slots, r.freed, bound)
  {
    forall n: nat | n < bound
      ensures Released(r.freed, n) || InSlot(r.slots, n)
    {
      if Released(s.freed, n) {
        ReleasedStays(s.freed, r.freed, n);
      } else {
        var i :| 0 <= i < |s.slots| && s.slots[i].Some? && s.slots[i].value.serial == n;
        assert r.slots[i].Some? && r.slots[i].value.serial == n ==> InSlot(r.slots, n);
      }
    }
  }

  lemma SweepKeepsRounds(s: Sched, all: bool)
    requires |s.slots| == |s.leave|
    ensures Keeps(s, SweepFrom(s, 0, all))
  {
    var r := SweepFrom(s, 0, all);
    SweepRecords(s, 0, all);
    forall j | 0 <= j < |s.slots| && s.slots[j].Some?
      ensures r.slots[j] == s.slots[j] || Released(r.freed, s.slots[j].value.serial)
    {
      SweepEffectAt(s, 0, all, j);
      if Goes(s, j, all) {
        var f := Freed(s.slots[j].value, s.now, s.paused);
        assert f in r.freed;
        var k :| 0 <= k < |r.freed| && r.freed[k] == f;
      }
    }
  }

  lemma {:induction false} EventsKeepRounds(s: Sched, es: seq<Event>)
    requires |s.slots| == |s.leave|
    ensures Keeps(s, DeliverAll(s, es))
    decreases |es|
  {
    hide SweepFrom;
    if es != [] {
      if es[0].Pause? {
        SweepKeepsRounds(BeginPause(s), true);
      }
      EventsKeepRounds(Deliver(s, es[0]), es[1..]);
      KeepsTransitive(s, Deliver(s, es[0]), DeliverAll(s, es));
    }
  }

  lemma RegisterKeepsRounds(cfg: Config, s: Sched, r: Round, q: Request, h: Shake)
    requires |s.slots| == |s.leave|
    ensures Keeps(s, Register(cfg, s, r, q, h).0) && Register(cfg, s, r, q, h).1.serial == r.serial
  {
    if !h.Missing? {
      EventsKeepRounds(s, h.posting);
      if h.Sent? {
        var s1 := DeliverAll(s, h.posting);
        EventsKeepRounds(s1, h.awaiting);
        KeepsTransitive(s, s1, DeliverAll(s1, h.awaiting));
      }
    }
  }

  lemma {:induction false} FillKeepsRounds(cfg: Config, s: Sched, r: Round, env: Script)
    requires |s.slots| == |s.leave|
    ensures Keeps(s, Fill(cfg, s, r, env).0) && Fill(cfg, s, r, env).1.serial == r.serial
    decreases |s.queue|
  {
    hide Register;
    if s.queue != [] {
      var (s1, r1, served) := Register(cfg, s, r, s.queue[0], env.shakes(|s.handled|));
      RegisterKeepsRounds(cfg, s, r, s.queue[0], env.shakes(|s.handled|));
      if served {
        FillKeepsRounds(cfg, Take(s1), r1, env);
        KeepsTransitive(s, Take(s1), Fill(cfg, s, r, env).0);
      }
    }
  }

  lemma ConcludeKeepsRounds(cfg: Config, s: Sched, r: Round, i: nat)
    requires i < |s.slots| == |s.leave| && s.slots[i].None?
    ensures var t := Conclude(cfg, s, r, i);
            Keeps(s, t) && (Released(t.freed, r.serial) || InSlot(t.slots, r.serial))
  {
    var t := Conclude(cfg, s, r, i);
    if r.clients != map[] {
      assert t.slots[i].value.serial == r.serial;
    } else {
      assert t.freed[|s.freed|].round.serial == r.serial;
    }
  }

  lemma NewRoundAccounts(cfg: Config, s: Sched, env: Script)
    requires |s.slots| == |s.leave|
    ensures var (r, made) := NewRound(cfg, s, env);
            && Keeps(s, r) && s.serial <= r.serial && (made ==> s.serial < r.serial)
            && (Accounted(s.slots, s.freed, s.serial) ==> Accounted(r.slots, r.freed, r.serial))
            && (s.serial < r.serial <==> !s.paused && FirstFree(s.slots, 0).Some?)
  {
    FirstFreeIsFree(s.slots, 0);
    var free := FirstFree(s.slots, 0);
    if !s.paused && free.Some? {
      var i := free.value;
      FillKeepsRounds(cfg, Construct(s, i), Fresh(s.serial), env);
      FillKeepsFree(cfg, Construct(s, i), Fresh(s.serial), env, i);
      hide Fill, Keeps;
      var (s1, r) := Prepare(cfg, s, i, env);
      ConcludeKeepsRounds(cfg, s1, r, i);
      var t := Conclude(cfg, s1, r, i);
      StandsFor(s, Construct(s, i), s1);
      KeepsTransitive(s, s1, t);
      if Accounted(s.slots, s.freed, s.serial) {
        KeepsAccounted(s, t, s.serial);
      }
    }
  }

  lemma StandsFor(s: Sched, s1: Sched, r: Sched)
    requires Keeps(s1, r) && s1.slots == s.slots && s1.freed == s.freed
    ensures Keeps(s, r)
  {}

  /** A free slot stays free while the queue is served. */
  lemma {:induction false} FillKeepsFree(cfg: Config, s: Sched, r: Round, env: Script, i: nat)
    requires |s.slots| == |s.leave| && i < |s.slots| && s.slots[i].None?
    ensures Fill(cfg, s, r, env).0.slots[i].None?
    decreases |s.queue|
  {
    if s.queue != [] {
      var h := env.shakes(|s.handled|);
      if !h.Missing? {
        EventsOnlyGo(s, h.posting);
        if h.Sent? {
          EventsOnlyGo(DeliverAll(s, h.posting), h.awaiting);
        }
      }
      var (s1, r1, served) := Register(cfg, s, r, s.queue[0], h);
      if served {
        FillKeepsFree(cfg, Take(s1), r1, env, i);
      }
    }
  }

  lemma {:induction false} CreationAccounts(cfg: Config, s: Sched, env: Script)
    requires |s.slots| == |s.leave|
    ensures var r := CreateRounds(cfg, s, env);
            && Keeps(s, r) && s.serial <= r.serial
            && (Accounted(s.slots, s.freed, s.serial) ==> Accounted(r.slots, r.freed, r.serial))
            && (s.serial < r.serial <==> !s.paused && FirstFree(s.slots, 0).Some?)
    decreases |s.queue|
  {
    hide NewRound, Keeps, Accounted, DeliverAll;
    NewRoundAccounts(cfg, s, env);
    var (s1, made) := NewRound(cfg, s, env);
    if made {
      var s2 := CreateRound(cfg, s, env).0;
      EventsKeepRounds(s1, env.logs(|s1.handled|));
      CreationAccounts(cfg, s2, env);
      KeepsTransitive(s, s1, s2);
      KeepsTransitive(s, s2, CreateRounds(cfg, s, env));
      if Accounted(s1.slots, s1.freed, s1.serial) {
        KeepsAccounted(s1, s2, s1.serial);
      }
    }
  }

  lemma LetterKeepsRounds(s: Sched, l: Letter<Message>)
    ensures Keeps(s, Handle(s, l)) && Handle(s, l).serial == s.serial
  {
    RemoveFromEffect(s.slots, 0, l.from);
  }

  lemma MailboxKeepsRounds(s: Sched, receiving: seq<Event>)
    requires |s.slots| == |s.leave|
    ensures Keeps(s, HandleMailbox(s, receiving)) && HandleMailbox(s, receiving).serial == s.serial
  {
    hide Handle, DeliverAll;
    EventsKeepRounds(s, receiving);
    var s1 := DeliverAll(s, receiving);
    var (ch, letter) := Receive(s1.ch);
    if letter.Some? {
      LetterKeepsRounds(s1.(ch := ch), letter.value);
      hide Keeps;
      StandsFor(s1, s1.(ch := ch), HandleMailbox(s, receiving));
      KeepsTransitive(s, s1, HandleMailbox(s, receiving));
    }
  }

  /**
    * A worker that is not paused constructs a round exactly if it is still not paused after reading its letter, has a
    * free slot, and its queue is longer than a full round or there is nothing more to read.
    */
  lemma BatchesExactly(cfg: Config, s: Sched, receiving: seq<Event>, env: Script)
    requires |s.slots| == |s.leave|
    ensures var s1, r := HandleMailbox(s, receiving), HandleAttraction(cfg, s, receiving, env);
            r.serial > s.serial <==>
              && !s.paused && !s1.paused && FirstFree(s1.slots, 0).Some?
              && (|s1.queue| > cfg.capacity || s1.ch.box == [])
  {
    hide HandleMailbox, CreateRounds, Keeps, Accounted;
    MailboxKeepsRounds(s, receiving);
    CreationAccounts(cfg, HandleMailbox(s, receiving), env);
  }

  /**
    * So a wake-up first frees the slots of the rounds that are over, then reads its letter, and then constructs a round
    * exactly under these conditions.
    */
  lemma WakeUpBatchesExactly(cfg: Config, s: Sched, p: Pass, env: Script)
    requires |s.slots| == |s.leave|
    ensures var s1, r := HandleMailbox(SweepFrom(s, 0, false), p.receiving), Work(cfg, s, p, env);
            r.serial > s.serial <==>
              && !s.paused && !s1.paused && FirstFree(s1.slots, 0).Some?
              && (|s1.queue| > cfg.capacity || s1.ch.box == [])
  {
    hide HandleMailbox, HandleAttraction, SweepFrom, DeliverAll;
    BatchesExactly(cfg, SweepFrom(s, 0, false), p.receiving, env);
  }

  lemma HandlingAccounts(cfg: Config, s: Sched, receiving: seq<Event>, env: Script)
    requires |s.slots| == |s.leave|
    ensures var r := HandleAttraction(cfg, s, receiving, env);
            && Keeps(s, r) && (Accounted(s.slots, s.freed, s.serial) ==> Accounted(r.slots, r.freed, r.serial))
  {
    if !s.paused {
      hide HandleMailbox, CreateRounds, Keeps, Accounted;
      var s1 := HandleMailbox(s, receiving);
      MailboxKeepsRounds(s, receiving);
      CreationAccounts(cfg, s1, env);
      KeepsTransitive(s, s1, CreateRounds(cfg, s1, env));
      if Accounted(s.slots, s.freed, s.serial) {
        KeepsAccounted(s, s1, s.serial);
      }
    }
  }

  lemma WorkAccounts(cfg: Config, s: Sched, p: Pass, env: Script)
    requires |s.slots| == |s.leave|
    ensures var r := Work(cfg, s, p, env);
            && Keeps(SweepFrom(s, 0, false), r)
            && (Accounted(s.slots, s.freed, s.serial) ==> Accounted(r.slots, r.freed, r.serial))
  {
    hide HandleAttraction, Keeps, Accounted, SweepFrom, DeliverAll;
    var s1 := SweepFrom(s, 0, false);
    SweepKeepsRounds(s, false);
    HandlingAccounts(cfg, s1, p.receiving, env);
    var s2 := HandleAttraction(cfg, s1, p.receiving, env);
    EventsKeepRounds(s2, p.between);
    KeepsTransitive(s1, s2, DeliverAll(s2, p.between));
    if Accounted(s.slots, s.freed, s.serial) {
      KeepsAccounted(s, s1, s.serial);
      KeepsAccounted(s2, DeliverAll(s2, p.between), s2.serial);
    }
  }

  lemma IterateAccounts(cfg: Config, s: Sched, p: Pass, env: Script)
    requires |s.slots| == |s.leave| && Accounted(s.slots, s.freed, s.serial)
    ensures var r := Iterate(cfg, s, p, env);
            Accounted(r.slots, r.freed, r.serial)
  {
    hide Work, Accounted, DeliverAll;
    if !Finished(s) {
      var s0 := s.(waiting := Some(Timeout(s)));
      EventsKeepRounds(s0, p.asleep);
      KeepsAccounted(s0, Asleep(s, p), s.serial);
      var w := Wait(Asleep(s, p).ch, Timeout(s), p.interrupted, p.expired);
      if w.Some? {
        WorkAccounts(cfg, Asleep(s, p).(waiting := None, ch := w.value), p, env);
      }
    }
  }

  lemma {:induction false} RunAccounts(cfg: Config, s: Sched, ps: seq<Pass>, env: Script)
    requires |s.slots| == |s.leave| && Accounted(s.slots, s.freed, s.serial)
    ensures var r := Run(cfg, s, ps, env);
            Accounted(r.slots, r.freed, r.serial)
    decreases |ps|
  {
    hide Iterate, Accounted;
    if ps != [] {
      IterateAccounts(cfg, s, ps[0], env);
      RunAccounts(cfg, Iterate(cfg, s, ps[0], env), ps[1..], env);
    }
  }

  /** Over every run: a round that was ever constructed is in a slot, not yet released, or has been released, once. */
  lemma EveryRoundEnds(cfg: Config, now: nat, ps: seq<Pass>, env: Script, n: nat)
    requires Usable(cfg)
    ensures var s := Run(cfg, Start(cfg, now), ps, env);
            n < s.serial ==> (Released(s.freed, n) <==> !InSlot(s.slots, n))
  {
    hide Run, SlotsSound, AdmittedSound, AllFair, Balanced;
    RunAccounts(cfg, Start(cfg, now), ps, env);
    Reachable(cfg, now, ps, env);
  }

  // ----- The wait and the end of the loop -----

  /** The wait of the pass ends: at once, by the signal, a token or the expiry of a timeout that is one. */
  ghost predicate Wakes(s: Sched, p: Pass)
    requires |s.slots| == |s.leave|
  {
    Timeout(s) < -1 || p.interrupted || Asleep(s, p).ch.tokens > 0 || (p.expired && Timeout(s) >= 0)
  }

  lemma {:induction false} CreationKeepsWaiting(cfg: Config, s: Sched, env: Script)
    requires |s.slots| == |s.leave|
    ensures CreateRounds(cfg, s, env).waiting == s.waiting
    decreases |s.queue|
  {
    FirstFreeIsFree(s.slots, 0);
    var (s1, made) := CreateRound(cfg, s, env);
    if made {
      CreationKeepsWaiting(cfg, s1, env);
    }
  }

  /**
    * One pass: the worker goes on sleeping, with the timeout it chose at first, exactly if nothing ends its wait; once
    * awake it leaves its loop exactly if the park is closed at the end of the pass.
    */
  lemma PassExactly(cfg: Config, s: Sched, p: Pass, env: Script)
    requires |s.slots| == |s.leave| && !Finished(s)
    ensures var r := Iterate(cfg, s, p, env);
            && r.waiting == (if Wakes(s, p) then None else Some(Timeout(s)))
            && (!Wakes(s, p) ==> r == Asleep(s, p))
            && (Finished(r) <==> Wakes(s, p) && !r.open)
  {
    hide DeliverAll, SweepFrom, CreateRounds, NextTimeout;
    var s1 := Asleep(s, p);
    var w := Wait(s1.ch, Timeout(s), p.interrupted, p.expired);
    if w.Some? {
      var s2 := SweepFrom(s1.(waiting := None, ch := w.value), 0, false);
      CreationKeepsWaiting(cfg, HandleMailbox(s2, p.receiving), env);
    }
  }

  lemma {:induction false} FinishedStays(cfg: Config, s: Sched, ps: seq<Pass>, env: Script)
    requires |s.slots| == |s.leave| && Finished(s)
    ensures Run(cfg, s, ps, env) == s
    decreases |ps|
  {
    if ps != [] {
      FinishedStays(cfg, s, ps[1..], env);
    }
  }

  lemma {:induction false} TokenArrives(s: Sched, es: seq<Event>)
    requires |s.slots| == |s.leave|
    requires Mail(Extra) in es || s.ch.tokens > 0
    ensures DeliverAll(s, es).ch.tokens > 0
    decreases |es|
  {
    if es != [] {
      TokenArrives(Deliver(s, es[0]), es[1..]);
    }
  }

  /**
    * Closing ends the loop. The main process closes the park and gives every event semaphore a token: whatever the
    * worker is doing, paused or not, the pass in which it hears both is its last, and closing the process then lets
    * every rider go.
    */
  lemma ClosingEndsWorker(cfg: Config, s: Sched, p: Pass, ps: seq<Pass>, env: Script, i: nat)
    requires Usable(cfg) && Sound(cfg, s, s.serial) && !s.ch.hand && !Finished(s)
    requires Close in p.asleep && Mail(Extra) in p.asleep
    ensures var r := Run(cfg, s, [p] + ps, env);
            && Finished(r) && r == Iterate(cfg, s, p, env)
            && (i < |r.slots| ==> Shutdown(r).slots[i].None?
                                  && (r.slots[i].Some? ==> Shutdown(r).leave[i] == |r.slots[i].value.clients|))
  {
    hide Iterate, SlotsSound, AdmittedSound, Once, AllFair, Balanced;
    var s0, r := s.(waiting := Some(Timeout(s))), Iterate(cfg, s, p, env);
    TokenArrives(s0, p.asleep);
    FlagsAfter(s0, p.asleep);
    PassExactly(cfg, s, p, env);
    ClosedStays(cfg, s, p, env);
    assert ([p] + ps)[1..] == ps;
    FinishedStays(cfg, r, ps, env);
    IterateKeeps(cfg, s, p, env);
    if i < |r.slots| {
      ShutdownReleasesAll(cfg, r, i);
    }
  }

  lemma ClosedStays(cfg: Config, s: Sched, p: Pass, env: Script)
    requires Usable(cfg) && Sound(cfg, s, s.serial) && !s.ch.hand && !Finished(s)
    requires !Asleep(s, p).open && Wakes(s, p)
    ensures !Iterate(cfg, s, p, env).open
  {
    hide DeliverAll, Work, SlotsSound, AdmittedSound, Once, AllFair, Balanced, NextTimeout;
    var s0, s1 := s.(waiting := Some(Timeout(s))), Asleep(s, p);
    SameRounds(cfg, s, s0, s.serial);
    DeliverAllKeeps(cfg, s0, p.asleep, s.serial);
    WaitKeepsBalance(s1.ch, Timeout(s), p.interrupted, p.expired);
    var s2 := s1.(waiting := None, ch := Wait(s1.ch, Timeout(s), p.interrupted, p.expired).value);
    SameRounds(cfg, s1, s2, s.serial);
    WorkKeeps(cfg, s2, p, env);
  }

  /** An awake worker gets rid of every round that is over: it is released by the end of the pass, and in no slot. */
  lemma WokenPassReleases(cfg: Config, s: Sched, p: Pass, env: Script, j: nat)
    requires Usable(cfg) && Sound(cfg, s, s.serial) && !s.ch.hand && !Finished(s) && Wakes(s, p)
    ensures var s1, r := Asleep(s, p), Iterate(cfg, s, p, env);
            j < |s1.slots| && s1.slots[j].Some? && Done(s1.slots[j].value, s1.now) ==>
              var n := s1.slots[j].value.serial;
              Released(r.freed, n) && !InSlot(r.slots, n)
  {
    hide DeliverAll, Work, SweepFrom, SlotsSound, AdmittedSound, AllFair, Balanced, NextTimeout, Evolves;
    var s1, r := Asleep(s, p), Iterate(cfg, s, p, env);
    if j < |s1.slots| && s1.slots[j].Some? && Done(s1.slots[j].value, s1.now) {
      var n := s1.slots[j].value.serial;
      var s2 := s1.(waiting := None, ch := Wait(s1.ch, Timeout(s), p.interrupted, p.expired).value);
      SweepKeepsRounds(s2, false);
      SweepExactly(s2, false, j);
      WorkAccounts(cfg, s2, p, env);
      ReleasedStays(SweepFrom(s2, 0, false).freed, r.freed, n);
      IterateKeeps(cfg, s, p, env);
      ReleasedOnce(r.slots, r.freed, r.serial, n);
    }
  }

  lemma ReleasedOnce(slots: seq<Option<Round>>, freed: seq<Freed>, bound: nat, n: nat)
    requires Once(slots, freed, bound) && Released(freed, n)
    ensures !InSlot(slots, n)
  {}

  // ----- Riders overtaken by the next round -----

  /**
    * The constructor of a round sets the semaphore of its slot to zero. If a wake-up ends the round of slot i and the
    * next one goes into the same slot, the riders of the first have until then to take their tokens: those of n riders
    * who have not done so during the receive find their tokens gone.
    */
  lemma NextRoundTakesTokens(cfg: Config, s: Sched, receiving: seq<Event>, env: Script, i: nat)
    requires Usable(cfg) && Sound(cfg, s, s.serial) && !s.paused && NoPause(receiving)
    requires i < |s.slots| && s.slots[i].Some? && Done(s.slots[i].value, s.now)
    requires FirstFree(HandleMailbox(SweepFrom(s, 0, false), receiving).slots, 0) == Some(i)
    ensures var s1 := HandleMailbox(SweepFrom(s, 0, false), receiving);
            var n, taken := |s.slots[i].value.clients|, multiset(receiving)[Leave(i)];
            && s1.leave[i] == (if taken < n then n - taken else 0)
            && NewRound(cfg, s1, env).0.leave[i] == 0 && NewRound(cfg, s1, env).0.serial == s1.serial + 1
  {
    hide DeliverAll, SlotsSound, AdmittedSound, Once, AllFair, Balanced, SweepFrom, Handle, NewRound;
    var s0 := SweepFrom(s, 0, false);
    assert s.leave[i] == 0 && !s.slots[i].value.released by {
      SlotIsSound(cfg, s, i);
    }
    SweepExactly(s, false, i);
    LeavesTakeTokens(s0, receiving, i);
    EventsDoNotPause(s0, receiving);
    SweepKeeps(cfg, s, 0, false, s.serial);
    HandleMailboxKeeps(cfg, s0, receiving);
    var s1 := HandleMailbox(s0, receiving);
    MailboxKeepsFlags(s0, receiving);
    FreshSlotIsEmpty(cfg, s1, env, i);
  }

  lemma MailboxKeepsFlags(s: Sched, receiving: seq<Event>)
    requires |s.slots| == |s.leave|
    ensures var s1, r := DeliverAll(s, receiving), HandleMailbox(s, receiving);
            r.leave == s1.leave && r.paused == s1.paused
  {
    hide DeliverAll, RemoveFrom;
  }

  lemma SlotIsSound(cfg: Config, s: Sched, i: nat)
    requires Sound(cfg, s, s.serial) && i < |s.slots| && s.slots[i].Some?
    ensures s.leave[i] == 0 && !s.slots[i].value.released
  {}

  lemma FreshSlotIsEmpty(cfg: Config, s: Sched, env: Script, i: nat)
    requires Usable(cfg) && Sound(cfg, s, s.serial) && !s.paused && FirstFree(s.slots, 0) == Some(i)
    ensures var r := NewRound(cfg, s, env).0;
            i < |r.leave| && r.leave[i] == 0 && r.serial == s.serial + 1
  {
    hide SlotsSound, AdmittedSound, Once, AllFair, Balanced, Fill;
    FirstFreeIsFree(s.slots, 0);
    PrepareKeeps(cfg, s, i, env);
  }
}
