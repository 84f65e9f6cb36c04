/** The restaurant's promises, for every configuration, script of passes and outcome of every handshake. */
module RestaurantTheorems {
  import opened Common
  import opened Mailbox
  import opened Rounds
  import opened Layout
  import opened RestaurantSpec
  import opened RestaurantProofs
  import opened Serving

  // ----- Promises over every run -----

  /** Capacity, release discipline, order of service and wake-ups in every reachable state. */
  lemma RestaurantIsSound(cfg: Config, now: nat, ps: seq<Pass>, env: nat -> Shake)
    ensures var s := Run(cfg, Start(now), ps, env);
            && Load(Guests(s)) <= cfg.capacity
            && (s.round.Some? && !s.round.value.released ==> s.leave == 0)
            && AllFair(s.freed)
            && (forall k, l :: 0 <= k < l < |s.freed| ==> s.freed[k].round.serial != s.freed[l].round.serial)
            && s.handled + s.queue == s.arrived
            && |s.ch.box| <= s.ch.tokens + |s.ch.pending|
  {
    StartIsSound(cfg, now);
    RunKeeps(cfg, Start(now), ps, env);
    LoadEmpty(Guests(Run(cfg, Start(now), ps, env)));
  }

  lemma {:induction false} EmptyFillEmptiesQueue(cfg: Config, s: Restaurant, r: Round, env: nat -> Shake)
    requires Usable(cfg)
    ensures var (s1, r1) := Fill(cfg, s, r, env);
            r1.clients == map[] ==> s1.queue == []
  {
    LoadEmpty(Fill(cfg, s, r, env).1.clients);
  }

  /** A refill seats someone or leaves no request; a request that remains does not fit, so at most one place is free. */
  lemma RefillIsGreedy(cfg: Config, s: Restaurant, env: nat -> Shake)
    requires Usable(cfg) && s.round.None? && Sound(cfg, s, s.serial)
    ensures var r := CreateRound(cfg, s, env);
            && (r.round.Some? <==> Guests(r) != map[])
            && (r.queue != [] ==> r.round.Some? && Refused(cfg, r, r.round.value, r.queue[0])
                                  && Load(Guests(r)) >= cfg.capacity - 1)
  {
    EmptyFillEmptiesQueue(cfg, Construct(s), Fresh(s.serial), env);
    LoadEmpty(Fresh(s.serial).clients);
    FillKeeps(cfg, Construct(s), Fresh(s.serial), env, s.serial);
  }

  // ----- Serving seen from outside -----

  function PausedAfter(paused: bool, es: seq<Event>): bool {
    After(paused, Pause, Resume, es)
  }

  /** Unlike an attraction the restaurant goes on admitting under pause, and everybody who asks well is welcome. */
  function RestaurantRules(cfg: Config): Rules<Event> {
    Rules(cfg.capacity, false, Close, Pause, Resume)
  }

  function AsCall(q: Request, h: Shake): Call<Event> {
    Call(q.pid, q.who, true, h)
  }

  ghost function Calls(s: Restaurant, env: nat -> Shake): seq<Call<Event>> {
    seq(|s.queue|, k requires 0 <= k < |s.queue| => AsCall(s.queue[k], env(|s.handled| + k)))
  }

  lemma {:induction false} FlagsAfter(s: Restaurant, es: seq<Event>)
    ensures DeliverAll(s, es).paused == PausedAfter(s.paused, es)
    ensures DeliverAll(s, es).open <==> s.open && Close !in es
    decreases |es|
  {
    if es != [] {
      FlagsAfter(Deliver(s, es[0]), es[1..]);
    }
  }

  lemma RegisterIsHeard(cfg: Config, s: Restaurant, r: Round, q: Request, h: Shake)
    requires !Refused(cfg, s, r, q)
    ensures var (s1, r1, _) := Register(cfg, s, r, q, h);
            var c := AsCall(q, h);
            var es := Heard(s.open, c);
            && s1.paused == PausedAfter(s.paused, es) && (s1.open <==> s.open && Close !in es)
            && r1 == Seated(s.open, r, c)
  {
    if q.who.Some? && !h.Missing? {
      FlagsAfter(s, h.posting);
      if h.Sent? {
        FlagsAfter(DeliverAll(s, h.posting), h.awaiting);
        AfterConcat(s.paused, Pause, Resume, h.posting, h.awaiting);
      }
    }
  }

  lemma RefusedIfFull(cfg: Config, s: Restaurant, r: Round, q: Request, h: Shake)
    ensures Refused(cfg, s, r, q) <==> s.open && Full(RestaurantRules(cfg), r, AsCall(q, h))
  {}

  lemma CallsOfRest(s: Restaurant, s1: Restaurant, env: nat -> Shake)
    requires s.queue != [] && s1.queue == s.queue && s1.handled == s.handled
    ensures var s2 := Take(s1);
            && Calls(s2, env) == Calls(s, env)[1..] && s2.open == s1.open && s2.paused == s1.paused
            && |s2.handled| == |s.handled| + 1
  {}

  /** The restaurant's own serving loop ends with these flags, this round and this many served requests. */
  lemma {:induction false} FillIsServe(cfg: Config, s: Restaurant, r: Round, env: nat -> Shake)
    ensures var (s1, r1) := Fill(cfg, s, r, env);
            var g := Serve(RestaurantRules(cfg), s.open, s.paused, r, Calls(s, env));
            && s1.open == g.open && s1.paused == g.paused && r1 == g.round && |s1.handled| == |s.handled| + g.served
    decreases |s.queue|
  {
    if s.queue != [] {
      var q, h := s.queue[0], env(|s.handled|);
      assert Calls(s, env)[0] == AsCall(q, h);
      RefusedIfFull(cfg, s, r, q, h);
      hide Register, Heard, Seated, Take, Calls, AsCall, Refused, Full;
      var (s1, r1, served) := Register(cfg, s, r, q, h);
      if served {
        RegisterIsHeard(cfg, s, r, q, h);
        CallsOfRest(s, s1, env);
        FillIsServe(cfg, Take(s1), r1, env);
      }
    }
  }

  ghost function ServeNext(cfg: Config, s: Restaurant, env: nat -> Shake): Gate {
    Serve(RestaurantRules(cfg), s.open, s.paused, Fresh(s.serial), Calls(s, env))
  }

  lemma ConcludeInstalls(cfg: Config, s: Restaurant, r: Round)
    requires s.round.None? && !r.started && !r.released
    ensures var t := Conclude(cfg, s, r);
            && t.open == s.open && t.paused == s.paused && t.handled == s.handled && t.now == s.now
            && Guests(t) == r.clients
            && t.round == (if r.clients == map[] then None
                           else Some(Round(r.serial, r.clients, s.now + cfg.duration, true, false)))
  {}

  /**
    * A refill seen from outside: exactly the guests seated in the handshakes served are installed, as a round that ends
    * one duration after its installation.
    */
  lemma CreateRoundIsServe(cfg: Config, s: Restaurant, env: nat -> Shake)
    requires s.round.None?
    ensures var r := CreateRound(cfg, s, env);
            var g := ServeNext(cfg, s, env);
            && r.open == g.open && r.paused == g.paused && Guests(r) == g.round.clients
            && r.round == (if g.round.clients == map[] then None
                           else Some(Round(s.serial, g.round.clients, r.now + cfg.duration, true, false)))
            && |r.handled| == |s.handled| + g.served
  {
    var c, f := Construct(s), Fresh(s.serial);
    SameCalls(s, c, env);
    hide Fill, Serve, Calls, Refused, Conclude, Guests;
    FillIsServe(cfg, c, f, env);
    ServedRound(RestaurantRules(cfg), s.open, s.paused, f, Calls(s, env));
    var (s1, r1) := Fill(cfg, c, f, env);
    ConcludeInstalls(cfg, s1, r1);
  }

  lemma SameCalls(s: Restaurant, r: Restaurant, env: nat -> Shake)
    requires r.queue == s.queue && r.handled == s.handled
    ensures Calls(r, env) == Calls(s, env)
  {}

  // ----- A pause during a refill -----

  /** A paused restaurant has let all its guests go. */
  predicate CleanPause(s: Restaurant) {
    s.paused && s.round.Some? ==> s.round.value.released
  }

  /**
    * As in an attraction the pause flag is not looked at again. Whether a refill leaves guests unreleased under pause
    * can be told from the flags, the queue and the handshakes.
    */
  lemma PauseBrokenExactly(cfg: Config, s: Restaurant, env: nat -> Shake)
    requires s.round.None?
    ensures var g := ServeNext(cfg, s, env);
            !CleanPause(CreateRound(cfg, s, env)) <==> g.paused && g.round.clients != map[]
  {
    CreateRoundIsServe(cfg, s, env);
  }

  /** Without a resume signal: the pause is broken exactly if someone boards and a served handshake contains a pause. */
  lemma PauseBrokenByHandshake(cfg: Config, s: Restaurant, env: nat -> Shake)
    requires Usable(cfg) && s.round.None? && !s.paused && NeverHeard(Resume, Calls(s, env))
    ensures var rules, calls := RestaurantRules(cfg), Calls(s, env);
            !CleanPause(CreateRound(cfg, s, env)) <==>
              && SomeoneBoards(rules, s.open, calls)
              && HearsWithin(rules, Pause, s.open, calls, ServeNext(cfg, s, env).served)
  {
    PauseBrokenExactly(cfg, s, env);
    BoardsExactly(RestaurantRules(cfg), s.open, false, Fresh(s.serial), Calls(s, env));
    PausesExactly(RestaurantRules(cfg), s.open, false, Fresh(s.serial), Calls(s, env));
  }

  ghost predicate NoPause(es: seq<Event>) {
    Pause !in es
  }

  lemma {:induction false} EventsKeepPauseClean(s: Restaurant, es: seq<Event>)
    requires CleanPause(s)
    ensures CleanPause(DeliverAll(s, es))
    decreases |es|
  {
    if es != [] {
      EventsKeepPauseClean(Deliver(s, es[0]), es[1..]);
    }
  }

  lemma {:induction false} FillDoesNotPause(cfg: Config, s: Restaurant, r: Round, env: nat -> Shake)
    requires !s.paused && forall i :: Throughout(env(i), NoPause)
    ensures !Fill(cfg, s, r, env).0.paused
    decreases |s.queue|
  {
    if s.queue != [] {
      var h := env(|s.handled|);
      if !h.Missing? {
        EventsDoNotPause(s, h.posting);
        if h.Sent? {
          EventsDoNotPause(DeliverAll(s, h.posting), h.awaiting);
        }
      }
      var (s1, r1, served) := Register(cfg, s, r, s.queue[0], h);
      if served {
        FillDoesNotPause(cfg, Take(s1), r1, env);
      }
    }
  }

  lemma {:induction false} EventsDoNotPause(s: Restaurant, es: seq<Event>)
    requires NoPause(es) && !s.paused
    ensures !DeliverAll(s, es).paused
    decreases |es|
  {
    if es != [] {
      EventsDoNotPause(Deliver(s, es[0]), es[1..]);
    }
  }

  lemma MailboxKeepsPauseClean(s: Restaurant, receiving: seq<Event>, bill: Shake)
    requires CleanPause(s)
    ensures CleanPause(HandleMailbox(s, receiving, bill))
  {
    EventsKeepPauseClean(s, receiving);
    var s1 := DeliverAll(s, receiving);
    var (ch, letter) := Receive(s1.ch);
    if letter.Some? && !bill.Missing? {
      var s2 := s1.(ch := ch);
      EventsKeepPauseClean(s2, bill.posting);
      if bill.Sent? {
        EventsKeepPauseClean(DeliverAll(s2, bill.posting), bill.awaiting);
      }
    }
  }

  lemma RefillKeepsPauseClean(cfg: Config, s: Restaurant, env: nat -> Shake)
    requires CleanPause(s) && forall i :: Throughout(env(i), NoPause)
    ensures CleanPause(Refill(cfg, s, env))
  {
    if !s.paused {
      FillDoesNotPause(cfg, Construct(s), Fresh(s.serial), env);
    }
  }

  lemma IterateKeepsPauseClean(cfg: Config, s: Restaurant, p: Pass, env: nat -> Shake)
    requires CleanPause(s) && forall i :: Throughout(env(i), NoPause)
    ensures CleanPause(Iterate(cfg, s, p, env))
  {
    hide HandleMailbox, Refill, DeliverAll;
    if !Finished(s) {
      var timeout := if s.waiting.Some? then s.waiting.value else NextTimeout(s);
      var s0 := s.(waiting := Some(timeout));
      EventsKeepPauseClean(s0, p.asleep);
      var s1 := DeliverAll(s0, p.asleep);
      var w := Wait(s1.ch, timeout, p.interrupted, p.expired);
      if w.Some? {
        var s2 := Sweep(s1.(waiting := None, ch := w.value));
        MailboxKeepsPauseClean(s2, p.receiving, p.bill);
        var s3 := HandleMailbox(s2, p.receiving, p.bill);
        RefillKeepsPauseClean(cfg, s3, env);
        EventsKeepPauseClean(Refill(cfg, s3, env), p.between);
      }
    }
  }

  /** With no pause during the handshakes of a refill, a restaurant that is paused has released its guests. */
  lemma {:induction false} PauseIsClean(cfg: Config, s: Restaurant, ps: seq<Pass>, env: nat -> Shake)
    requires CleanPause(s) && forall i :: Throughout(env(i), NoPause)
    ensures CleanPause(Run(cfg, s, ps, env))
    decreases |ps|
  {
    if ps != [] {
      IterateKeepsPauseClean(cfg, s, ps[0], env);
      PauseIsClean(cfg, Iterate(cfg, s, ps[0], env), ps[1..], env);
    }
  }

  // ----- The wait -----

  /** The state in which the restaurant of pass p has slept. */
  function Asleep(s: Restaurant, p: Pass): Restaurant {
    DeliverAll(s.(waiting := Some(NextTimeout(s))), p.asleep)
  }

  lemma {:induction false} EventsKeepFinish(s: Restaurant, es: seq<Event>)
    requires s.round.Some?
    ensures DeliverAll(s, es).round.value.finish == s.round.value.finish
    decreases |es|
  {
    if es != [] {
      EventsKeepFinish(Deliver(s, es[0]), es[1..]);
    }
  }

  /**
    * The timeout never delays a sweep and never hastens one: once the wait of a restaurant with guests has ended,
    * their round is destroyed exactly if at least the timeout has passed, unless a pause or an evacuation forbids it.
    */
  lemma TimeoutMeetsFinish(s: Restaurant, p: Pass)
    requires s.waiting.None? && Guests(s) != map[]
    ensures var s1 := Asleep(s, p);
            var w := Wait(s1.ch, NextTimeout(s), p.interrupted, p.expired);
            w.Some? ==>
              (Sweep(s1.(waiting := None, ch := w.value)).round.None? <==>
                 !s1.evac && !s1.paused && s1.now - s.now >= NextTimeout(s))
  {
    EventsKeepFinish(s.(waiting := Some(NextTimeout(s))), p.asleep);
  }

  /** A wait that no expiry can end: there is no round, or it is overdue by exactly one second. */
  lemma SleepsForeverExactly(s: Restaurant, ch: Channel<Message>)
    requires ch.tokens == 0
    ensures Wait(ch, NextTimeout(s), false, true).None? <==>
              s.round.None? || s.round.value.finish == s.now - 1
  {}

  lemma LetterArrives(s: Restaurant, l: Letter<Message>)
    requires s.ch.box == [] && s.ch.pending == {}
    ensures var r := DeliverAll(s, [Mail(Post(l)), Mail(Signal(l.from))]);
            && r == s.(ch := r.ch) && r.ch.box == [l] && r.ch.pending == {} && r.ch.hand == s.ch.hand
            && r.ch.tokens == s.ch.tokens + 1
  {
    var es := [Mail(Post(l)), Mail(Signal(l.from))];
    var s1 := Deliver(s, es[0]);
    assert s1.ch.box == [l] && s1.ch.pending == {l.from};
    var s2 := Deliver(s1, es[1]);
    assert s2.ch.pending == {};
    assert es[1..] == [es[1]] && DeliverAll(s1, [es[1]]) == DeliverAll(s2, []);
  }

  lemma FirstGuestIsSeated(cfg: Config, s: Restaurant, q: Request, env: nat -> Shake)
    requires Usable(cfg) && s.round.None? && s.open && s.queue == [q] && q.who.Some?
    requires env(|s.handled|) == Sent([], Ack, [])
    ensures var r := CreateRound(cfg, s, env);
            && r.round.Some? && r.round.value.finish == s.now + cfg.duration && r.now == s.now && r.ch == s.ch
            && r.waiting == s.waiting
  {
    var c, f := Construct(s), Fresh(s.serial);
    LoadEmpty(f.clients);
    var (s1, r1, served) := Register(cfg, c, f, q, Sent([], Ack, []));
    assert served && q.pid in r1.clients;
    assert Fill(cfg, c, f, env) == (Take(s1), r1);
  }

  /**
    * It does happen: a restaurant that comes back to its loop one second after the end of its round takes the delay
    * for no timeout, and sleeps with the round still running until somebody else wakes it.
    */
  lemma OverdueRoundSleepsOn(cfg: Config, now: nat, l: Letter<Message>, p: Pass, env: nat -> Shake)
    requires Usable(cfg) && l.body.EnterRestaurant? && l.body.who.Some? && env(0) == Sent([], Ack, [])
    requires p.asleep == [Mail(Post(l)), Mail(Signal(l.from))] && !p.interrupted
    requires p.receiving == [] && p.between == [Elapse(cfg.duration + 1)]
    ensures var s := Iterate(cfg, Start(now), p, env);
            && s.round.Some? && s.round.value.finish == s.now - 1 && s.ch.box == []
            && NextTimeout(s) == -1 && Wait(s.ch, NextTimeout(s), false, true).None?
  {
    var s0 := Start(now).(waiting := Some(-1));
    LetterArrives(s0, l);
    var s1 := DeliverAll(s0, p.asleep);
    var s2 := s1.(waiting := None, ch := Wait(s1.ch, -1, false, p.expired).value);
    var s3 := HandleMailbox(s2, [], p.bill);
    var q := Request(l.from, l.body.who);
    assert DeliverAll(s2, []) == s2 && s3.queue == [q] && s3.ch.box == [];
    FirstGuestIsSeated(cfg, s3, q, env);
    var s4 := CreateRound(cfg, s3, env);
    var s5 := Deliver(s4, Elapse(cfg.duration + 1));
    hide CreateRound, HandleMailbox;
    assert DeliverAll(s4, p.between) == DeliverAll(s5, []);
  }
}
