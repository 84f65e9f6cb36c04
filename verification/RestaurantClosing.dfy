/** How the restaurant closes: late admissions, guests without exits, evacuation, and draining. */
module RestaurantClosing {
  import opened Common
  import opened Mailbox
  import opened Rounds
  import opened Layout
  import opened RestaurantSpec
  import opened RestaurantProofs
  import opened RestaurantTheorems
  import opened Serving

  // ----- Closing -----

  lemma LetterOnlyShrinks(s: Restaurant, l: Letter<Message>, bill: Shake)
    ensures var r := Handle(s, l, bill);
            (r.open ==> s.open) && Guests(r).Items <= Guests(s).Items && r.waiting == s.waiting
  {
    hide DeliverAll;
  }

  lemma MailboxOnlyShrinks(s: Restaurant, receiving: seq<Event>, bill: Shake)
    ensures var r := HandleMailbox(s, receiving, bill);
            (r.open ==> s.open) && Guests(r).Items <= Guests(s).Items && r.waiting == s.waiting
  {
    var s1 := DeliverAll(s, receiving);
    var (ch, letter) := Receive(s1.ch);
    if letter.Some? {
      LetterOnlyShrinks(s1.(ch := ch), letter.value, bill);
    }
  }

  /** A closed restaurant refills no round. */
  lemma RefillOnlyIfOpen(cfg: Config, s: Restaurant, env: nat -> Shake)
    requires !s.open
    ensures var r := Refill(cfg, s, env);
            !r.open && Guests(r) == Guests(s) && r.waiting == s.waiting
  {
    var (s1, r) := Fill(cfg, Construct(s), Fresh(s.serial), env);
    assert r == Fresh(s.serial);
  }

  lemma WorkOnlyShrinksWhenClosed(cfg: Config, s: Restaurant, p: Pass, env: nat -> Shake)
    requires !s.open
    ensures var r := Work(cfg, s, p, env);
            !r.open && Guests(r).Items <= Guests(s).Items && r.waiting == s.waiting
  {
    var s1 := Sweep(s);
    MailboxOnlyShrinks(s1, p.receiving, p.bill);
    RefillOnlyIfOpen(cfg, HandleMailbox(s1, p.receiving, p.bill), env);
  }

  lemma ClosedPassOnlyShrinks(cfg: Config, s: Restaurant, p: Pass, env: nat -> Shake)
    requires !s.open
    ensures var r := Iterate(cfg, s, p, env);
            !r.open && Guests(r).Items <= Guests(s).Items
  {
    hide Work, DeliverAll;
    if !Finished(s) {
      var timeout := if s.waiting.Some? then s.waiting.value else NextTimeout(s);
      var s1 := DeliverAll(s.(waiting := Some(timeout)), p.asleep);
      var w := Wait(s1.ch, timeout, p.interrupted, p.expired);
      if w.Some? {
        WorkOnlyShrinksWhenClosed(cfg, s1.(waiting := None, ch := w.value), p, env);
      }
    }
  }

  /** No guest is added once the park is closed. */
  lemma {:induction false} ClosingIsStable(cfg: Config, s: Restaurant, ps: seq<Pass>, env: nat -> Shake)
    requires !s.open
    ensures var r := Run(cfg, s, ps, env);
            !r.open && Guests(r).Items <= Guests(s).Items
    decreases |ps|
  {
    if ps != [] {
      ClosedPassOnlyShrinks(cfg, s, ps[0], env);
      ClosingIsStable(cfg, Iterate(cfg, s, ps[0], env), ps[1..], env);
    }
  }

  /** A newcomer is added to the new round of a closed park exactly when it closes during the acknowledged handshake. */
  lemma LateAdmissionExactly(cfg: Config, s: Restaurant, r: Round, q: Request, h: Shake)
    requires q.pid !in r.clients
    ensures var (s1, r1, _) := Register(cfg, s, r, q, h);
            !s1.open && q.pid in r1.clients <==>
              && s.open && q.who.Some? && Fits(cfg, r, q.who.value) && Acknowledged(h)
              && (Close in h.posting || Close in h.awaiting)
  {
    if !h.Missing? {
      FlagsAfter(s, h.posting);
      if h.Sent? {
        FlagsAfter(DeliverAll(s, h.posting), h.awaiting);
      }
    }
  }

  /** So over every run only the very last acknowledged entry can come after closing. */
  lemma OneLateAdmission(cfg: Config, now: nat, ps: seq<Pass>, env: nat -> Shake, i: nat)
    ensures var s := Run(cfg, Start(now), ps, env);
            i < |s.seated| && (i < |s.seated| - 1 || s.open) ==> s.seated[i].open
  {
    StartIsSound(cfg, now);
    RunKeeps(cfg, Start(now), ps, env);
  }

  // ----- Leaving without an exit -----

  lemma DeliverKeepsReceived(s: Restaurant, e: Event)
    ensures Deliver(s, e).ch.received == s.ch.received
  {}

  lemma {:induction false} EventsKeepReceived(s: Restaurant, es: seq<Event>)
    ensures DeliverAll(s, es).ch.received == s.ch.received
    decreases |es|
  {
    hide Deliver;
    if es != [] {
      DeliverKeepsReceived(s, es[0]);
      EventsKeepReceived(Deliver(s, es[0]), es[1..]);
    }
  }

  lemma MailboxGuests(s: Restaurant, receiving: seq<Event>, bill: Shake)
    ensures var box := DeliverAll(s, receiving).ch.box;
            Guests(HandleMailbox(s, receiving, bill)).Keys ==
            if box != [] && box[0].body.ExitRestaurant? then Guests(s).Keys - {box[0].from} else Guests(s).Keys
  {
    hide DeliverAll;
  }

  /**
    * A guest is gone before the refill exactly if its exit has been read or its round was destroyed: over, with the
    * restaurant neither paused nor evacuated. An evacuated restaurant loses guests by their exits alone.
    */
  lemma GuestLeavesExactly(s: Restaurant, p: Pass, g: Pid)
    requires g in Guests(s)
    ensures var box := DeliverAll(Sweep(s), p.receiving).ch.box;
            g !in Guests(HandleMailbox(Sweep(s), p.receiving, p.bill)) <==>
              Drops(s) || (box != [] && box[0].from == g && box[0].body.ExitRestaurant?)
  {
    MailboxGuests(Sweep(s), p.receiving, p.bill);
    hide HandleMailbox, DeliverAll;
  }

  // ----- Evacuation -----

  /** Since the evacuation signal no request has been answered. */
  ghost predicate Silent(s: Restaurant) {
    s.evac ==> |s.handled| == s.alarm.handled
  }

  lemma {:induction false} EventsAndAlarm(s: Restaurant, es: seq<Event>)
    ensures var r := DeliverAll(s, es);
            && (r.evac <==> s.evac || Evacuate in es)
            && (r.evac ==> r.alarm.handled == if s.evac then s.alarm.handled else |s.handled|)
            && (s.round.None? ==> r.alarm.told == s.alarm.told)
    decreases |es|
  {
    if es != [] {
      EventsAndAlarm(Deliver(s, es[0]), es[1..]);
    }
  }

  lemma RegisterAndAlarm(cfg: Config, s: Restaurant, r: Round, q: Request, h: Shake)
    requires !Refused(cfg, s, r, q) && s.round.None?
    ensures var s1 := Register(cfg, s, r, q, h).0;
            && (s1.evac <==> s.evac || Evacuate in Heard(s.open, AsCall(q, h)))
            && (s1.evac ==> s1.alarm.handled == if s.evac then s.alarm.handled else |s.handled|)
            && s1.alarm.told == s.alarm.told && s1.round.None?
  {
    if q.who.Some? && !h.Missing? {
      EventsAndAlarm(s, h.posting);
      if h.Sent? {
        EventsAndAlarm(DeliverAll(s, h.posting), h.awaiting);
      }
    }
  }

  lemma {:induction false} FillKeepsAlarm(cfg: Config, s: Restaurant, r: Round, env: nat -> Shake)
    requires s.round.None? && s.evac
    ensures var s1 := Fill(cfg, s, r, env).0;
            s1.evac && s1.alarm == s.alarm
    decreases |s.queue|
  {
    if s.queue != [] {
      var q, h := s.queue[0], env(|s.handled|);
      var (s1, r1, served) := Register(cfg, s, r, q, h);
      if served {
        RegisterAndAlarm(cfg, s, r, q, h);
        FillKeepsAlarm(cfg, Take(s1), r1, env);
      }
    }
  }

  /** Among n requests served, has the alarm come, and has it come before the last? */
  ghost predicate Alarmed(s: Restaurant, s1: Restaurant, n: nat, within: bool, before: bool) {
    && s1.alarm.told == s.alarm.told && (s1.evac <==> within)
    && (within ==> |s.handled| <= s1.alarm.handled < |s.handled| + n)
    && (before <==> within && s1.alarm.handled + 1 < |s.handled| + n)
  }

  /** One served request that the alarm has not come with, and n more. */
  lemma AlarmedLater(s: Restaurant, s2: Restaurant, r: Restaurant, n: nat, within: bool, before: bool)
    requires |s2.handled| == |s.handled| + 1 && s2.alarm.told == s.alarm.told
    requires Alarmed(s2, r, n, within, before)
    ensures Alarmed(s, r, n + 1, within, before)
  {}

  /** Serving the first request, in the loop and seen from outside. */
  lemma ServeFirst(cfg: Config, s: Restaurant, r: Round, env: nat -> Shake)
    requires s.queue != [] && !Refused(cfg, s, r, s.queue[0])
    ensures var (s1, r1, _) := Register(cfg, s, r, s.queue[0], env(|s.handled|));
            var rules, calls, s2 := RestaurantRules(cfg), Calls(s, env), Take(s1);
            && Fill(cfg, s, r, env) == Fill(cfg, s2, r1, env) && Calls(s2, env) == calls[1..]
            && Serve(rules, s.open, s.paused, r, calls).served ==
               1 + Serve(rules, s2.open, s2.paused, r1, calls[1..]).served
            && (s2.open <==> StillOpen(rules, s.open, calls))
  {
    var q, h := s.queue[0], env(|s.handled|);
    assert Calls(s, env)[0] == AsCall(q, h);
    RefusedIfFull(cfg, s, r, q, h);
    RegisterIsHeard(cfg, s, r, q, h);
    CallsOfRest(s, Register(cfg, s, r, q, h).0, env);
    hide Register, Heard, Seated, Take, Calls, AsCall, Refused, Full;
  }

  lemma {:induction false} FillAndAlarm(cfg: Config, s: Restaurant, r: Round, env: nat -> Shake)
    requires s.round.None? && !s.evac
    ensures var rules, calls := RestaurantRules(cfg), Calls(s, env);
            var n: int := Serve(rules, s.open, s.paused, r, calls).served;
            Alarmed(s, Fill(cfg, s, r, env).0, n, HearsWithin(rules, Evacuate, s.open, calls, n),
                    HearsWithin(rules, Evacuate, s.open, calls, n - 1))
    decreases |s.queue|
  {
    var rules, calls := RestaurantRules(cfg), Calls(s, env);
    var n: int := Serve(rules, s.open, s.paused, r, calls).served;
    if s.queue == [] || Refused(cfg, s, r, s.queue[0]) {
      assert s.queue != [] ==> calls[0] == AsCall(s.queue[0], env(|s.handled|));
      HearsNothing(rules, Evacuate, s.open, calls, 0);
      HearsNothing(rules, Evacuate, s.open, calls, -1);
    } else {
      assert calls[0] == AsCall(s.queue[0], env(|s.handled|));
      ServeFirst(cfg, s, r, env);
      RegisterAndAlarm(cfg, s, r, s.queue[0], env(|s.handled|));
      hide Register, Serve, Fill, Heard, Calls, AsCall, Refused, HearsWithin, StillOpen;
      var (s1, r1, _) := Register(cfg, s, r, s.queue[0], env(|s.handled|));
      var s2, rest := Take(s1), calls[1..];
      HearsLater(rules, Evacuate, s.open, calls, n);
      if n > 1 {
        HearsLater(rules, Evacuate, s.open, calls, n - 1);
      } else {
        HearsNothing(rules, Evacuate, s.open, calls, 0);
        HearsNothing(rules, Evacuate, s2.open, rest, -1);
      }
      if s2.evac {
        FillKeepsAlarm(cfg, s2, r1, env);
      } else {
        FillAndAlarm(cfg, s2, r1, env);
        AlarmedLater(s, s2, Fill(cfg, s, r, env).0, n - 1, HearsWithin(rules, Evacuate, s2.open, rest, n - 1),
                     HearsWithin(rules, Evacuate, s2.open, rest, n - 2));
      }
    }
  }

  /**
    * The evacuation flag is not looked at while the queue is served. If the signal comes during a refill, the request
    * in progress is still served; others are as well exactly if the signal comes before the last handshake; and none
    * of the guests seated then is told to leave.
    */
  lemma EvacuationDuringRefill(cfg: Config, s: Restaurant, env: nat -> Shake)
    requires s.round.None? && !s.evac
    ensures var r := CreateRound(cfg, s, env);
            var rules, calls, n: int := RestaurantRules(cfg), Calls(s, env), ServeNext(cfg, s, env).served;
            && (r.evac <==> HearsWithin(rules, Evacuate, s.open, calls, n))
            && (r.evac ==> r.alarm.handled < |r.handled|)
            && (r.evac && r.alarm.handled + 1 < |r.handled| <==> HearsWithin(rules, Evacuate, s.open, calls, n - 1))
            && r.alarm.told == s.alarm.told
  {
    hide Fill, Serve, HearsWithin;
    var c := Construct(s);
    assert Calls(c, env) == Calls(s, env);
    FillAndAlarm(cfg, c, Fresh(s.serial), env);
    CreateRoundIsServe(cfg, s, env);
  }

  /** For instance: the second of two guests is seated after the signal has reached the restaurant. */
  lemma SeatedAfterEvacuation(cfg: Config, s: Restaurant, env: nat -> Shake, a: Request, b: Request)
    requires s.round.None? && !s.evac && s.open && cfg.capacity >= 4
    requires s.queue == [a, b] && a.who.Some? && b.who.Some?
    requires env(|s.handled|) == Sent([], Ack, [Evacuate]) && env(|s.handled| + 1) == Sent([], Ack, [])
    ensures var r := CreateRound(cfg, s, env);
            r.evac && r.alarm.handled + 1 < |r.handled| == |s.handled| + 2 && b.pid in Guests(r)
  {
    var rules, calls := RestaurantRules(cfg), Calls(s, env);
    var c, d := AsCall(a, env(|s.handled|)), AsCall(b, env(|s.handled| + 1));
    assert calls == [c, d];
    TwoSeated(rules, s.paused, Fresh(s.serial), c, d);
    assert HearsAt(rules, Evacuate, s.open, calls, 0);
    EvacuationDuringRefill(cfg, s, env);
    CreateRoundIsServe(cfg, s, env);
  }

  lemma TwoSeated(rules: Rules<Event>, paused: bool, f: Round, c: Call<Event>, d: Call<Event>)
    requires !rules.strict && rules.capacity >= 4 && rules.close == Close && f.clients == map[]
    requires c.who.Some? && d.who.Some? && c.welcome && d.welcome
    requires c.shake == Sent([], Ack, [Evacuate]) && d.shake == Sent([], Ack, [])
    ensures var g := Serve(rules, true, paused, f, [c, d]);
            g.served == 2 && d.pid in g.round.clients
    ensures Evacuate in Heard(true, c)
  {
    var r1 := Seated(true, f, c);
    LoadEmpty(f.clients);
    LoadInsert(f.clients, c.pid, c.who.value);
    assert [c, d][1..] == [d] && [d][1..] == [];
    assert [] + [Evacuate] == [Evacuate];
    var paused' := After(paused, rules.pause, rules.resume, [Evacuate]);
    assert Serve(rules, true, paused', r1, [d]).served == 1;
  }

  lemma EventsKeepSilent(s: Restaurant, es: seq<Event>)
    requires Silent(s)
    ensures Silent(DeliverAll(s, es))
  {
    EventsAndAlarm(s, es);
  }

  lemma MailboxKeepsSilent(s: Restaurant, receiving: seq<Event>, bill: Shake)
    requires Silent(s)
    ensures Silent(HandleMailbox(s, receiving, bill))
  {
    hide DeliverAll;
    EventsKeepSilent(s, receiving);
    var s1 := DeliverAll(s, receiving);
    var (ch, letter) := Receive(s1.ch);
    if letter.Some? && !bill.Missing? {
      var s2 := s1.(ch := ch);
      EventsKeepSilent(s2, bill.posting);
      if bill.Sent? {
        EventsKeepSilent(DeliverAll(s2, bill.posting), bill.awaiting);
      }
    }
  }

  lemma EventsKeepUnsilent(s: Restaurant, es: seq<Event>)
    requires !Silent(s)
    ensures !Silent(DeliverAll(s, es))
  {
    EventsAndAlarm(s, es);
  }

  /**
    * A wake-up lets the restaurant serve a request after the evacuation signal exactly if it refills, and the signal
    * comes during one of the handshakes of the refill.
    */
  lemma WorkBreaksSilenceExactly(cfg: Config, s: Restaurant, p: Pass, env: nat -> Shake)
    requires Silent(s)
    ensures var s1 := HandleMailbox(Sweep(s), p.receiving, p.bill);
            !Silent(Work(cfg, s, p, env)) <==>
              && s1.round.None? && !s1.paused && !s1.evac
              && HearsWithin(RestaurantRules(cfg), Evacuate, s1.open, Calls(s1, env), ServeNext(cfg, s1, env).served)
  {
    hide HandleMailbox, CreateRound, DeliverAll, HearsWithin;
    MailboxKeepsSilent(Sweep(s), p.receiving, p.bill);
    var s1 := HandleMailbox(Sweep(s), p.receiving, p.bill);
    var s2 := Refill(cfg, s1, env);
    if s1.round.None? && !s1.paused && !s1.evac {
      EvacuationDuringRefill(cfg, s1, env);
    }
    if Silent(s2) {
      EventsKeepSilent(s2, p.between);
    } else {
      EventsKeepUnsilent(s2, p.between);
    }
  }

  ghost predicate NoEvacuation(es: seq<Event>) {
    Evacuate !in es
  }

  lemma UnheardInRefill(cfg: Config, s: Restaurant, env: nat -> Shake, n: int)
    requires forall i :: Throughout(env(i), NoEvacuation)
    ensures !HearsWithin(RestaurantRules(cfg), Evacuate, s.open, Calls(s, env), n)
  {
    forall k: nat
      ensures !HearsAt(RestaurantRules(cfg), Evacuate, s.open, Calls(s, env), k)
    {
      assert k < |s.queue| ==> Throughout(env(|s.handled| + k), NoEvacuation);
    }
  }

  lemma IterateKeepsSilent(cfg: Config, s: Restaurant, p: Pass, env: nat -> Shake)
    requires Silent(s) && forall i :: Throughout(env(i), NoEvacuation)
    ensures Silent(Iterate(cfg, s, p, env))
  {
    hide Work, DeliverAll, HearsWithin;
    if !Finished(s) {
      var timeout := if s.waiting.Some? then s.waiting.value else NextTimeout(s);
      var s0 := s.(waiting := Some(timeout));
      EventsKeepSilent(s0, p.asleep);
      var s1 := DeliverAll(s0, p.asleep);
      var w := Wait(s1.ch, timeout, p.interrupted, p.expired);
      if w.Some? {
        var s2 := s1.(waiting := None, ch := w.value);
        var s3 := HandleMailbox(Sweep(s2), p.receiving, p.bill);
        WorkBreaksSilenceExactly(cfg, s2, p, env);
        UnheardInRefill(cfg, s3, env, ServeNext(cfg, s3, env).served);
      }
    }
  }

  /** From the signal itself, over every run in which it does not come during a refill: no request is served. */
  lemma {:induction false} EvacuationSilences(cfg: Config, s: Restaurant, ps: seq<Pass>, env: nat -> Shake)
    requires Silent(s) && forall i :: Throughout(env(i), NoEvacuation)
    ensures Silent(Run(cfg, s, ps, env))
    decreases |ps|
  {
    if ps != [] {
      IterateKeepsSilent(cfg, s, ps[0], env);
      EvacuationSilences(cfg, Iterate(cfg, s, ps[0], env), ps[1..], env);
    }
  }

  // ----- Exits under evacuation -----

  ghost function ExitsIn(ls: seq<Letter<Message>>): set<Pid> {
    set l | l in ls && l.body.ExitRestaurant? :: l.from
  }

  /** r follows s by reading letters: nobody is served, and the guests lost are those whose exits were read. */
  ghost predicate OnlyExits(s: Restaurant, r: Restaurant) {
    && r.evac && r.handled == s.handled && s.queue <= r.queue && s.ch.received <= r.ch.received
    && Guests(r) == Guests(s) - ExitsIn(r.ch.received[|s.ch.received|..])
  }

  lemma OnlyExitsTransitive(a: Restaurant, b: Restaurant, c: Restaurant)
    requires OnlyExits(a, b) && OnlyExits(b, c)
    ensures OnlyExits(a, c)
  {
    var m, n := |a.ch.received|, |b.ch.received|;
    assert c.ch.received[m..] == b.ch.received[m..] + c.ch.received[n..];
    assert ExitsIn(c.ch.received[m..]) == ExitsIn(b.ch.received[m..]) + ExitsIn(c.ch.received[n..]);
  }

  lemma EventsOnlyExits(s: Restaurant, es: seq<Event>)
    requires s.evac
    ensures OnlyExits(s, DeliverAll(s, es))
  {
    EventsKeepReceived(s, es);
    assert ExitsIn([]) == {};
  }

  lemma EvacuatedLetter(s: Restaurant, l: Letter<Message>, bill: Shake)
    requires s.evac
    ensures var r := Handle(s, l, bill);
            && r.evac && r.handled == s.handled && s.queue <= r.queue && r.ch.received == s.ch.received
            && Guests(r) == Guests(s) - ExitsIn([l])
  {
    hide DeliverAll;
    if l.body.ExitRestaurant? && !bill.Missing? {
      EventsKeepReceived(s, bill.posting);
      if bill.Sent? {
        EventsKeepReceived(DeliverAll(s, bill.posting), bill.awaiting);
      }
    }
    assert ExitsIn([l]) == if l.body.ExitRestaurant? then {l.from} else {};
  }

  lemma EvacuatedMailbox(s: Restaurant, receiving: seq<Event>, bill: Shake)
    requires s.evac
    ensures OnlyExits(s, HandleMailbox(s, receiving, bill)) && HandleMailbox(s, receiving, bill).evac
  {
    hide Handle;
    EventsOnlyExits(s, receiving);
    var s1 := DeliverAll(s, receiving);
    var (ch, letter) := Receive(s1.ch);
    assert OnlyExits(s1, HandleMailbox(s, receiving, bill)) by {
      if letter.None? {
        assert ExitsIn([]) == {};
      } else {
        var l := letter.value;
        assert ch.received[|s1.ch.received|..] == [l];
        EvacuatedLetter(s1.(ch := ch), l, bill);
      }
    }
    OnlyExitsTransitive(s, s1, HandleMailbox(s, receiving, bill));
  }

  lemma EvacuatedPass(cfg: Config, s: Restaurant, p: Pass, env: nat -> Shake)
    requires s.evac
    ensures OnlyExits(s, Iterate(cfg, s, p, env))
  {
    hide OnlyExits, HandleMailbox, DeliverAll;
    EvacuatedSame(s, s);
    if !Finished(s) {
      var timeout := if s.waiting.Some? then s.waiting.value else NextTimeout(s);
      var s0 := s.(waiting := Some(timeout));
      EvacuatedSame(s, s0);
      EventsOnlyExits(s0, p.asleep);
      var s1 := DeliverAll(s0, p.asleep);
      OnlyExitsTransitive(s, s0, s1);
      var w := Wait(s1.ch, timeout, p.interrupted, p.expired);
      if w.Some? {
        var s2 := s1.(waiting := None, ch := w.value);
        EvacuatedSame(s1, s2);
        EvacuatedMailbox(s2, p.receiving, p.bill);
        var s3 := HandleMailbox(s2, p.receiving, p.bill);
        EventsOnlyExits(s3, p.between);
        OnlyExitsTransitive(s, s1, s2);
        OnlyExitsTransitive(s, s2, s3);
        OnlyExitsTransitive(s, s3, DeliverAll(s3, p.between));
      }
    }
  }

  lemma EvacuatedSame(s: Restaurant, r: Restaurant)
    requires s.evac && r.evac && r.handled == s.handled && r.queue == s.queue && r.round == s.round
    requires r.ch.received == s.ch.received
    ensures OnlyExits(s, r)
  {
    assert ExitsIn([]) == {};
  }

  /**
    * From any evacuated state between two passes, whether its guests were seated before the signal or after it: no
    * request is answered and nobody is seated, whatever the clock and the signals do, and the guests left are those
    * whose exits have not been read. So the loop ends exactly when the park is closed and every guest's exit has been
    * read: a single one that is never sent keeps the restaurant in its loop.
    */
  lemma {:induction false} EvacuationWaitsForExits(cfg: Config, s: Restaurant, ps: seq<Pass>, env: nat -> Shake)
    requires s.evac
    ensures var r := Run(cfg, s, ps, env);
            && OnlyExits(s, r)
            && (Finished(r) <==>
                 r.waiting.None? && !r.open && Guests(s).Keys <= ExitsIn(r.ch.received[|s.ch.received|..]))
    decreases |ps|
  {
    EvacuatedRun(cfg, s, ps, env);
    var r := Run(cfg, s, ps, env);
    var exits := ExitsIn(r.ch.received[|s.ch.received|..]);
    assert (Guests(s) - exits).Keys == Guests(s).Keys - exits;
    assert Guests(s).Keys - exits == {} ==> Guests(s).Keys <= exits by {
      assert forall p <- Guests(s).Keys :: p in exits || p in Guests(s).Keys - exits;
    }
    assert Guests(r) == map[] <==> Guests(r).Keys == {};
  }

  lemma {:induction false} EvacuatedRun(cfg: Config, s: Restaurant, ps: seq<Pass>, env: nat -> Shake)
    requires s.evac
    ensures OnlyExits(s, Run(cfg, s, ps, env))
    decreases |ps|
  {
    if ps == [] {
      EvacuatedSame(s, s);
    } else {
      var s1 := Iterate(cfg, s, ps[0], env);
      EvacuatedPass(cfg, s, ps[0], env);
      EvacuatedRun(cfg, s1, ps[1..], env);
      OnlyExitsTransitive(s, s1, Run(cfg, s1, ps[1..], env));
    }
  }

  /**
    * Without an evacuation nobody waits for exits: a closed restaurant that is woken leaves its loop exactly if it has
    * no guest, sends them away because their round is over and it is not paused, or reads the exit of the only one.
    */
  lemma ClosedLoopEndsExactly(cfg: Config, s: Restaurant, p: Pass, env: nat -> Shake)
    requires !s.open && s.waiting.None?
    ensures var box := DeliverAll(Sweep(s), p.receiving).ch.box;
            Finished(Work(cfg, s, p, env)) <==>
              || Guests(s) == map[] || Drops(s)
              || (box != [] && box[0].body.ExitRestaurant? && Guests(s).Keys == {box[0].from})
  {
    var s1 := HandleMailbox(Sweep(s), p.receiving, p.bill);
    MailboxOnlyShrinks(Sweep(s), p.receiving, p.bill);
    RefillOnlyIfOpen(cfg, s1, env);
    MailboxGuests(Sweep(s), p.receiving, p.bill);
    assert Guests(s1) == map[] <==> Guests(s1).Keys == {};
    assert Guests(s) == map[] <==> Guests(s).Keys == {};
  }

  // ----- Draining -----

  /** Nothing is sent to the restaurant any more. */
  ghost predicate Quiet(es: seq<Event>) {
    forall e <- es :: e.Mail? ==> !e.traffic.Post?
  }

  ghost predicate QuietShake(h: Shake) {
    Throughout(h, Quiet)
  }

  ghost predicate QuietPass(p: Pass) {
    Quiet(p.asleep) && Quiet(p.receiving) && QuietShake(p.bill) && Quiet(p.between)
  }

  ghost predicate IsExit(m: Message) {
    m.ExitRestaurant?
  }

  /** A closed restaurant to which nobody is still to signal, with every guest's exit in the mailbox. */
  ghost predicate Draining(s: Restaurant) {
    !s.open && s.ch.pending == {} && Announced(Guests(s).Keys, s.ch.box, IsExit)
  }

  /** Between s and r letters are neither added nor read, and nobody joins. */
  ghost predicate SameBox(s: Restaurant, r: Restaurant) {
    && r.ch.box == s.ch.box && r.ch.pending == s.ch.pending && r.ch.tokens >= s.ch.tokens
    && Guests(r).Items <= Guests(s).Items && (r.open ==> s.open) && r.waiting == s.waiting
  }

  lemma FewerGuests(g: map<Pid, Rider>, h: map<Pid, Rider>, box: seq<Letter<Message>>)
    requires Announced(g.Keys, box, IsExit) && h.Items <= g.Items
    ensures Announced(h.Keys, box, IsExit)
  {
    forall p <- h
      ensures p in g
    {
      assert (p, h[p]) in h.Items;
    }
  }

  lemma {:induction false} QuietEvents(s: Restaurant, es: seq<Event>)
    requires Quiet(es) && s.ch.pending == {}
    ensures SameBox(s, DeliverAll(s, es))
    decreases |es|
  {
    if es != [] {
      assert es[0] in es;
      QuietEvents(Deliver(s, es[0]), es[1..]);
    }
  }

  lemma QuietBill(s: Restaurant, pid: Pid, h: Shake)
    requires QuietShake(h) && s.ch.pending == {}
    ensures SameBox(s, SendBill(s, pid, h))
  {
    if !h.Missing? {
      QuietEvents(s, h.posting);
      if h.Sent? {
        QuietEvents(DeliverAll(s, h.posting), h.awaiting);
      }
    }
  }

  lemma {:induction false} QuietFill(cfg: Config, s: Restaurant, r: Round, env: nat -> Shake)
    requires !s.open && s.ch.pending == {} && forall i :: QuietShake(env(i))
    ensures SameBox(s, Fill(cfg, s, r, env).0)
    decreases |s.queue|
  {
    if s.queue != [] {
      var h := env(|s.handled|);
      var (s1, r1, served) := Register(cfg, s, r, s.queue[0], h);
      if !h.Missing? {
        QuietEvents(s, h.posting);
      }
      if served {
        QuietFill(cfg, Take(s1), r1, env);
      }
    }
  }

  /** An exit from a registered guest removes exactly that guest. */
  lemma ExitShrinks(s: Restaurant, l: Letter<Message>, bill: Shake)
    requires l.body.ExitRestaurant? && l.from in Guests(s)
    ensures var r := Handle(s, l, bill);
            Guests(r) == Guests(s) - {l.from} && |Guests(r)| == |Guests(s)| - 1
  {
    var g := Guests(s);
    assert (g - {l.from}).Keys == g.Keys - {l.from};
  }

  lemma QuietHandle(s: Restaurant, l: Letter<Message>, bill: Shake)
    requires !s.open && s.ch.pending == {} && Announced(Guests(s).Keys, [l] + s.ch.box, IsExit) && QuietShake(bill)
    ensures var r := Handle(s, l, bill);
            Draining(r) && r.waiting == s.waiting && r.ch.box == s.ch.box
  {
    QuietBill(s, l.from, bill);
    AnnouncedRest(Guests(s).Keys, [l] + s.ch.box, IsExit);
    assert ([l] + s.ch.box)[1..] == s.ch.box;
    assert Guests(Handle(s, l, bill)).Keys == if IsExit(l.body) then Guests(s).Keys - {l.from} else Guests(s).Keys;
  }

  lemma QuietMailbox(s: Restaurant, receiving: seq<Event>, bill: Shake)
    requires Draining(s) && Quiet(receiving) && QuietShake(bill)
    ensures var r := HandleMailbox(s, receiving, bill);
            && Draining(r) && r.waiting == s.waiting
            && r.ch.box == if s.ch.box == [] then [] else s.ch.box[1..]
  {
    QuietEvents(s, receiving);
    var s1 := DeliverAll(s, receiving);
    if s.ch.box != [] {
      var (ch, letter) := Receive(s1.ch);
      assert [letter.value] + ch.box == s.ch.box;
      QuietHandle(s1.(ch := ch), letter.value, bill);
    }
  }

  lemma QuietWork(cfg: Config, s: Restaurant, p: Pass, env: nat -> Shake)
    requires Draining(s) && QuietPass(p) && forall i :: QuietShake(env(i))
    ensures var r := Work(cfg, s, p, env);
            && Draining(r) && r.waiting == s.waiting
            && r.ch.box == if s.ch.box == [] then [] else s.ch.box[1..]
  {
    var s1 := Sweep(s);
    FewerGuests(Guests(s), Guests(s1), s.ch.box);
    QuietMailbox(s1, p.receiving, p.bill);
    var s2 := HandleMailbox(s1, p.receiving, p.bill);
    QuietFill(cfg, Construct(s2), Fresh(s2.serial), env);
    var s3 := Refill(cfg, s2, env);
    assert SameBox(s2, s3);
    QuietEvents(s3, p.between);
    FewerGuests(Guests(s2), Guests(DeliverAll(s3, p.between)), s2.ch.box);
  }

  lemma DrainingPass(cfg: Config, s: Restaurant, p: Pass, env: nat -> Shake)
    requires Sound(cfg, s, s.serial) && !s.ch.hand && Draining(s) && !Finished(s)
    requires QuietPass(p) && forall i :: QuietShake(env(i))
    requires s.waiting.Some? && s.ch.box == [] ==> s.ch.tokens >= 1
    ensures var r := Iterate(cfg, s, p, env);
            && Draining(r) && r.waiting.None?
            && r.ch.box == if s.ch.box == [] then [] else s.ch.box[1..]
  {
    hide Once, AllFair, OneLate, Work, DeliverAll, Announced;
    if s.ch.box == [] {
      NobodyAnnounced(Guests(s).Keys, s.ch.box, IsExit);
    }
    var timeout := if s.waiting.Some? then s.waiting.value else NextTimeout(s);
    var s0 := s.(waiting := Some(timeout));
    QuietEvents(s0, p.asleep);
    var s1 := DeliverAll(s0, p.asleep);
    assert s1.ch.tokens >= 1;
    FewerGuests(Guests(s), Guests(s1), s.ch.box);
    var w := Wait(s1.ch, timeout, p.interrupted, p.expired);
    QuietWork(cfg, s1.(waiting := None, ch := w.value), p, env);
  }

  /**
    * If every guest's exit is in the mailbox and nobody is still to signal, a closed restaurant leaves its loop
    * within one pass for each unread letter, whatever pauses, evacuations and expiries happen meanwhile.
    */
  lemma {:induction false} ClosingEmptiesRestaurant(cfg: Config, s: Restaurant, ps: seq<Pass>, env: nat -> Shake)
    requires Sound(cfg, s, s.serial) && !s.ch.hand && Draining(s)
    requires s.waiting.Some? && s.ch.box == [] ==> s.ch.tokens >= 1
    requires (forall p <- ps :: QuietPass(p)) && forall i :: QuietShake(env(i))
    requires |ps| >= if s.waiting.Some? && s.ch.box == [] then 1 else |s.ch.box|
    ensures var r := Run(cfg, s, ps, env);
            Finished(r) && Guests(r) == map[]
    decreases |ps|
  {
    if s.ch.box == [] {
      NobodyAnnounced(Guests(s).Keys, s.ch.box, IsExit);
    }
    if Finished(s) {
      FinishedStays(cfg, s, ps, env);
    } else {
      assert ps[0] in ps;
      DrainingPass(cfg, s, ps[0], env);
      IterateKeeps(cfg, s, ps[0], env);
      ClosingEmptiesRestaurant(cfg, Iterate(cfg, s, ps[0], env), ps[1..], env);
    }
  }
}
