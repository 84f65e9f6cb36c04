/** What the restaurant keeps over every run, whatever its guests and the signals do. */
module RestaurantProofs {
  import opened Common
  import opened Mailbox
  import opened Rounds
  import opened Layout
  import opened RestaurantSpec

  // ----- The invariant -----

  ghost predicate Once(round: Option<Round>, freed: seq<Freed>, bound: nat) {
    && (round.Some? ==> round.value.serial < bound)
    && (forall k :: 0 <= k < |freed| ==> freed[k].round.serial < bound)
    && (forall k, l :: 0 <= k < l < |freed| ==> freed[k].round.serial != freed[l].round.serial)
    && (round.Some? && !round.value.released ==>
          forall k :: 0 <= k < |freed| ==> freed[k].round.serial != round.value.serial)
  }

  /** Guests are let go only at the end of their round or by a pause. */
  ghost predicate Fair(f: Freed) {
    f.round.clients == map[] || f.at >= f.round.finish || f.paused
  }

  /** Only the last guest can have been added after closing. */
  ghost predicate OneLate(seated: seq<Seat>, open: bool) {
    && (forall i :: 0 <= i < |seated| - 1 ==> seated[i].open)
    && (open ==> forall i :: 0 <= i < |seated| ==> seated[i].open)
  }

  ghost predicate AllFair(freed: seq<Freed>) {
    forall k :: 0 <= k < |freed| ==> Fair(freed[k])
  }

  ghost predicate Sound(cfg: Config, s: Restaurant, bound: nat) {
    && (s.round.Some? ==> s.round.value.started && Load(s.round.value.clients) <= cfg.capacity
                          && (!s.round.value.released ==> s.leave == 0))
    && Once(s.round, s.freed, bound)
    && AllFair(s.freed)
    && OneLate(s.seated, s.open)
    && s.handled + s.queue == s.arrived
    && Balanced(s.ch) && s.ch.skipped == 0
  }

  ghost predicate Boarding(cfg: Config, r: Round) {
    !r.started && !r.released && Load(r.clients) <= cfg.capacity
  }

  ghost predicate Vacant(s: Restaurant) {
    s.round.None? && s.leave == 0
  }

  lemma ReleaseKeeps(cfg: Config, s: Restaurant, bound: nat)
    requires Sound(cfg, s, bound)
    requires s.round.Some? ==> Over(s.round.value, s.now) || s.paused
    ensures Sound(cfg, Release(s), bound) && (Vacant(s) ==> Vacant(Release(s)))
  {}

  lemma DeliverKeeps(cfg: Config, s: Restaurant, e: Event, bound: nat)
    requires Sound(cfg, s, bound)
    ensures Sound(cfg, Deliver(s, e), bound) && (Vacant(s) ==> Vacant(Deliver(s, e)))
    ensures Deliver(s, e).ch.hand == s.ch.hand
  {
    match e
    case Pause => ReleaseKeeps(cfg, s.(paused := true), bound);
    case Mail(t) => StepKeepsBalance(s.ch, t);
    case _ =>
  }

  lemma {:induction false} DeliverAllKeeps(cfg: Config, s: Restaurant, es: seq<Event>, bound: nat)
    requires Sound(cfg, s, bound)
    ensures Sound(cfg, DeliverAll(s, es), bound) && (Vacant(s) ==> Vacant(DeliverAll(s, es)))
    ensures DeliverAll(s, es).ch.hand == s.ch.hand
    decreases |es|
  {
    if es != [] {
      DeliverKeeps(cfg, s, es[0], bound);
      DeliverAllKeeps(cfg, Deliver(s, es[0]), es[1..], bound);
    }
  }

  /** An acknowledgement of a handshake that began in an open park is recorded. */
  lemma SeatKeeps(s: Restaurant, s1: Restaurant, s2: Restaurant, seat: Seat, cfg: Config, bound: nat)
    requires Sound(cfg, s, bound) && Sound(cfg, s2, bound)
    requires s.open && s1.seated == s.seated && s2.seated == s1.seated
    requires seat.open == s2.open
    ensures OneLate(s2.seated + [seat], s2.open)
  {}

  lemma RegisterKeeps(cfg: Config, s: Restaurant, r: Round, q: Request, h: Shake, bound: nat)
    requires Sound(cfg, s, bound) && Boarding(cfg, r)
    ensures var (s1, r1, served) := Register(cfg, s, r, q, h);
            && Sound(cfg, s1, bound) && Boarding(cfg, r1) && (Vacant(s) ==> Vacant(s1))
            && s1.ch.hand == s.ch.hand && r1.serial == r.serial
  {
    hide Once, AllFair, OneLate, Balanced, Fair, DeliverAll;
    if !h.Missing? {
      DeliverAllKeeps(cfg, s, h.posting, bound);
      if h.Sent? {
        var s1 := DeliverAll(s, h.posting);
        DeliverAllKeeps(cfg, s1, h.awaiting, bound);
        if s.open {
          var s2 := DeliverAll(s1, h.awaiting);
          var who := if q.who.Some? then q.who.value else Guest(false, FromPark);
          SeatKeeps(s, s1, s2, Seat(q.pid, who, s2.open, r.serial, |s.handled|, |s2.ch.received|), cfg, bound);
        }
        if q.who.Some? && q.pid !in r.clients {
          LoadInsert(r.clients, q.pid, q.who.value);
        }
      }
    }
  }

  lemma TakeKeeps(cfg: Config, s: Restaurant, bound: nat)
    requires Sound(cfg, s, bound) && s.queue != []
    ensures Sound(cfg, Take(s), bound) && (Vacant(s) ==> Vacant(Take(s)))
  {
    assert s.queue == [s.queue[0]] + s.queue[1..];
    assert Take(s).handled + Take(s).queue == s.handled + s.queue;
  }

  lemma {:induction false} FillKeeps(cfg: Config, s: Restaurant, r: Round, env: nat -> Shake, bound: nat)
    requires Sound(cfg, s, bound) && Boarding(cfg, r)
    ensures var (s1, r1) := Fill(cfg, s, r, env);
            && Sound(cfg, s1, bound) && Boarding(cfg, r1) && (Vacant(s) ==> Vacant(s1))
            && s1.ch.hand == s.ch.hand && r1.serial == r.serial
    decreases |s.queue|
  {
    hide Once, AllFair, OneLate, Balanced, Fair, Register, Boarding;
    if s.queue != [] {
      RegisterKeeps(cfg, s, r, s.queue[0], env(|s.handled|), bound);
      var (s1, r1, served) := Register(cfg, s, r, s.queue[0], env(|s.handled|));
      if served {
        TakeKeeps(cfg, s1, bound);
        FillKeeps(cfg, Take(s1), r1, env, bound);
      }
    }
  }

  lemma ConcludeKeeps(cfg: Config, s: Restaurant, r: Round)
    requires Sound(cfg, s, r.serial) && s.serial == r.serial + 1 && Boarding(cfg, r) && Vacant(s)
    ensures Sound(cfg, Conclude(cfg, s, r), s.serial)
  {
    hide Balanced, OneLate;
  }

  lemma CreateRoundKeeps(cfg: Config, s: Restaurant, env: nat -> Shake)
    requires Sound(cfg, s, s.serial) && s.round.None?
    ensures var r := CreateRound(cfg, s, env);
            Sound(cfg, r, r.serial) && r.ch.hand == s.ch.hand
  {
    LoadEmpty(Fresh(s.serial).clients);
    FillKeeps(cfg, Construct(s), Fresh(s.serial), env, s.serial);
    var (s1, r) := Fill(cfg, Construct(s), Fresh(s.serial), env);
    ConcludeKeeps(cfg, s1, r);
  }

  lemma SendBillKeeps(cfg: Config, s: Restaurant, pid: Pid, h: Shake, bound: nat)
    requires Sound(cfg, s, bound)
    ensures Sound(cfg, SendBill(s, pid, h), bound) && SendBill(s, pid, h).ch.hand == s.ch.hand
  {
    if !h.Missing? {
      DeliverAllKeeps(cfg, s, h.posting, bound);
      if h.Sent? {
        DeliverAllKeeps(cfg, DeliverAll(s, h.posting), h.awaiting, bound);
      }
    }
  }

  lemma RemoveKeeps(cfg: Config, s: Restaurant, pid: Pid, bound: nat)
    requires Sound(cfg, s, bound)
    ensures Sound(cfg, Remove(s, pid), bound)
  {
    if s.round.Some? {
      var m := s.round.value.clients;
      if pid in m {
        LoadRemove(m, pid);
      } else {
        assert m - {pid} == m;
      }
    }
  }

  lemma HandleKeeps(cfg: Config, s: Restaurant, l: Letter<Message>, bill: Shake, bound: nat)
    requires Sound(cfg, s, bound)
    ensures Sound(cfg, Handle(s, l, bill), bound)
    ensures Handle(s, l, bill).serial == s.serial && Handle(s, l, bill).ch.hand == s.ch.hand
  {
    hide Once, AllFair, OneLate, Balanced, Fair;
    if l.body.ExitRestaurant? {
      SendBillKeeps(cfg, s, l.from, bill, bound);
      RemoveKeeps(cfg, SendBill(s, l.from, bill), l.from, bound);
    }
  }

  lemma HandleMailboxKeeps(cfg: Config, s: Restaurant, receiving: seq<Event>, bill: Shake, bound: nat)
    requires Sound(cfg, s, bound)
    ensures var r := HandleMailbox(s, receiving, bill);
            Sound(cfg, r, bound) && r.serial == s.serial && !r.ch.hand
  {
    hide Once, AllFair, OneLate, Balanced, Fair, DeliverAll, Handle;
    DeliverAllKeeps(cfg, s, receiving, bound);
    var s1 := DeliverAll(s, receiving);
    ReceiveKeepsBalance(s1.ch);
    var (ch, letter) := Receive(s1.ch);
    if letter.Some? {
      HandleKeeps(cfg, s1.(ch := ch), letter.value, bill, bound);
    }
  }

  lemma SweepKeeps(cfg: Config, s: Restaurant, bound: nat)
    requires Sound(cfg, s, bound)
    ensures Sound(cfg, Sweep(s), bound) && Sweep(s).serial == s.serial
  {
    if s.round.Some? && Over(s.round.value, s.now) {
      ReleaseKeeps(cfg, s, bound);
    }
  }

  lemma WorkKeeps(cfg: Config, s: Restaurant, p: Pass, env: nat -> Shake)
    requires Sound(cfg, s, s.serial)
    ensures var r := Work(cfg, s, p, env);
            Sound(cfg, r, r.serial) && !r.ch.hand
  {
    hide Once, AllFair, OneLate, Balanced, Fair, DeliverAll, HandleMailbox, Sweep, CreateRound;
    SweepKeeps(cfg, s, s.serial);
    HandleMailboxKeeps(cfg, Sweep(s), p.receiving, p.bill, s.serial);
    var s1 := HandleMailbox(Sweep(s), p.receiving, p.bill);
    if s1.round.None? {
      CreateRoundKeeps(cfg, s1, env);
    }
    var s2 := Refill(cfg, s1, env);
    DeliverAllKeeps(cfg, s2, p.between, s2.serial);
  }

  lemma IterateKeeps(cfg: Config, s: Restaurant, p: Pass, env: nat -> Shake)
    requires Sound(cfg, s, s.serial) && !s.ch.hand
    ensures var r := Iterate(cfg, s, p, env);
            Sound(cfg, r, r.serial) && !r.ch.hand
  {
    hide Once, AllFair, OneLate, Balanced, Fair, DeliverAll, Work;
    var timeout := if s.waiting.Some? then s.waiting.value else NextTimeout(s);
    var s0 := s.(waiting := Some(timeout));
    DeliverAllKeeps(cfg, s0, p.asleep, s.serial);
    var s1 := DeliverAll(s0, p.asleep);
    WaitKeepsBalance(s1.ch, timeout, p.interrupted, p.expired);
    var w := Wait(s1.ch, timeout, p.interrupted, p.expired);
    if w.Some? {
      WorkKeeps(cfg, s1.(waiting := None, ch := w.value), p, env);
    }
  }

  lemma StartIsSound(cfg: Config, now: nat)
    ensures Sound(cfg, Start(now), 0)
  {}

  lemma {:induction false} RunKeeps(cfg: Config, s: Restaurant, ps: seq<Pass>, env: nat -> Shake)
    requires Sound(cfg, s, s.serial) && !s.ch.hand
    ensures var r := Run(cfg, s, ps, env);
            Sound(cfg, r, r.serial) && !r.ch.hand
    decreases |ps|
  {
    if ps != [] {
      IterateKeeps(cfg, s, ps[0], env);
      RunKeeps(cfg, Iterate(cfg, s, ps[0], env), ps[1..], env);
    }
  }

  lemma {:induction false} FinishedStays(cfg: Config, s: Restaurant, ps: seq<Pass>, env: nat -> Shake)
    requires Finished(s)
    ensures Run(cfg, s, ps, env) == s
    decreases |ps|
  {
    if ps != [] {
      FinishedStays(cfg, s, ps[1..], env);
    }
  }
}
