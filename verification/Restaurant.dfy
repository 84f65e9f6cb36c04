/** The restaurant process: one round object, replaced and released in place, proved to follow RestaurantSpec. */
module RestaurantProcess {
  import opened Common
  import opened Mailbox
  import opened Rounds
  import opened Layout
  import opened RestaurantSpec
  import opened RestaurantProofs

  class RestaurantProc {
    const cfg: Config

    // shared with other processes
    var open: bool
    var now: nat
    var ch: Channel<Message>
    const leave: Semaphore

    // the process's own state
    var paused: bool
    var evac: bool
    var waiting: Option<int>
    var handler: AttractionHandler?
    var queue: seq<Request>

    // history; handled also says how many handshakes have taken place
    var handled: seq<Request>
    ghost var arrived: seq<Request>
    ghost var freed: seq<Freed>
    ghost var serial: nat
    ghost var seated: seq<Seat>
    ghost var alarm: Alarm

    ghost function View(): Restaurant
      reads this, leave, handler
    {
      Restaurant(open, paused, evac, now, waiting, if handler == null then None else Some(handler.View()),
                 leave.value, queue, ch, arrived, handled, freed, serial, seated, alarm)
    }

    ghost predicate Valid(bound: nat)
      reads this, leave, handler
    {
      && cfg.capacity <= SEMVMX
      && Sound(cfg, View(), bound)
      && (handler != null ==> handler.leave == leave && handler.duration == cfg.duration)
    }

    constructor (cfg: Config, now: nat, leave: Semaphore)
      requires cfg.capacity <= SEMVMX && leave.value == 0
      ensures Valid(0) && View() == Start(now) && this.leave == leave && this.cfg == cfg && handler == null
    {
      this.cfg := cfg;
      this.now := now;
      this.leave := leave;
      open, paused, evac, waiting, handler := true, false, false, None, null;
      ch, queue, handled := Empty(), [], [];
      arrived, freed, serial, seated, alarm := [], [], 0, [], Alarm(0, {});
      new;
      hide Sound;
      StartIsSound(cfg, now);
    }

    // ----- Events -----

    /** On a pause every guest gets a token, but the round stays. */
    method CloseAttraction(ghost bound: nat)
      requires Valid(bound) && (handler != null ==> Over(handler.View(), now) || paused)
      modifies this`freed, leave, handler
      ensures Valid(bound) && View() == Release(old(View()))
    {
      hide Once, AllFair, OneLate, Balanced, Fair;
      ReleaseKeeps(cfg, View(), bound);
      if handler != null {
        LoadEmpty(handler.clients);
        if !handler.released {
          freed := freed + [Freed(handler.View(), now, paused)];
        }
        handler.ReleaseClients();
      }
    }

    /** A guest waiting on the leave semaphore gets through. */
    method TakeLeaveToken(ghost bound: nat)
      requires Valid(bound)
      modifies leave
      ensures Valid(bound) && View() == Deliver(old(View()), Leave)
    {
      DeliverKeeps(cfg, View(), Leave, bound);
      if leave.value > 0 {
        leave.SetValue(leave.value - 1);
      }
    }

    method HandleSigUsr1(ghost bound: nat)
      requires Valid(bound)
      modifies this`paused, this`freed, leave, handler
      ensures Valid(bound) && View() == Deliver(old(View()), Pause)
    {
      paused := true;
      CloseAttraction(bound);
    }

    /** The three signal handlers; on an evacuation the seated guests from outside the park are told to leave. */
    method HandleSignal(e: Event, ghost bound: nat)
      requires Valid(bound) && (e.Pause? || e.Resume? || e.Evacuate?)
      modifies this`paused, this`evac, this`alarm, this`freed, leave, handler
      ensures Valid(bound) && View() == Deliver(old(View()), e)
    {
      hide Sound, Release;
      DeliverKeeps(cfg, View(), e, bound);
      if e.Pause? {
        HandleSigUsr1(bound);
      } else if e.Resume? {
        paused := false;
      } else {
        alarm := Evacuated(View()).alarm;
        evac := true;
      }
    }

    method HandleEvent(e: Event, ghost bound: nat)
      requires Valid(bound)
      modifies this`open, this`now, this`ch, this`paused, this`evac, this`alarm, this`freed, leave, handler
      ensures Valid(bound) && View() == Deliver(old(View()), e) && ch.hand == old(ch.hand)
    {
      hide Sound, Release, Step;
      DeliverKeeps(cfg, View(), e, bound);
      match e {
        case Pause | Resume | Evacuate => HandleSignal(e, bound);
        case Close => open := false;
        case Elapse(d) => now := now + d;
        case Leave => TakeLeaveToken(bound);
        case Mail(t) => ch := Step(ch, t);
      }
    }

    /** The events of one blocking call. */
    method Block(es: seq<Event>, ghost bound: nat)
      requires Valid(bound)
      modifies this`open, this`now, this`ch, this`paused, this`evac, this`alarm, this`freed, leave, handler
      ensures Valid(bound) && View() == DeliverAll(old(View()), es) && ch.hand == old(ch.hand)
    {
      var i := 0;
      assert es[0..] == es;
      while i < |es|
        invariant 0 <= i <= |es| && Valid(bound) && ch.hand == old(ch.hand)
        invariant DeliverAll(View(), es[i..]) == DeliverAll(old(View()), es)
      {
        HandleEvent(es[i], bound);
        assert es[i..][1..] == es[i + 1..];
        i := i + 1;
      }
    }

    // ----- Registration -----

    method RegisterClient(q: Request, round: AttractionHandler, h: Shake, ghost bound: nat) returns (served: bool)
      requires Valid(bound) && round != handler && Boarding(cfg, round.View())
      modifies this`seated, this`open, this`now, this`ch, this`paused, this`evac, this`alarm, this`freed,
               leave, handler, round
      ensures Valid(bound) && (View(), round.View(), served) == Register(cfg, old(View()), old(round.View()), q, h)
    {
      hide Sound, DeliverAll, Boarding;
      RegisterKeeps(cfg, View(), round.View(), q, h, bound);
      if q.who.None? {
        return true;
      }
      var allowed := open;
      var count := round.GetClientCount();
      if count + Weight(q.who.value.hasChild) > cfg.capacity && allowed {
        return false;
      }
      if h.Missing? {
        return true;
      }
      Block(h.posting, bound);
      if h.Unsent? || !allowed {
        return true;
      }
      Block(h.awaiting, bound);
      if h.reply.Ack? {
        Admit(q.pid, q.who.value, round);
      }
      return true;
    }

    method Admit(pid: Pid, who: Rider, round: AttractionHandler)
      requires round != handler
      modifies this`seated, round
      ensures var seat := Seat(pid, who, open, round.serial, |handled|, |ch.received|);
              View() == old(View()).(seated := old(seated) + [seat])
      ensures round.View() == Board(old(round.View()), pid, who)
    {
      seated := seated + [Seat(pid, who, open, round.serial, |handled|, |ch.received|)];
      var added := round.AddClient(pid, who);
    }

    method Dequeue(ghost bound: nat)
      requires Valid(bound) && |queue| > 0
      modifies this`queue, this`handled
      ensures Valid(bound) && View() == Take(old(View()))
    {
      TakeKeeps(cfg, View(), bound);
      handled := handled + [queue[0]];
      queue := queue[1..];
    }

    method FillRound(round: AttractionHandler, env: nat -> Shake, ghost bound: nat)
      requires Valid(bound) && round != handler && Boarding(cfg, round.View())
      modifies this`seated, this`open, this`now, this`ch, this`paused, this`evac, this`alarm, this`freed,
               this`queue, this`handled, leave, handler, round
      ensures Valid(bound) && (View(), round.View()) == Fill(cfg, old(View()), old(round.View()), env)
    {
      hide Sound, Boarding, Register;
      while |queue| > 0
        invariant Valid(bound) && Boarding(cfg, round.View())
        invariant Fill(cfg, View(), round.View(), env) == Fill(cfg, old(View()), old(round.View()), env)
        decreases |queue|
      {
        RegisterKeeps(cfg, View(), round.View(), queue[0], env(|handled|), bound);
        var served := RegisterClient(queue[0], round, env(|handled|), bound);
        if !served {
          return;
        }
        Dequeue(bound);
      }
    }

    /** Installs and starts the round, or destroys it. */
    method Settle(round: AttractionHandler, ghost bound: nat)
      requires Valid(bound) && handler == null && Vacant(View()) && Boarding(cfg, round.View())
      requires round.serial == bound && serial == bound + 1 && round.leave == leave && round.duration == cfg.duration
      modifies this`handler, this`freed, leave, round
      ensures Valid(serial) && View() == Conclude(cfg, old(View()), old(round.View()))
      ensures handler != null ==> handler == round
    {
      ConcludeKeeps(cfg, View(), round.View());
      if round.clients != map[] {
        handler := round;
        handler.StartAttraction(now);
      } else {
        freed := freed + [Freed(round.View(), now, paused)];
        round.ReleaseClients();
      }
    }

    /** Builds a round, which resets the leave semaphore, serves the queue, and settles the round. */
    method CreateAttractionHandler(env: nat -> Shake)
      requires Valid(serial) && handler == null
      modifies this`seated, this`open, this`now, this`ch, this`paused, this`evac, this`alarm, this`freed,
               this`queue, this`handled, this`handler, this`serial, leave
      ensures Valid(serial) && View() == CreateRound(cfg, old(View()), env)
      ensures handler != null ==> fresh(handler)
    {
      hide Once, AllFair, OneLate, Balanced, Fair, Fill;
      ghost var s, bound := View(), serial;
      LoadEmpty(Fresh(bound).clients);
      FillKeeps(cfg, Construct(s), Fresh(bound), env, bound);
      var round := new AttractionHandler(leave, cfg.duration, serial);
      serial := serial + 1;
      FillRound(round, env, bound);
      Settle(round, bound);
    }

    // ----- The mailbox -----

    method SendBillTo(pid: Pid, bill: Shake)
      requires Valid(serial)
      modifies this`open, this`now, this`ch, this`paused, this`evac, this`alarm, this`freed, leave, handler
      ensures Valid(serial) && View() == SendBill(old(View()), pid, bill)
    {
      SendBillKeeps(cfg, View(), pid, bill, serial);
      if handler == null || pid !in handler.clients || handler.clients[pid].kind == FromPark {
        return;
      }
      if bill.Missing? {
        return;
      }
      Block(bill.posting, serial);
      if bill.Sent? {
        Block(bill.awaiting, serial);
      }
    }

    method RemoveClient(pid: Pid)
      requires Valid(serial)
      modifies handler
      ensures Valid(serial) && View() == Remove(old(View()), pid)
    {
      RemoveKeeps(cfg, View(), pid, serial);
      if handler != null {
        var removed := handler.RemoveClient(pid);
      }
    }

    method HandleLetter(l: Letter<Message>, bill: Shake)
      requires Valid(serial)
      modifies this`open, this`now, this`ch, this`paused, this`evac, this`alarm, this`freed, this`queue, this`arrived,
               leave, handler
      ensures Valid(serial) && View() == Handle(old(View()), l, bill)
    {
      hide Sound, SendBill, Remove;
      HandleKeeps(cfg, View(), l, bill, serial);
      match l.body {
        case EnterRestaurant(who) =>
          queue := queue + [Request(l.from, who)];
          arrived := arrived + [Request(l.from, who)];
        case ExitRestaurant =>
          SendBillTo(l.from, bill);
          RemoveClient(l.from);
        case Unknown =>
      }
    }

    method HandleRestaurantMQ(receiving: seq<Event>, bill: Shake)
      requires Valid(serial)
      modifies this`open, this`now, this`ch, this`paused, this`evac, this`alarm, this`freed, this`queue, this`arrived,
               leave, handler
      ensures Valid(serial) && View() == HandleMailbox(old(View()), receiving, bill)
    {
      hide Once, AllFair, OneLate, Balanced, Fair, DeliverAll, Handle;
      Block(receiving, serial);
      ReceiveKeepsBalance(ch);
      var (ch', letter) := Receive(ch);
      ch := ch';
      if letter.Some? {
        HandleLetter(letter.value, bill);
      }
    }

    // ----- The main loop -----

    /** A round that is over is destroyed, unless the restaurant is paused or being evacuated. */
    method SweepFinished()
      requires Valid(serial)
      modifies this`handler, this`freed, leave, handler
      ensures Valid(serial) && View() == Sweep(old(View()))
      ensures handler == null || handler == old(handler)
    {
      SweepKeeps(cfg, View(), serial);
      if !evac && !paused && handler != null {
        var over := handler.Finished(now);
        if over {
          CloseAttraction(serial);
          handler := null;
        }
      }
    }

    method RefillIfFree(env: nat -> Shake)
      requires Valid(serial)
      modifies this`seated, this`open, this`now, this`ch, this`paused, this`evac, this`alarm, this`freed,
               this`queue, this`handled, this`handler, this`serial, leave
      ensures Valid(serial) && View() == Refill(cfg, old(View()), env)
      ensures handler == old(handler) || fresh(handler)
    {
      if handler == null && !paused && !evac {
        CreateAttractionHandler(env);
      }
    }

    method HandleWakeUp(p: Pass, env: nat -> Shake)
      requires Valid(serial)
      modifies this, leave, handler
      ensures Valid(serial) && View() == Work(cfg, old(View()), p, env)
      ensures handler == null || handler == old(handler) || fresh(handler)
    {
      hide Sound, Sweep, HandleMailbox, Refill, DeliverAll;
      SweepFinished();
      HandleRestaurantMQ(p.receiving, p.bill);
      RefillIfFree(env);
      Block(p.between, serial);
    }

    /** The least delay after which the time of the round is up; -1 without a round. */
    method GetNextTimeout() returns (timeout: int)
      ensures timeout == NextTimeout(View())
      ensures handler == null ==> timeout == -1
      ensures handler != null ==> forall at: int :: TimeUp(handler.View(), at) <==> at - now >= timeout
    {
      timeout := -1;
      if handler != null {
        timeout := handler.finishTime - now;
      }
    }

    /** The wait on the event semaphore. */
    method Sleep(timeout: int, p: Pass) returns (woken: bool)
      requires Valid(serial) && !ch.hand
      modifies this`open, this`now, this`ch, this`paused, this`evac, this`alarm, this`waiting,
               this`freed, leave, handler
      ensures Valid(serial)
      ensures var s1 := DeliverAll(old(View()).(waiting := Some(timeout)), p.asleep);
              var w := Wait(s1.ch, timeout, p.interrupted, p.expired);
              woken == w.Some? && View() == if woken then s1.(waiting := None, ch := w.value) else s1
    {
      hide Once, AllFair, OneLate, Balanced, Fair, DeliverAll;
      waiting := Some(timeout);
      Block(p.asleep, serial);
      woken := EndWait(timeout, p);
    }

    method EndWait(timeout: int, p: Pass) returns (woken: bool)
      requires Valid(serial) && !ch.hand
      modifies this`ch, this`waiting
      ensures Valid(serial)
      ensures var w := Wait(old(ch), timeout, p.interrupted, p.expired);
              woken == w.Some? && View() == if woken then old(View()).(waiting := None, ch := w.value) else old(View())
    {
      WaitKeepsBalance(ch, timeout, p.interrupted, p.expired);
      var w := Wait(ch, timeout, p.interrupted, p.expired);
      woken := w.Some?;
      if woken {
        waiting := None;
        ch := w.value;
      }
    }

    method OnePass(p: Pass, env: nat -> Shake)
      requires Valid(serial) && !ch.hand && !Finished(View())
      modifies this, leave, handler
      ensures Valid(serial) && View() == Iterate(cfg, old(View()), p, env) && !ch.hand
      ensures handler == null || handler == old(handler) || fresh(handler)
    {
      hide Sound, DeliverAll, Work;
      IterateKeeps(cfg, View(), p, env);
      var timeout: int;
      if waiting.Some? {
        timeout := waiting.value;
      } else {
        timeout := GetNextTimeout();
      }
      var woken := Sleep(timeout, p);
      if woken {
        HandleWakeUp(p, env);
      }
    }

    /** The main loop over any script of passes; it stops early when the park is closed and nobody is registered. */
    method RunLoop(ps: seq<Pass>, env: nat -> Shake)
      requires Valid(serial) && !ch.hand
      modifies this, leave, handler
      ensures Valid(serial) && View() == Run(cfg, old(View()), ps, env) && !ch.hand
    {
      hide Sound, Iterate;
      var i := 0;
      assert ps[0..] == ps;
      while i < |ps| && (waiting.Some? || open || (handler != null && handler.clients != map[]))
        invariant 0 <= i <= |ps| && Valid(serial) && !ch.hand
        invariant handler == null || handler == old(handler) || fresh(handler)
        invariant Run(cfg, View(), ps[i..], env) == Run(cfg, old(View()), ps, env)
      {
        OnePass(ps[i], env);
        assert ps[i..][1..] == ps[i + 1..];
        i := i + 1;
      }
      if i < |ps| {
        FinishedStays(cfg, View(), ps[i..], env);
      }
    }
  }
}
