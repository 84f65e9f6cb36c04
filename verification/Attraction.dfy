/** The attraction process: a queue, an array of running rounds and their semaphores, proved to follow SchedulerSpec. */
module AttractionProcess {
  import opened Common
  import opened Mailbox
  import opened Rounds
  import opened Layout
  import opened SchedulerSpec
  import opened SchedulerProofs

  class AttractionProc {
    const cfg: Config

    // shared with other processes
    var open: bool
    var now: nat
    var ch: Channel<Message>
    const leave: seq<Semaphore>

    // the process's own state
    var paused: bool
    var waiting: Option<int>
    var queue: seq<Request>
    const slots: array<AttractionHandler?>

    // history; handled also says how many handshakes have taken place
    var handled: seq<Request>
    ghost var model: Sched
    ghost var rounds: set<AttractionHandler>

    /** The fields are what the model says they are. */
    ghost predicate Tied()
      reads this, slots, leave, rounds
    {
      && model.open == open && model.now == now && model.ch == ch
      && model.paused == paused && model.waiting == waiting && model.queue == queue && model.handled == handled
      && |model.slots| == |model.leave| == slots.Length == |leave|
      && LeavesTied(model.leave) && SlotsTied(model.slots)
    }

    ghost predicate LeavesTied(tokens: seq<nat>)
      requires |tokens| == |leave|
      reads leave
    {
      && (forall i, j :: 0 <= i < j < |leave| ==> leave[i] != leave[j])
      && (forall i :: 0 <= i < |leave| ==> leave[i].value == tokens[i])
    }

    ghost predicate SlotsTied(rs: seq<Option<Round>>)
      requires |rs| == slots.Length == |leave|
      reads this`rounds, slots, rounds
    {
      && (forall i :: 0 <= i < slots.Length && slots[i] != null ==> slots[i] in rounds)
      && (forall i :: 0 <= i < slots.Length ==> Holds(slots[i], leave[i], rs[i]))
    }

    ghost predicate Holds(h: AttractionHandler?, sem: Semaphore, r: Option<Round>)
      reads h
    {
      if h == null then r.None?
      else h.leave == sem && h.duration == cfg.duration && r == Some(h.View())
    }

    ghost predicate Valid(bound: nat)
      reads this, slots, leave, rounds
    {
      Usable(cfg) && Tied() && Sound(cfg, model, bound)
    }

    constructor (cfg: Config, now: nat, leave: seq<Semaphore>)
      requires Usable(cfg) && |leave| == cfg.handlers
      requires forall i, j :: 0 <= i < j < |leave| ==> leave[i] != leave[j]
      requires forall i :: 0 <= i < |leave| ==> leave[i].value == 0
      ensures Valid(0) && model == Start(cfg, now) && this.leave == leave && this.cfg == cfg
      ensures rounds == {} && fresh(slots)
    {
      this.cfg := cfg;
      this.now := now;
      this.leave := leave;
      open, paused, waiting := true, false, None;
      ch, queue, handled := Empty(), [], [];
      slots := new AttractionHandler?[cfg.handlers](_ => null);
      model := Start(cfg, now);
      rounds := {};
    }

    // ----- Releasing -----

    /** Setting a slot to null destroys its round, which releases the clients. */
    method ClearSlot(i: nat, ghost bound: nat)
      requires Valid(bound) && i < slots.Length && slots[i] != null
      requires Over(slots[i].View(), now) || paused
      modifies this`model, slots, leave, rounds
      ensures Valid(bound) && model == Free(old(model), i)
    {
      hide AdmittedSound, Once, AllFair, Balanced;
      FreeKeeps(cfg, model, i, bound);
      LoadEmpty(slots[i].clients);
      slots[i].ReleaseClients();
      slots[i] := null;
      model := Free(model, i);
    }

    method SweepOne(i: nat, all: bool, ghost bound: nat)
      requires Valid(bound) && i < slots.Length && (all ==> paused)
      modifies this`model, slots, leave, rounds
      ensures Valid(bound) && model == SweepSlot(old(model), i, all)
    {
      assert Holds(slots[i], leave[i], model.slots[i]);
      if slots[i] != null {
        var over := slots[i].Finished(now);
        if all || over {
          ClearSlot(i, bound);
        }
      }
    }

    /** Sets to null every slot, or every slot whose round is over. */
    method SweepSlots(all: bool, ghost bound: nat)
      requires Valid(bound) && (all ==> paused)
      modifies this`model, slots, leave, rounds
      ensures Valid(bound) && model == SweepFrom(old(model), 0, all)
    {
      hide Sound, LeavesTied, SlotsTied, SweepSlot;
      ghost var goal := SweepFrom(model, 0, all);
      var i := 0;
      while i < slots.Length
        invariant 0 <= i <= slots.Length && Valid(bound)
        invariant SweepFrom(model, i, all) == goal
      {
        SweepOne(i, all, bound);
        i := i + 1;
      }
    }

    method CloseAttraction(ghost bound: nat)
      requires Valid(bound) && paused
      modifies this`model, slots, leave, rounds
      ensures Valid(bound) && model == SweepFrom(old(model), 0, true)
    {
      SweepSlots(true, bound);
    }

    // ----- Events -----

    /** A client waiting on slot i's leave semaphore gets through. */
    method TakeLeaveToken(i: nat, ghost bound: nat)
      requires Valid(bound)
      modifies this`model, leave
      ensures Valid(bound) && model == Deliver(old(model), Leave(i))
    {
      hide Sound, SweepFrom, Step, SlotsTied;
      DeliverKeeps(cfg, model, Leave(i), bound);
      if i < |leave| && leave[i].value > 0 {
        ghost var tokens := model.leave[i := model.leave[i] - 1];
        leave[i].SetValue(leave[i].value - 1);
        assert forall j :: 0 <= j < |leave| ==> leave[j].value == tokens[j];
        model := model.(leave := tokens);
      }
    }

    method HandleSigUsr1(ghost bound: nat)
      requires Valid(bound)
      modifies this`paused, this`model, slots, leave, rounds
      ensures Valid(bound) && model == Deliver(old(model), Pause)
    {
      hide SlotsSound, AdmittedSound, Once, AllFair, Balanced, LeavesTied, SlotsTied, SweepFrom;
      paused := true;
      SameRounds(cfg, model, BeginPause(model), bound);
      model := BeginPause(model);
      CloseAttraction(bound);
    }

    method HandleEvent(e: Event, ghost bound: nat)
      requires Valid(bound)
      modifies this`open, this`now, this`ch, this`paused, this`model, slots, leave, rounds
      ensures Valid(bound) && model == Deliver(old(model), e) && ch.hand == old(ch.hand)
    {
      hide Sound, LeavesTied, SlotsTied, SweepFrom;
      DeliverKeeps(cfg, model, e, bound);
      match e {
        case Pause =>
          HandleSigUsr1(bound);
          return;
        case Leave(i) =>
          TakeLeaveToken(i, bound);
          return;
        case Resume => paused := false;
        case Close => open := false;
        case Elapse(d) => now := now + d;
        case Mail(t) => ch := Step(ch, t);
      }
      model := Deliver(model, e);
    }

    /** The events of one blocking call. */
    method Block(es: seq<Event>, ghost bound: nat)
      requires Valid(bound)
      modifies this`open, this`now, this`ch, this`paused, this`model, slots, leave, rounds
      ensures Valid(bound) && model == DeliverAll(old(model), es) && ch.hand == old(ch.hand)
    {
      hide Sound, LeavesTied, SlotsTied, Deliver;
      var i := 0;
      assert es[0..] == es;
      while i < |es|
        invariant 0 <= i <= |es| && Valid(bound) && ch.hand == old(ch.hand)
        invariant DeliverAll(model, es[i..]) == DeliverAll(old(model), es)
      {
        HandleEvent(es[i], bound);
        assert es[i..][1..] == es[i + 1..];
        i := i + 1;
      }
    }

    // ----- Registration -----

    /**
      * Offers the request a place in a round that is not installed yet. While the handshake blocks, signals may
      * release every installed round, but they cannot reach this one.
      */
    method RegisterClient(q: Request, handler: AttractionHandler, h: Shake, ghost bound: nat) returns (served: bool)
      requires Valid(bound) && handler !in rounds && Boarding(cfg, handler.View(), model.admitted)
      modifies this`open, this`now, this`ch, this`paused, this`model, slots, leave, rounds, handler
      ensures Valid(bound) && (model, handler.View(), served) == Register(cfg, old(model), old(handler.View()), q, h)
    {
      hide SlotsSound, AdmittedSound, Once, AllFair, Balanced, LeavesTied, SlotsTied, DeliverAll;
      if q.visit.None? {
        return true;
      }
      var v := q.visit.value;
      var allowed := open && !paused;
      if allowed {
        allowed := Meets(cfg, v.person, v.child, v.hasChild);
      }
      var count := handler.GetClientCount();
      if count + Weight(v.hasChild) > cfg.capacity && allowed {
        return false;
      }
      if h.Missing? {
        return true;
      }
      Block(h.posting, bound);
      if h.Unsent? || !allowed {
        return true;
      }
      Block(h.awaiting, bound);
      if h.reply.Ack? {
        Admit(q, handler, bound);
      }
      return true;
    }

    method Admit(q: Request, handler: AttractionHandler, ghost bound: nat)
      requires Valid(bound) && handler !in rounds && Boarding(cfg, handler.View(), model.admitted)
      requires q.visit.Some? && Fits(cfg, handler.View(), q.visit.value)
      requires Meets(cfg, q.visit.value.person, q.visit.value.child, q.visit.value.hasChild)
      modifies this`model, handler
      ensures Valid(bound)
      ensures var a := Admission(q, true, false, handler.serial, |handled|, |ch.received|);
              model == old(model).(admitted := old(model).admitted + {a})
      ensures handler.View() == Board(old(handler.View()), q.pid, Guest(q.visit.value.hasChild, FromPark))
    {
      hide Sound, LeavesTied, SlotsTied, Boarding;
      AdmitKeeps(cfg, model, handler.View(), q, bound);
      ghost var a := Admission(q, true, false, handler.serial, |handled|, |ch.received|);
      model := model.(admitted := model.admitted + {a});
      var added := handler.AddClient(q.pid, Guest(q.visit.value.hasChild, FromPark));
    }

    method Dequeue(ghost bound: nat)
      requires Valid(bound) && |queue| > 0
      modifies this`queue, this`handled, this`model
      ensures Valid(bound) && model == Take(old(model))
    {
      TakeKeeps(cfg, model, bound);
      handled := handled + [queue[0]];
      queue := queue[1..];
      model := Take(model);
    }

    method FindFree() returns (k: nat)
      requires Tied()
      ensures k <= slots.Length && FirstFree(model.slots, 0) == if k == slots.Length then None else Some(k)
      ensures k < slots.Length ==> slots[k] == null && model.slots[k].None?
    {
      k := 0;
      while k < slots.Length && slots[k] != null
        invariant k <= slots.Length
        invariant FirstFree(model.slots, k) == FirstFree(model.slots, 0)
      {
        assert Holds(slots[k], leave[k], model.slots[k]);
        k := k + 1;
      }
    }

    method FillRound(handler: AttractionHandler, env: Script, ghost bound: nat)
      requires Valid(bound) && handler !in rounds && Boarding(cfg, handler.View(), model.admitted)
      modifies this`open, this`now, this`ch, this`paused, this`model, this`queue, this`handled,
               slots, leave, rounds, handler
      ensures Valid(bound) && (model, handler.View()) == Fill(cfg, old(model), old(handler.View()), env)
    {
      hide SlotsSound, AdmittedSound, Once, AllFair, Balanced, LeavesTied, SlotsTied, Register;
      while |queue| > 0
        invariant Valid(bound) && handler !in rounds && Boarding(cfg, handler.View(), model.admitted)
        invariant Fill(cfg, model, handler.View(), env) == Fill(cfg, old(model), old(handler.View()), env)
        decreases |queue|
      {
        ghost var before, round := model, handler.View();
        var q := queue[0];
        RegisterKeeps(cfg, before, round, q, env.shakes(|handled|), bound);
        var served := RegisterClient(q, handler, env.shakes(|handled|), bound);
        if !served {
          return;
        }
        Dequeue(bound);
      }
    }

    /** Constructs a round for slot k, which resets its leave semaphore, and serves the queue. */
    method PrepareRound(k: nat, env: Script) returns (handler: AttractionHandler)
      requires Valid(model.serial) && k < slots.Length && model.slots[k].None?
      modifies this`open, this`now, this`ch, this`paused, this`model, this`queue, this`handled, slots, leave, rounds
      ensures Valid(old(model.serial)) && (model, handler.View()) == Prepare(cfg, old(model), k, env)
      ensures fresh(handler) && handler.leave == leave[k] && handler.duration == cfg.duration
      ensures handler.serial == old(model.serial) && model.serial == handler.serial + 1
      ensures Vacant(model, k) && Boarding(cfg, handler.View(), model.admitted)
    {
      hide SlotsSound, AdmittedSound, Once, AllFair, Balanced, Fill;
      PrepareKeeps(cfg, model, k, env);
      ConstructKeeps(cfg, model, k);
      ghost var bound := model.serial;
      handler := new AttractionHandler(leave[k], cfg.duration, bound);
      model := Construct(model, k);
      FillRound(handler, env, bound);
    }

    method Install(handler: AttractionHandler, k: nat, ghost bound: nat)
      requires Valid(bound) && handler !in rounds && Boarding(cfg, handler.View(), model.admitted)
      requires handler.serial == bound && model.serial == bound + 1 && Vacant(model, k)
      requires handler.leave == leave[k] && handler.duration == cfg.duration && handler.clients != map[]
      modifies this`model, this`rounds, slots, leave[k], handler
      ensures Valid(bound + 1) && model == Conclude(cfg, old(model), old(handler.View()), k)
      ensures rounds == old(rounds) + {handler}
    {
      hide Sound;
      ghost var r := handler.View();
      ConcludeKeeps(cfg, model, r, k);
      slots[k] := handler;
      rounds := rounds + {handler};
      handler.StartAttraction(now);
      model := Conclude(cfg, model, r, k);
    }

    method Discard(handler: AttractionHandler, k: nat, ghost bound: nat)
      requires Valid(bound) && handler !in rounds && Boarding(cfg, handler.View(), model.admitted)
      requires handler.serial == bound && model.serial == bound + 1 && Vacant(model, k)
      requires handler.leave == leave[k] && handler.clients == map[]
      modifies this`model, leave[k], handler
      ensures Valid(bound + 1) && model == Conclude(cfg, old(model), old(handler.View()), k)
    {
      hide Sound;
      ghost var r := handler.View();
      ConcludeKeeps(cfg, model, r, k);
      handler.ReleaseClients();
      model := Conclude(cfg, model, r, k);
    }

    /** Builds a round for a free slot; it is installed and started if someone boarded, and destroyed otherwise. */
    method BuildRound(k: nat, env: Script) returns (made: bool)
      requires Valid(model.serial) && k < slots.Length && model.slots[k].None?
      modifies this`open, this`now, this`ch, this`paused, this`model, this`queue, this`handled, this`rounds,
               slots, leave, rounds
      ensures Valid(model.serial)
      ensures var (s1, r) := Prepare(cfg, old(model), k, env);
              model == Conclude(cfg, s1, r, k) && made == (r.clients != map[])
      ensures fresh(rounds - old(rounds))
    {
      hide Sound, LeavesTied, SlotsTied, Prepare;
      ghost var bound := model.serial;
      var handler := PrepareRound(k, env);
      made := handler.clients != map[];
      if made {
        Install(handler, k, bound);
      } else {
        Discard(handler, k, bound);
      }
    }

    /** Fills the first free slot, if there is one and the worker is not paused. */
    method FillSlot(env: Script) returns (made: bool)
      requires Valid(model.serial)
      modifies this`open, this`now, this`ch, this`paused, this`model, this`queue, this`handled, this`rounds,
               slots, leave, rounds
      ensures Valid(model.serial) && (model, made) == NewRound(cfg, old(model), env)
      ensures fresh(rounds - old(rounds))
    {
      hide Sound, Prepare, Conclude;
      if paused {
        return false;
      }
      var k := FindFree();
      if k == slots.Length {
        return false;
      }
      made := BuildRound(k, env);
    }

    /** After an installation the log line blocks before the call returns. */
    method CreateNewHandler(env: Script) returns (made: bool)
      requires Valid(model.serial)
      modifies this`open, this`now, this`ch, this`paused, this`model, this`queue, this`handled, this`rounds,
               slots, leave, rounds
      ensures Valid(model.serial) && (model, made) == CreateRound(cfg, old(model), env)
      ensures fresh(rounds - old(rounds))
    {
      hide Sound, LeavesTied, SlotsTied, NewRound, DeliverAll;
      made := FillSlot(env);
      if made {
        Block(env.logs(|handled|), model.serial);
      }
    }

    method CreateHandlers(env: Script)
      requires Valid(model.serial)
      modifies this`open, this`now, this`ch, this`paused, this`model, this`queue, this`handled, this`rounds,
               slots, leave, rounds
      ensures Valid(model.serial) && model == CreateRounds(cfg, old(model), env)
      ensures fresh(rounds - old(rounds))
    {
      hide Sound, LeavesTied, SlotsTied;
      var made := true;
      while made
        invariant Valid(model.serial) && fresh(rounds - old(rounds))
        invariant made ==> CreateRounds(cfg, model, env) == CreateRounds(cfg, old(model), env)
        invariant !made ==> model == CreateRounds(cfg, old(model), env)
        decreases |queue|, made
      {
        made := CreateNewHandler(env);
      }
    }

    // ----- The mailbox -----

    method RemoveAt(i: nat, pid: Pid) returns (removed: bool)
      requires Tied() && i < slots.Length
      modifies this`model, rounds
      ensures Tied()
      ensures RemoveFrom(old(model.slots), i, pid) ==
              if removed then model.slots else RemoveFrom(model.slots, i + 1, pid)
      ensures model == if removed then old(model).(slots := model.slots) else old(model)
    {
      assert Holds(slots[i], leave[i], model.slots[i]);
      if slots[i] == null {
        return false;
      }
      removed := slots[i].RemoveClient(pid);
      if removed {
        model := model.(slots := RemoveFrom(model.slots, i, pid));
      }
    }

    /** Removes the pid from the first round, in slot order, that has it. */
    method RemoveClient(pid: Pid)
      requires Valid(model.serial)
      modifies this`model, rounds
      ensures Valid(model.serial) && model == old(model).(slots := RemoveFrom(old(model.slots), 0, pid))
    {
      hide Sound, LeavesTied, SlotsTied;
      ExitKeeps(cfg, model, pid, model.serial);
      var i := 0;
      while i < slots.Length
        invariant 0 <= i <= slots.Length && Tied() && model == old(model)
        invariant RemoveFrom(model.slots, i, pid) == RemoveFrom(model.slots, 0, pid)
      {
        var removed := RemoveAt(i, pid);
        if removed {
          return;
        }
        i := i + 1;
      }
    }

    method ReceiveLetter(receiving: seq<Event>) returns (letter: Option<Letter<Message>>)
      requires Valid(model.serial)
      modifies this`open, this`now, this`ch, this`paused, this`model, slots, leave, rounds
      ensures Valid(model.serial)
      ensures var s1 := DeliverAll(old(model), receiving);
              model == s1.(ch := Receive(s1.ch).0) && letter == Receive(s1.ch).1
    {
      hide SlotsSound, AdmittedSound, Once, AllFair, Balanced, LeavesTied, SlotsTied, DeliverAll;
      Block(receiving, model.serial);
      ReceiveKeepsBalance(ch);
      var (ch', l) := Receive(ch);
      ch := ch';
      letter := l;
      model := model.(ch := ch');
    }

    method HandleAttractionMQ(receiving: seq<Event>)
      requires Valid(model.serial)
      modifies this`open, this`now, this`ch, this`paused, this`model, this`queue, slots, leave, rounds
      ensures Valid(model.serial) && model == HandleMailbox(old(model), receiving)
    {
      hide Sound, LeavesTied, SlotsTied, DeliverAll;
      HandleMailboxKeeps(cfg, model, receiving);
      var letter := ReceiveLetter(receiving);
      if letter.None? {
        return;
      }
      var l := letter.value;
      match l.body {
        case EnterAttraction(visit) =>
          queue := queue + [Request(l.from, visit)];
          model := Handle(model, l);
        case ExitAttraction =>
          RemoveClient(l.from);
        case Unknown =>
      }
    }

    method HandleAttraction(receiving: seq<Event>, env: Script)
      requires Valid(model.serial)
      modifies this`open, this`now, this`ch, this`paused, this`model, this`queue, this`handled, this`rounds,
               slots, leave, rounds
      ensures Valid(model.serial) && model == SchedulerSpec.HandleAttraction(cfg, old(model), receiving, env)
      ensures fresh(rounds - old(rounds))
    {
      hide SlotsSound, AdmittedSound, Once, AllFair, Balanced, LeavesTied, SlotsTied, CreateRounds, HandleMailbox;
      if paused {
        SkipKeepsBalance(ch);
        ch := Skip(ch);
        model := model.(ch := ch);
        return;
      }
      HandleAttractionMQ(receiving);
      if |queue| > cfg.capacity || |ch.box| == 0 {
        CreateHandlers(env);
      }
    }

    // ----- The main loop -----

    /** The earliest finish time of a running round, relative to now; -1 if there is none. */
    method GetNextTimeout() returns (timeout: int)
      requires Valid(model.serial)
      ensures timeout == NextTimeout(model)
    {
      var next := -1;
      var i := 0;
      while i < slots.Length
        invariant 0 <= i <= slots.Length
        invariant MinFinish(model.slots[..i]) == if next == -1 then None else Some(next)
      {
        assert Holds(slots[i], leave[i], model.slots[i]);
        assert model.slots[..i + 1][..i] == model.slots[..i];
        if slots[i] != null {
          var finish := slots[i].finishTime;
          if finish != 0 {
            if next == -1 {
              next := finish;
            } else if finish < next {
              next := finish;
            }
          }
        }
        i := i + 1;
      }
      assert model.slots[..i] == model.slots;
      return if next != -1 then next - now else -1;
    }

    /** A wait that goes on keeps the timeout with which it began. */
    method ChooseTimeout() returns (timeout: int)
      requires Valid(model.serial)
      ensures timeout == if model.waiting.Some? then model.waiting.value else NextTimeout(model)
    {
      if waiting.Some? {
        timeout := waiting.value;
      } else {
        timeout := GetNextTimeout();
      }
    }

    /** The wait on the event semaphore. */
    method Sleep(timeout: int, p: Pass) returns (woken: bool)
      requires Valid(model.serial) && !ch.hand
      modifies this`open, this`now, this`ch, this`paused, this`waiting, this`model, slots, leave, rounds
      ensures Valid(model.serial)
      ensures var s1 := DeliverAll(old(model).(waiting := Some(timeout)), p.asleep);
              var w := Wait(s1.ch, timeout, p.interrupted, p.expired);
              woken == w.Some? && model == if woken then s1.(waiting := None, ch := w.value) else s1
    {
      hide LeavesTied, SlotsTied, DeliverAll, SlotsSound, AdmittedSound, Once, AllFair, Balanced;
      waiting := Some(timeout);
      model := model.(waiting := waiting);
      Block(p.asleep, model.serial);
      woken := EndWait(timeout, p);
    }

    method EndWait(timeout: int, p: Pass) returns (woken: bool)
      requires Valid(model.serial) && !ch.hand
      modifies this`ch, this`waiting, this`model
      ensures Valid(model.serial)
      ensures var w := Wait(old(ch), timeout, p.interrupted, p.expired);
              woken == w.Some? && model == if woken then old(model).(waiting := None, ch := w.value) else old(model)
    {
      hide SlotsSound, AdmittedSound, Once, AllFair, Balanced, LeavesTied, SlotsTied;
      WaitKeepsBalance(ch, timeout, p.interrupted, p.expired);
      var w := Wait(ch, timeout, p.interrupted, p.expired);
      woken := w.Some?;
      if woken {
        waiting := None;
        ch := w.value;
        model := model.(waiting := None, ch := ch);
      }
    }

    method HandleWakeUp(p: Pass, env: Script)
      requires Valid(model.serial)
      modifies this`open, this`now, this`ch, this`paused, this`model, this`queue, this`handled, this`rounds,
               slots, leave, rounds
      ensures Valid(model.serial) && model == Work(cfg, old(model), p, env)
      ensures fresh(rounds - old(rounds))
    {
      hide Sound, LeavesTied, SlotsTied, SweepFrom, SchedulerSpec.HandleAttraction, DeliverAll;
      SweepSlots(false, model.serial);
      HandleAttraction(p.receiving, env);
      Block(p.between, model.serial);
    }

    method OnePass(p: Pass, env: Script)
      requires Valid(model.serial) && !ch.hand && !Finished(model)
      modifies this, slots, leave, rounds
      ensures Valid(model.serial) && model == Iterate(cfg, old(model), p, env) && !ch.hand
      ensures fresh(rounds - old(rounds))
    {
      hide Sound, LeavesTied, SlotsTied, Work, DeliverAll;
      IterateKeeps(cfg, model, p, env);
      var timeout := ChooseTimeout();
      var woken := Sleep(timeout, p);
      if woken {
        HandleWakeUp(p, env);
      }
    }

    /** The main loop over any script of passes; it stops early when the park has closed. */
    method RunLoop(ps: seq<Pass>, env: Script)
      requires Valid(model.serial) && !ch.hand
      modifies this, slots, leave, rounds
      ensures Valid(model.serial) && model == Run(cfg, old(model), ps, env) && !ch.hand
    {
      hide Sound, LeavesTied, SlotsTied, Iterate;
      var i := 0;
      assert ps[0..] == ps;
      while i < |ps| && (waiting.Some? || open)
        invariant 0 <= i <= |ps| && Valid(model.serial) && !ch.hand && fresh(rounds - old(rounds))
        invariant Run(cfg, model, ps[i..], env) == Run(cfg, old(model), ps, env)
      {
        OnePass(ps[i], env);
        assert ps[i..][1..] == ps[i + 1..];
        i := i + 1;
      }
      if i < |ps| {
        FinishedStays(cfg, model, ps[i..], env);
      }
    }
  }

  lemma {:induction false} FinishedStays(cfg: Config, s: Sched, ps: seq<Pass>, env: Script)
    requires |s.slots| == |s.leave| && Finished(s)
    ensures Run(cfg, s, ps, env) == s
    decreases |ps|
  {
    if ps != [] {
      FinishedStays(cfg, s, ps[1..], env);
    }
  }
}
