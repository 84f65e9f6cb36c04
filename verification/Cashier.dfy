/** The cashier process itself: an object with mutable queues, map and counter, proved to follow CashierSpec. */
module CashierProcess {
  import opened Common
  import opened Mailbox
  import opened CashierProofs
  import opened CashierSpec

  class CashierProc {
    // shared with other processes
    var open: bool
    const parkSize: nat
    var ch: Channel<Message>

    // the process's own state
    var terminated: bool
    var waiting: bool
    var clients: map<Pid, Visitor>
    var counter: int
    var vips: seq<Entry>
    var others: seq<Entry>

    // history; served also says how many handshakes have taken place
    var served: seq<Served>
    ghost var arrived: seq<Entry>
    ghost var log: seq<Change>

    ghost function View(): Cashier
      reads this
    {
      Cashier(open, parkSize, terminated, waiting, clients, counter, vips, others, ch, arrived, served, log)
    }

    constructor (parkSize: nat)
      ensures View() == Start(parkSize)
    {
      this.parkSize := parkSize;
      open, terminated, waiting := true, false, false;
      clients, counter := map[], 0;
      vips, others, ch := [], [], Empty();
      arrived, served, log := [], [], [];
    }

    method HandleSigTerm()
      modifies this
      ensures View() == Terminated(old(View()))
    {
      if open {
        return;
      }
      clients := map[];
      terminated := true;
      counter := 0;
      log := log + [Cleared];
      ch := Step(ch, Extra);
    }

    /** The events of one blocking call. */
    method Block(es: seq<Event>)
      modifies this
      ensures View() == DeliverAll(old(View()), es)
    {
      var i := 0;
      assert es[0..] == es;
      while i < |es|
        invariant 0 <= i <= |es|
        invariant DeliverAll(View(), es[i..]) == DeliverAll(old(View()), es)
      {
        ghost var before := View();
        match es[i] {
          case Close => open := false;
          case Terminate => HandleSigTerm();
          case Mail(t) => ch := Step(ch, t);
        }
        assert View() == Deliver(before, es[i]);
        assert es[i..][1..] == es[i + 1..];
        i := i + 1;
      }
    }

    method RegisterClient(e: Entry, h: Shake) returns (done: bool)
      modifies this
      ensures (View(), done) == Register(old(View()), e, h)
    {
      var allowed := open;
      if parkSize < counter + Weight(e.who.hasChild) && allowed {
        return false;
      }
      if h.Missing? {
        return true;
      }
      Block(h.posting);
      if h.Unsent? || !allowed {
        return true;
      }
      Block(h.awaiting);
      if h.reply.Ack? {
        counter := counter + Weight(e.who.hasChild);
        clients := clients[e.pid := e.who];
        log := log + [Joined(e, |served|, open)];
      }
      return true;
    }

    method RemoveClient(pid: Pid)
      modifies this
      ensures View() == Remove(old(View()), pid)
    {
      if pid !in clients {
        return;
      }
      counter := counter - Weight(clients[pid].hasChild);
      clients := clients - {pid};
      log := log + [Left(pid)];
    }

    method HandleEnterPark(e: Entry)
      modifies this
      ensures View() == Enqueue(old(View()), e)
    {
      if e.who.kind == Vip {
        vips := vips + [e];
      } else {
        others := others + [e];
      }
      arrived := arrived + [e];
    }

    method HandleExitPark(pid: Pid, visitedRestaurant: Option<bool>, bill: Shake)
      modifies this
      ensures View() == Settle(old(View()), pid, visitedRestaurant, bill)
    {
      if pid !in clients || visitedRestaurant.None? {
        return;
      }
      if clients[pid].kind == Vip && !visitedRestaurant.value {
        return;
      }
      if bill.Missing? {
        return;
      }
      Block(bill.posting);
      if bill.Sent? {
        Block(bill.awaiting);
      }
    }

    method HandleRegisterMQ(receiving: seq<Event>, bill: Shake)
      modifies this
      ensures View() == HandleMailbox(old(View()), receiving, bill)
    {
      Block(receiving);
      var (ch', letter) := Receive(ch);
      ch := ch';
      if letter.None? {
        return;
      }
      var l := letter.value;
      match l.body {
        case Enter(who) =>
          if who.Some? {
            HandleEnterPark(Entry(l.from, who.value));
          }
        case Exit(visited) =>
          HandleExitPark(l.from, visited, bill);
          RemoveClient(l.from);
        case Unknown =>
      }
    }

    method ServeVipQueue(env: nat -> Shake)
      modifies this
      ensures View() == ServeVips(old(View()), env)
    {
      while |vips| > 0
        invariant ServeVips(View(), env) == ServeVips(old(View()), env)
        decreases |vips|
      {
        ghost var before := View();
        var wasOpen := open;
        var done := RegisterClient(vips[0], env(|served|));
        if !done {
          return;
        }
        served := served + [Served(vips[0], true, wasOpen, |ch.received|)];
        vips := vips[1..];
        assert View() == TakeVip(Register(before, before.vips[0], env(|before.served|)).0, before.open);
      }
    }

    method ServeOrdinaryQueue(env: nat -> Shake)
      modifies this
      ensures View() == ServeOthers(old(View()), env)
    {
      while |vips| == 0 && |others| > 0
        invariant ServeOthers(View(), env) == ServeOthers(old(View()), env)
        decreases |others|
      {
        ghost var before := View();
        var wasOpen := open;
        var done := RegisterClient(others[0], env(|served|));
        if !done {
          return;
        }
        served := served + [Served(others[0], |vips| > 0, wasOpen, |ch.received|)];
        others := others[1..];
        assert View() == TakeOther(Register(before, before.others[0], env(|before.served|)).0, before.open);
      }
    }

    /** The body of the main loop. */
    method OnePass(p: Pass, env: nat -> Shake)
      requires !Finished(View())
      modifies this
      ensures View() == Iterate(old(View()), p, env)
    {
      hide DeliverAll, HandleMailbox, ServeVips, ServeOthers;
      waiting := true;
      Block(p.asleep);
      var woken := Wait(ch, -1, p.interrupted, false);
      if woken.Some? {
        waiting := false;
        ch := woken.value;
        HandleRegisterMQ(p.receiving, p.bill);
        ServeVipQueue(env);
        ServeOrdinaryQueue(env);
        Block(p.logging);
      }
    }

    /** The main loop over any script of passes; it stops early when the loop condition fails. */
    method RunLoop(ps: seq<Pass>, env: nat -> Shake)
      modifies this
      ensures View() == Run(old(View()), ps, env)
    {
      var i := 0;
      assert ps[0..] == ps;
      while i < |ps| && (waiting || ((open || |clients| > 0 || |ch.box| > 0) && !terminated))
        invariant 0 <= i <= |ps|
        invariant Run(View(), ps[i..], env) == Run(old(View()), ps, env)
      {
        OnePass(ps[i], env);
        assert ps[i..][1..] == ps[i + 1..];
        i := i + 1;
      }
      if i < |ps| {
        FinishedStays(View(), ps[i..], env);
      }
    }
  }
}
