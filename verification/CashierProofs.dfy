/** What the cashier keeps over every run, whatever its clients and the signals do. */
module CashierProofs {
  import opened Common
  import opened Mailbox
  import opened CashierSpec

  // ----- History -----

  /** The entries of one class, in order. */
  ghost function OfClass(es: seq<Entry>, c: Class): seq<Entry> {
    if es == [] then []
    else
      var last := es[|es| - 1];
      OfClass(es[..|es| - 1], c) + if last.who.kind == c then [last] else []
  }

  ghost function ServedOf(es: seq<Served>, c: Class): seq<Entry> {
    if es == [] then []
    else
      var last := es[|es| - 1].entry;
      ServedOf(es[..|es| - 1], c) + if last.who.kind == c then [last] else []
  }

  lemma OfClassAppend(es: seq<Entry>, e: Entry, c: Class)
    ensures OfClass(es + [e], c) == OfClass(es, c) + if e.who.kind == c then [e] else []
  {
    assert (es + [e])[..|es|] == es;
  }

  lemma ServedOfAppend(es: seq<Served>, e: Served, c: Class)
    ensures ServedOf(es + [e], c) == ServedOf(es, c) + if e.entry.who.kind == c then [e.entry] else []
  {
    assert (es + [e])[..|es|] == es;
  }

  // ----- The invariant -----

  /** The client map that a log of changes leads to. */
  ghost function Replay(log: seq<Change>): map<Pid, Visitor> {
    if log == [] then map[]
    else
      var m := Replay(log[..|log| - 1]);
      match log[|log| - 1]
      case Joined(e, _, _) => m[e.pid := e.who]
      case Left(p) => m - {p}
      case Cleared => map[]
  }

  /** The weight of the clients that were overwritten because they joined again before they had left. */
  ghost function Lost(log: seq<Change>): nat {
    if log == [] then 0
    else
      var prefix := log[..|log| - 1];
      match log[|log| - 1]
      case Joined(e, _, _) =>
        var m := Replay(prefix);
        Lost(prefix) + if e.pid in m then Weight(m[e.pid].hasChild) else 0
      case Left(_) => Lost(prefix)
      case Cleared => 0
  }

  ghost predicate Counted(clients: map<Pid, Visitor>, counter: int, log: seq<Change>, parkSize: nat) {
    clients == Replay(log) && counter == Load(clients) + Lost(log) && counter <= parkSize
  }

  /** Nothing is lost, duplicated or overtaken inside a class, and no VIP waits while an ordinary request is served. */
  ghost predicate Ordered(vips: seq<Entry>, others: seq<Entry>, served: seq<Served>, arrived: seq<Entry>) {
    && (forall e <- vips :: e.who.kind == Vip)
    && (forall e <- others :: e.who.kind == Ordinary)
    && ServedOf(served, Vip) + vips == OfClass(arrived, Vip)
    && ServedOf(served, Ordinary) + others == OfClass(arrived, Ordinary)
    && (forall e <- served :: e.entry.who.kind == Ordinary ==> !e.vipWaiting)
  }

  /** No wake-up is lost: see BlockedMeansSignalsToCome. */
  ghost predicate Heard(ch: Channel<Message>) {
    Balanced(ch) && ch.skipped == 0
  }

  ghost predicate Sound(s: Cashier) {
    && Counted(s.clients, s.counter, s.log, s.parkSize)
    && Ordered(s.vips, s.others, s.served, s.arrived)
    && Heard(s.ch)
  }

  predicate Pending(s: Cashier) {
    s.vips != [] || s.others != []
  }

  /** Between passes, a request is left over only for want of room. */
  ghost predicate Settled(s: Cashier) {
    !s.ch.hand && (Pending(s) ==> s.terminated || s.counter + 2 > s.parkSize)
  }

  lemma DeliverKeeps(s: Cashier, e: Event)
    requires Sound(s)
    ensures Sound(Deliver(s, e)) && Deliver(s, e).ch.hand == s.ch.hand
  {
    match e
    case Close =>
    case Terminate =>
      LoadEmpty(Terminated(s).clients);
      StepKeepsBalance(s.ch, Extra);
    case Mail(t) => StepKeepsBalance(s.ch, t);
  }

  lemma {:induction false} DeliverAllKeeps(s: Cashier, es: seq<Event>)
    requires Sound(s)
    ensures Sound(DeliverAll(s, es)) && DeliverAll(s, es).ch.hand == s.ch.hand
    decreases |es|
  {
    if es != [] {
      DeliverKeeps(s, es[0]);
      DeliverAllKeeps(Deliver(s, es[0]), es[1..]);
    }
  }

  lemma AdmitKeeps(s: Cashier, e: Entry)
    requires Sound(s) && Fits(s, e)
    ensures Sound(Admit(s, e))
  {
    if e.pid in s.clients {
      LoadReplace(s.clients, e.pid, e.who);
    } else {
      LoadInsert(s.clients, e.pid, e.who);
    }
  }

  lemma RegisterKeeps(s: Cashier, e: Entry, h: Shake)
    requires Sound(s)
    ensures Sound(Register(s, e, h).0) && Register(s, e, h).0.ch.hand == s.ch.hand
  {
    if Register(s, e, h).1 {
      match h
      case Missing =>
      case Unsent(posting) => DeliverAllKeeps(s, posting);
      case Sent(posting, reply, awaiting) =>
        DeliverAllKeeps(s, posting);
        var s1 := DeliverAll(s, posting);
        DeliverAllKeeps(s1, awaiting);
        if s.open && reply.Ack? {
          AdmitKeeps(DeliverAll(s1, awaiting), e);
        }
    }
  }

  lemma TakeVipKeepsOrder(v: Served, vips: seq<Entry>, others: seq<Entry>, served: seq<Served>, arrived: seq<Entry>)
    requires Ordered([v.entry] + vips, others, served, arrived)
    ensures Ordered(vips, others, served + [v], arrived)
  {
    var e := v.entry;
    assert e in [e] + vips;
    ServedOfAppend(served, v, Vip);
    ServedOfAppend(served, v, Ordinary);
    assert ServedOf(served, Vip) + [e] + vips == ServedOf(served, Vip) + ([e] + vips);
  }

  lemma TakeOtherKeepsOrder(v: Served, others: seq<Entry>, served: seq<Served>, arrived: seq<Entry>)
    requires Ordered([], [v.entry] + others, served, arrived) && !v.vipWaiting
    ensures Ordered([], others, served + [v], arrived)
  {
    var e := v.entry;
    assert e in [e] + others;
    ServedOfAppend(served, v, Vip);
    ServedOfAppend(served, v, Ordinary);
    assert ServedOf(served, Ordinary) + [e] + others == ServedOf(served, Ordinary) + ([e] + others);
  }

  lemma TakeKeeps(s: Cashier, open: bool)
    requires Sound(s)
    ensures s.vips != [] ==> Sound(TakeVip(s, open))
    ensures s.vips == [] && s.others != [] ==> Sound(TakeOther(s, open))
  {
    if s.vips != [] {
      assert s.vips == [s.vips[0]] + s.vips[1..];
      TakeVipKeepsOrder(Served(s.vips[0], true, open, |s.ch.received|), s.vips[1..], s.others, s.served, s.arrived);
    } else if s.others != [] {
      assert s.others == [s.others[0]] + s.others[1..];
      TakeOtherKeepsOrder(Served(s.others[0], false, open, |s.ch.received|), s.others[1..], s.served, s.arrived);
    }
  }

  lemma {:induction false} ServeVipsKeeps(s: Cashier, env: nat -> Shake)
    requires Sound(s)
    ensures Sound(ServeVips(s, env)) && ServeVips(s, env).ch.hand == s.ch.hand
    decreases |s.vips|
  {
    if s.vips != [] {
      RegisterKeeps(s, s.vips[0], env(|s.served|));
      var (s1, done) := Register(s, s.vips[0], env(|s.served|));
      if done {
        TakeKeeps(s1, s.open);
        ServeVipsKeeps(TakeVip(s1, s.open), env);
      }
    }
  }

  lemma {:induction false} ServeOthersKeeps(s: Cashier, env: nat -> Shake)
    requires Sound(s)
    ensures Sound(ServeOthers(s, env)) && ServeOthers(s, env).ch.hand == s.ch.hand
    decreases |s.others|
  {
    if s.vips == [] && s.others != [] {
      RegisterKeeps(s, s.others[0], env(|s.served|));
      var (s1, done) := Register(s, s.others[0], env(|s.served|));
      if done {
        TakeKeeps(s1, s.open);
        ServeOthersKeeps(TakeOther(s1, s.open), env);
      }
    }
  }

  lemma EnqueueKeepsOrder(e: Entry, vips: seq<Entry>, others: seq<Entry>, served: seq<Served>, arrived: seq<Entry>)
    requires Ordered(vips, others, served, arrived)
    ensures e.who.kind == Vip ==> Ordered(vips + [e], others, served, arrived + [e])
    ensures e.who.kind == Ordinary ==> Ordered(vips, others + [e], served, arrived + [e])
  {
    OfClassAppend(arrived, e, Vip);
    OfClassAppend(arrived, e, Ordinary);
    var v, o := ServedOf(served, Vip), ServedOf(served, Ordinary);
    assert v + vips + [e] == v + (vips + [e]);
    assert o + others + [e] == o + (others + [e]);
  }

  lemma EnqueueKeeps(s: Cashier, e: Entry)
    requires Sound(s)
    ensures Sound(Enqueue(s, e)) && Enqueue(s, e).ch == s.ch
  {
    EnqueueKeepsOrder(e, s.vips, s.others, s.served, s.arrived);
  }

  lemma SettleKeeps(s: Cashier, pid: Pid, visited: Option<bool>, h: Shake)
    requires Sound(s)
    ensures Sound(Settle(s, pid, visited, h)) && Settle(s, pid, visited, h).ch.hand == s.ch.hand
  {
    match h
    case Missing =>
    case Unsent(posting) => DeliverAllKeeps(s, posting);
    case Sent(posting, _, awaiting) =>
      DeliverAllKeeps(s, posting);
      DeliverAllKeeps(DeliverAll(s, posting), awaiting);
  }

  lemma RemoveKeeps(s: Cashier, pid: Pid)
    requires Sound(s)
    ensures Sound(Remove(s, pid))
  {
    if pid in s.clients {
      LoadRemove(s.clients, pid);
    }
  }

  lemma HandleKeeps(s: Cashier, l: Letter<Message>, bill: Shake)
    requires Sound(s)
    ensures Sound(Handle(s, l, bill)) && Handle(s, l, bill).ch.hand == s.ch.hand
  {
    match l.body
    case Enter(who) => if who.Some? { EnqueueKeeps(s, Entry(l.from, who.value)); }
    case Exit(visited) =>
      SettleKeeps(s, l.from, visited, bill);
      RemoveKeeps(Settle(s, l.from, visited, bill), l.from);
    case Unknown =>
  }

  lemma HandleMailboxKeeps(s: Cashier, receiving: seq<Event>, bill: Shake)
    requires Sound(s)
    ensures Sound(HandleMailbox(s, receiving, bill)) && !HandleMailbox(s, receiving, bill).ch.hand
  {
    DeliverAllKeeps(s, receiving);
    var s1 := DeliverAll(s, receiving);
    ReceiveKeepsBalance(s1.ch);
    var (ch, letter) := Receive(s1.ch);
    if letter.Some? {
      HandleKeeps(s1.(ch := ch), letter.value, bill);
    }
  }

  lemma ServeKeeps(s: Cashier, env: nat -> Shake)
    requires Sound(s) && !s.ch.hand
    ensures Sound(Serve(s, env)) && Settled(Serve(s, env))
    ensures Serve(s, env).parkSize == s.parkSize
  {
    ServeVipsKeeps(s, env);
    ServeOthersKeeps(ServeVips(s, env), env);
  }

  /** What is left over after serving does not fit, and no later event but termination changes that. */
  lemma EventsKeepSettled(s: Cashier, es: seq<Event>)
    requires Sound(s) && Settled(s)
    ensures Sound(DeliverAll(s, es)) && Settled(DeliverAll(s, es))
    ensures DeliverAll(s, es).parkSize == s.parkSize
  {
    DeliverAllKeeps(s, es);
    var r := DeliverAll(s, es);
    assert r.vips == s.vips && r.others == s.others && r.parkSize == s.parkSize;
    assert r.terminated || r.counter == s.counter;
  }

  lemma WorkKeeps(s: Cashier, p: Pass, env: nat -> Shake)
    requires Sound(s)
    ensures Sound(Work(s, p, env)) && Settled(Work(s, p, env))
    ensures Work(s, p, env).parkSize == s.parkSize
  {
    HandleMailboxKeeps(s, p.receiving, p.bill);
    var s1 := HandleMailbox(s, p.receiving, p.bill);
    ServeKeeps(s1, env);
    EventsKeepSettled(Serve(s1, env), p.logging);
  }

  lemma IterateKeeps(s: Cashier, p: Pass, env: nat -> Shake)
    requires Sound(s) && Settled(s)
    ensures Sound(Iterate(s, p, env)) && Settled(Iterate(s, p, env))
    ensures Iterate(s, p, env).parkSize == s.parkSize
  {
    var s0 := s.(waiting := true);
    DeliverAllKeeps(s0, p.asleep);
    var s1 := DeliverAll(s0, p.asleep);
    WaitKeepsBalance(s1.ch, -1, p.interrupted, false);
    var w := Wait(s1.ch, -1, p.interrupted, false);
    if w.Some? {
      WorkKeeps(s1.(waiting := false, ch := w.value), p, env);
    }
  }

  lemma {:induction false} RunKeeps(s: Cashier, ps: seq<Pass>, env: nat -> Shake)
    requires Sound(s) && Settled(s)
    ensures Sound(Run(s, ps, env)) && Settled(Run(s, ps, env))
    ensures Run(s, ps, env).parkSize == s.parkSize
    decreases |ps|
  {
    if ps != [] {
      IterateKeeps(s, ps[0], env);
      RunKeeps(Iterate(s, ps[0], env), ps[1..], env);
    }
  }

  lemma {:induction false} FinishedStays(s: Cashier, ps: seq<Pass>, env: nat -> Shake)
    requires Finished(s)
    ensures Run(s, ps, env) == s
    decreases |ps|
  {
    if ps != [] {
      FinishedStays(s, ps[1..], env);
    }
  }
}
