/** What the cashier's log of joins and exits says about its counter, and what its requests say about the log. */
module CashierHistory {
  import opened Common
  import opened Mailbox
  import opened CashierSpec
  import opened CashierProofs

  // ----- Re-entry -----

  /** The pid joined in change i and was neither removed nor cleared before change j. */
  ghost predicate InsideSince(log: seq<Change>, p: Pid, i: nat, j: nat) {
    && i < j <= |log| && log[i].Joined? && log[i].entry.pid == p
    && forall k :: i < k < j ==> log[k] != Left(p) && log[k] != Cleared
  }

  ghost predicate Inside(log: seq<Change>, p: Pid, j: nat) {
    exists i: nat :: InsideSince(log, p, i, j)
  }

  /** Change j lets in a pid that is still inside, and nothing has been cleared since. */
  ghost predicate ReentryAt(log: seq<Change>, j: nat) {
    && j < |log| && log[j].Joined? && Inside(log, log[j].entry.pid, j)
    && forall k :: j < k < |log| ==> log[k] != Cleared
  }

  ghost predicate Reentered(log: seq<Change>) {
    exists j: nat :: ReentryAt(log, j)
  }

  lemma InsidePrefix(log: seq<Change>, p: Pid, n: nat, j: nat)
    requires j <= n <= |log|
    ensures Inside(log[..n], p, j) <==> Inside(log, p, j)
  {
    if Inside(log, p, j) {
      var i: nat :| InsideSince(log, p, i, j);
      assert InsideSince(log[..n], p, i, j);
    }
    if Inside(log[..n], p, j) {
      var i: nat :| InsideSince(log[..n], p, i, j);
      forall k | i < k < j
        ensures log[k] != Left(p) && log[k] != Cleared
      {
        assert log[k] == log[..n][k];
      }
      assert InsideSince(log, p, i, j);
    }
  }

  lemma InsideStep(log: seq<Change>, p: Pid, n: nat)
    requires n < |log|
    ensures Inside(log, p, n + 1) <==>
              || (log[n].Joined? && log[n].entry.pid == p)
              || (log[n] != Left(p) && log[n] != Cleared && Inside(log, p, n))
  {
    if log[n].Joined? && log[n].entry.pid == p {
      assert InsideSince(log, p, n, n + 1);
    } else if log[n] != Left(p) && log[n] != Cleared && Inside(log, p, n) {
      var i: nat :| InsideSince(log, p, i, n);
      assert InsideSince(log, p, i, n + 1);
    }
    if Inside(log, p, n + 1) {
      var i: nat :| InsideSince(log, p, i, n + 1);
      if i < n {
        assert InsideSince(log, p, i, n);
      }
    }
  }

  /** The registered clients are those who joined and have not left since. */
  lemma {:induction false} RegisteredAreInside(log: seq<Change>, p: Pid)
    ensures p in Replay(log) <==> Inside(log, p, |log|)
  {
    if log != [] {
      var n := |log| - 1;
      RegisteredAreInside(log[..n], p);
      InsidePrefix(log, p, n, n);
      InsideStep(log, p, n);
    }
  }

  lemma ReenteredStep(log: seq<Change>, n: nat)
    requires |log| == n + 1
    ensures Reentered(log) <==>
              log[n] != Cleared && (Reentered(log[..n]) || (log[n].Joined? && Inside(log, log[n].entry.pid, n)))
  {
    if Reentered(log) {
      var j: nat :| ReentryAt(log, j);
      if j < n {
        InsidePrefix(log, log[j].entry.pid, n, j);
        assert ReentryAt(log[..n], j);
      }
    }
    if log[n] != Cleared && Reentered(log[..n]) {
      var j: nat :| ReentryAt(log[..n], j);
      InsidePrefix(log, log[j].entry.pid, n, j);
      forall k | j < k < |log|
        ensures log[k] != Cleared
      {
        assert k < n ==> log[k] == log[..n][k];
      }
      assert ReentryAt(log, j);
    }
    if log[n].Joined? && Inside(log, log[n].entry.pid, n) {
      assert ReentryAt(log, n);
    }
  }

  /** Weight is lost exactly by re-entries. */
  lemma {:induction false} LostExactly(log: seq<Change>)
    ensures Lost(log) > 0 <==> Reentered(log)
  {
    if log != [] {
      var n := |log| - 1;
      LostExactly(log[..n]);
      ReenteredStep(log, n);
      if log[n].Joined? {
        RegisteredAreInside(log[..n], log[n].entry.pid);
        InsidePrefix(log, log[n].entry.pid, n, n);
      }
    }
  }

  // ----- What is recorded -----

  ghost function AsRequest(l: Letter<Message>): seq<Entry> {
    if l.body.Enter? && l.body.who.Some? then [Entry(l.from, l.body.who.value)] else []
  }

  /** The well-formed entry requests among some letters, in order. */
  ghost function Requests(ls: seq<Letter<Message>>): seq<Entry> {
    if ls == [] then [] else Requests(ls[..|ls| - 1]) + AsRequest(ls[|ls| - 1])
  }

  /** The entry was acknowledged in a handshake that an open park began, and the park was open then or is closed now. */
  ghost predicate Granted(c: Change, served: seq<Served>, open: bool, env: nat -> Shake) {
    c.Joined? ==>
      && c.at < |served| && served[c.at].entry == c.entry && served[c.at].open && Acknowledged(env(c.at))
      && (open ==> c.open)
  }

  ghost predicate JoinedAt(log: seq<Change>, k: nat) {
    exists j :: 0 <= j < |log| && log[j].Joined? && log[j].at == k
  }

  /** Every acknowledged handshake that an open park began has led to a join. */
  ghost predicate AllJoined(log: seq<Change>, served: seq<Served>, env: nat -> Shake) {
    forall k :: 0 <= k < |served| && served[k].open && Acknowledged(env(k)) ==> JoinedAt(log, k)
  }

  /** Each join has a handshake of its own, and only the last can have come after closing. */
  ghost predicate Recorded(log: seq<Change>, served: seq<Served>, open: bool, env: nat -> Shake) {
    && AllJoined(log, served, env)
    && (forall j :: 0 <= j < |log| ==> Granted(log[j], served, open, env))
    && (forall i, j :: 0 <= i < j < |log| && log[i].Joined? && log[j].Joined? ==> log[i].at < log[j].at && log[i].open)
  }

  ghost predicate Known(s: Cashier, env: nat -> Shake) {
    Recorded(s.log, s.served, s.open, env) && s.arrived == Requests(s.ch.received)
  }

  lemma LaterChanges(log: seq<Change>, later: seq<Change>, served: seq<Served>, env: nat -> Shake)
    requires AllJoined(log, served, env) && log <= later
    ensures AllJoined(later, served, env)
  {
    forall k | 0 <= k < |served| && served[k].open && Acknowledged(env(k))
      ensures JoinedAt(later, k)
    {
      assert JoinedAt(log, k);
      var j :| 0 <= j < |log| && log[j].Joined? && log[j].at == k;
      assert later[j] == log[j];
    }
  }

  lemma EventKeepsKnown(s: Cashier, e: Event, env: nat -> Shake)
    requires Known(s, env)
    ensures Known(Deliver(s, e), env)
  {
    LaterChanges(s.log, Deliver(s, e).log, s.served, env);
    hide AllJoined;
  }

  lemma {:induction false} EventsKeepKnown(s: Cashier, es: seq<Event>, env: nat -> Shake)
    requires Known(s, env)
    ensures Known(DeliverAll(s, es), env)
    decreases |es|
  {
    hide Known, Deliver;
    if es != [] {
      EventKeepsKnown(s, es[0], env);
      EventsKeepKnown(Deliver(s, es[0]), es[1..], env);
    }
  }

  /** The state after a handshake, counted as served. */
  ghost function Noted(s: Cashier, v: Served): Cashier {
    s.(served := s.served + [v])
  }

  ghost predicate AllWhileOpen(log: seq<Change>) {
    forall c <- log :: c.Joined? ==> c.open
  }

  lemma AdmitKeepsKnown(s: Cashier, v: Served, env: nat -> Shake)
    requires Known(s, env) && v.open && Acknowledged(env(|s.served|))
    requires AllWhileOpen(s.log)
    ensures Known(Noted(Admit(s, v.entry), v), env)
  {
    var r := Noted(Admit(s, v.entry), v);
    LaterChanges(s.log, r.log, s.served, env);
    assert JoinedAt(r.log, |s.served|) by {
      assert r.log[|s.log|].Joined? && r.log[|s.log|].at == |s.served|;
    }
    hide JoinedAt;
    forall j | 0 <= j < |r.log|
      ensures Granted(r.log[j], r.served, r.open, env)
    {
      if j < |s.log| {
        assert Granted(s.log[j], s.served, s.open, env);
      }
    }
    forall i, j | 0 <= i < j < |r.log| && r.log[i].Joined? && r.log[j].Joined?
      ensures r.log[i].at < r.log[j].at && r.log[i].open
    {
      assert Granted(s.log[i], s.served, s.open, env);
    }
  }

  lemma RefusalKeepsKnown(s: Cashier, v: Served, env: nat -> Shake)
    requires Known(s, env) && !(v.open && Acknowledged(env(|s.served|)))
    ensures Known(Noted(s, v), env)
  {
    forall j | 0 <= j < |s.log|
      ensures Granted(s.log[j], s.served + [v], s.open, env)
    {
      assert Granted(s.log[j], s.served, s.open, env);
    }
  }

  lemma {:induction false} EventsJoinNobody(s: Cashier, es: seq<Event>)
    requires AllWhileOpen(s.log)
    ensures AllWhileOpen(DeliverAll(s, es).log)
    decreases |es|
  {
    if es != [] {
      EventsJoinNobody(Deliver(s, es[0]), es[1..]);
    }
  }

  lemma AllOpen(s: Cashier, env: nat -> Shake)
    requires Known(s, env) && s.open
    ensures AllWhileOpen(s.log)
  {
    forall j | 0 <= j < |s.log|
      ensures s.log[j].Joined? ==> s.log[j].open
    {
      assert Granted(s.log[j], s.served, s.open, env);
    }
  }

  lemma RegisterKeepsKnown(s: Cashier, v: Served, env: nat -> Shake)
    requires Known(s, env) && v.open == s.open
    ensures var (r, done) := Register(s, v.entry, env(|s.served|));
            Known(if done then Noted(r, v) else r, env)
  {
    var e := v.entry;
    var h := env(|s.served|);
    var (r, done) := Register(s, e, h);
    hide Known;
    if !done {
    } else if h.Missing? {
      RefusalKeepsKnown(s, v, env);
    } else {
      EventsKeepKnown(s, h.posting, env);
      var s1 := DeliverAll(s, h.posting);
      if h.Unsent? || !s.open {
        RefusalKeepsKnown(s1, v, env);
      } else {
        EventsKeepKnown(s1, h.awaiting, env);
        var s2 := DeliverAll(s1, h.awaiting);
        if h.reply.Ack? {
          AllOpen(s, env);
          EventsJoinNobody(s, h.posting);
          EventsJoinNobody(s1, h.awaiting);
          AdmitKeepsKnown(s2, v, env);
        } else {
          RefusalKeepsKnown(s2, v, env);
        }
      }
    }
  }

  lemma {:induction false} ServeVipsKeepsKnown(s: Cashier, env: nat -> Shake)
    requires Known(s, env)
    ensures Known(ServeVips(s, env), env)
    decreases |s.vips|
  {
    if s.vips != [] {
      var (s1, done) := Register(s, s.vips[0], env(|s.served|));
      RegisterKeepsKnown(s, Served(s.vips[0], true, s.open, |s1.ch.received|), env);
      if done {
        ServeVipsKeepsKnown(TakeVip(s1, s.open), env);
      }
    }
  }

  lemma {:induction false} ServeOthersKeepsKnown(s: Cashier, env: nat -> Shake)
    requires Known(s, env)
    ensures Known(ServeOthers(s, env), env)
    decreases |s.others|
  {
    if s.vips == [] && s.others != [] {
      var (s1, done) := Register(s, s.others[0], env(|s.served|));
      RegisterKeepsKnown(s, Served(s.others[0], false, s.open, |s1.ch.received|), env);
      if done {
        ServeOthersKeepsKnown(TakeOther(s1, s.open), env);
      }
    }
  }

  lemma SettleKeepsKnown(s: Cashier, pid: Pid, visited: Option<bool>, bill: Shake, env: nat -> Shake)
    requires Known(s, env)
    ensures Known(Settle(s, pid, visited, bill), env)
  {
    if !bill.Missing? {
      EventsKeepKnown(s, bill.posting, env);
      if bill.Sent? {
        EventsKeepKnown(DeliverAll(s, bill.posting), bill.awaiting, env);
      }
    }
  }

  lemma RemoveKeepsKnown(s: Cashier, pid: Pid, env: nat -> Shake)
    requires Known(s, env)
    ensures Known(Remove(s, pid), env)
  {
    LaterChanges(s.log, Remove(s, pid).log, s.served, env);
    hide AllJoined;
  }

  lemma HandleKeepsKnown(s: Cashier, l: Letter<Message>, bill: Shake, env: nat -> Shake)
    requires Recorded(s.log, s.served, s.open, env)
    requires s.arrived + AsRequest(l) == Requests(s.ch.received)
    ensures Known(Handle(s, l, bill), env)
  {
    hide Recorded;
    match l.body
    case Enter(who) =>
    case Exit(visited) =>
      SettleKeepsKnown(s, l.from, visited, bill, env);
      RemoveKeepsKnown(Settle(s, l.from, visited, bill), l.from, env);
    case Unknown =>
  }

  lemma HandleMailboxKeepsKnown(s: Cashier, receiving: seq<Event>, bill: Shake, env: nat -> Shake)
    requires Known(s, env)
    ensures Known(HandleMailbox(s, receiving, bill), env)
  {
    EventsKeepKnown(s, receiving, env);
    var s1 := DeliverAll(s, receiving);
    var (ch, letter) := Receive(s1.ch);
    if letter.Some? {
      assert ch.received[..|s1.ch.received|] == s1.ch.received;
      HandleKeepsKnown(s1.(ch := ch), letter.value, bill, env);
    }
  }

  lemma IterateKeepsKnown(s: Cashier, p: Pass, env: nat -> Shake)
    requires Known(s, env)
    ensures Known(Iterate(s, p, env), env)
  {
    if !Finished(s) {
      EventsKeepKnown(s.(waiting := true), p.asleep, env);
      var s1 := DeliverAll(s.(waiting := true), p.asleep);
      var w := Wait(s1.ch, -1, p.interrupted, false);
      if w.Some? {
        var s2 := s1.(waiting := false, ch := w.value);
        HandleMailboxKeepsKnown(s2, p.receiving, p.bill, env);
        var s3 := HandleMailbox(s2, p.receiving, p.bill);
        ServeVipsKeepsKnown(s3, env);
        ServeOthersKeepsKnown(ServeVips(s3, env), env);
        EventsKeepKnown(Serve(s3, env), p.logging, env);
      }
    }
  }

  lemma {:induction false} RunKeepsKnown(s: Cashier, ps: seq<Pass>, env: nat -> Shake)
    requires Known(s, env)
    ensures Known(Run(s, ps, env), env)
    decreases |ps|
  {
    if ps != [] {
      IterateKeepsKnown(s, ps[0], env);
      RunKeepsKnown(Iterate(s, ps[0], env), ps[1..], env);
    }
  }

  // ----- Distinct requests -----

  /** No pid asks twice. */
  ghost predicate Unique(es: seq<Entry>) {
    forall i, j :: 0 <= i < j < |es| ==> es[i].pid != es[j].pid
  }

  ghost function PidsOf(es: seq<Entry>): seq<Pid> {
    seq(|es|, i requires 0 <= i < |es| => es[i].pid)
  }

  ghost function Pids(es: seq<Entry>): multiset<Pid> {
    multiset(PidsOf(es))
  }

  ghost function Entries(served: seq<Served>): seq<Entry> {
    seq(|served|, i requires 0 <= i < |served| => served[i].entry)
  }

  lemma PidsConcat(a: seq<Entry>, b: seq<Entry>)
    ensures Pids(a + b) == Pids(a) + Pids(b)
  {
    assert PidsOf(a + b) == PidsOf(a) + PidsOf(b);
  }

  lemma PidsOfClassStep(front: seq<Entry>, e: Entry, c: Class)
    ensures Pids(OfClass(front + [e], c)) ==
            Pids(OfClass(front, c)) + if e.who.kind == c then multiset{e.pid} else multiset{}
  {
    OfClassAppend(front, e, c);
    PidsConcat(OfClass(front, c), [e]);
    assert PidsOf([e]) == [e.pid];
    assert OfClass(front, c) + [] == OfClass(front, c);
  }

  lemma {:induction false} PidsByClass(es: seq<Entry>)
    ensures Pids(es) == Pids(OfClass(es, Vip)) + Pids(OfClass(es, Ordinary))
  {
    if es != [] {
      var front, e := es[..|es| - 1], es[|es| - 1];
      assert es == front + [e] && PidsOf([e]) == [e.pid];
      hide OfClass, PidsOf, Pids;
      PidsByClass(front);
      PidsOfClassStep(front, e, Vip);
      PidsOfClassStep(front, e, Ordinary);
      PidsConcat(front, [e]);
      PidsOne(e);
    }
  }

  lemma PidsOne(e: Entry)
    ensures Pids([e]) == multiset{e.pid}
  {
    assert PidsOf([e]) == [e.pid];
  }

  lemma {:induction false} ServedAsEntries(served: seq<Served>, c: Class)
    ensures ServedOf(served, c) == OfClass(Entries(served), c)
  {
    if served != [] {
      ServedAsEntries(served[..|served| - 1], c);
      assert Entries(served)[..|served| - 1] == Entries(served[..|served| - 1]);
    }
  }

  lemma ServedAmongArrived(s: Cashier)
    requires Ordered(s.vips, s.others, s.served, s.arrived)
    ensures Pids(Entries(s.served)) <= Pids(s.arrived)
  {
    PidsByClass(s.arrived);
    PidsByClass(Entries(s.served));
    ServedAsEntries(s.served, Vip);
    ServedAsEntries(s.served, Ordinary);
    PidsConcat(ServedOf(s.served, Vip), s.vips);
    PidsConcat(ServedOf(s.served, Ordinary), s.others);
  }

  lemma {:induction false} UniqueCount(es: seq<Entry>, p: Pid)
    requires Unique(es)
    ensures Pids(es)[p] <= 1
  {
    if es != [] {
      var front, last := es[..|es| - 1], [es[|es| - 1]];
      UniqueCount(front, p);
      assert es == front + last;
      PidsConcat(front, last);
      assert last[0].pid !in PidsOf(front);
    }
  }

  lemma OccursTwice(es: seq<Entry>, i: nat, j: nat)
    requires i < j < |es| && es[i].pid == es[j].pid
    ensures Pids(es)[es[i].pid] >= 2
  {
    assert es == es[..j] + es[j..];
    PidsConcat(es[..j], es[j..]);
    assert PidsOf(es[..j])[i] == PidsOf(es[j..])[0] == es[i].pid;
  }

  /** If no pid asks twice, nobody re-enters. */
  lemma UniqueNeverReenters(s: Cashier, env: nat -> Shake)
    requires Sound(s) && Known(s, env) && Unique(s.arrived)
    ensures !Reentered(s.log)
  {
    if Reentered(s.log) {
      var j: nat :| ReentryAt(s.log, j);
      var i: nat :| InsideSince(s.log, s.log[j].entry.pid, i, j);
      assert Granted(s.log[i], s.served, s.open, env) && Granted(s.log[j], s.served, s.open, env);
      var a, b := s.log[i].at, s.log[j].at;
      assert Entries(s.served)[a] == s.log[i].entry && Entries(s.served)[b] == s.log[j].entry;
      OccursTwice(Entries(s.served), a, b);
      ServedAmongArrived(s);
      UniqueCount(s.arrived, s.log[j].entry.pid);
      assert false;
    }
  }
}
