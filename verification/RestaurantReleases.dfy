/** When the restaurant's rounds begin and end, who gets a token then, and when it sleeps. */
module RestaurantReleases {
  import opened Common
  import opened Mailbox
  import opened Rounds
  import opened Layout
  import opened RestaurantSpec
  import opened RestaurantProofs
  import opened RestaurantTheorems
  import opened RestaurantClosing
  import opened RestaurantMembership

  // ----- One round -----

  /** The round ends: its time is up or nobody is left, and neither a pause nor an evacuation holds it. */
  predicate Ends(s: Restaurant) {
    && s.round.Some? && !s.paused && !s.evac
    && (s.round.value.finish <= s.now || s.round.value.clients == map[])
  }

  function Unreleased(s: Restaurant): bool {
    s.round.Some? && !s.round.value.released
  }

  /**
    * A sweep destroys exactly a round that ends, and gives each of its guests a token unless a pause has done so, and
    * records just that; otherwise it changes nothing.
    */
  lemma SweepExactly(s: Restaurant)
    ensures var r := Sweep(s);
            && r == s.(round := r.round, leave := r.leave, freed := r.freed)
            && r.round == (if Ends(s) then None else s.round)
            && r.leave == s.leave + (if Ends(s) && Unreleased(s) then |Guests(s)| else 0)
            && r.freed == s.freed + (if Ends(s) && Unreleased(s) then [Freed(s.round.value, s.now, false)] else [])
  {}

  /** A pause lets the guests go, once, and keeps them registered. */
  lemma PauseExactly(s: Restaurant)
    ensures var r := Deliver(s, Pause);
            && r.paused && Guests(r) == Guests(s) && !Unreleased(r)
            && r.leave == s.leave + (if Unreleased(s) then |Guests(s)| else 0)
            && r.freed == s.freed + (if Unreleased(s) then [Freed(s.round.value, s.now, true)] else [])
  {}

  /** While no pause comes, the tokens are those that the guests have not taken. */
  lemma {:induction false} LeavesTakeTokens(s: Restaurant, es: seq<Event>)
    requires NoPause(es)
    ensures var taken := multiset(es)[Leave];
            DeliverAll(s, es).leave == if taken < s.leave then s.leave - taken else 0
    decreases |es|
  {
    if es != [] {
      assert es == [es[0]] + es[1..];
      LeavesTakeTokens(Deliver(s, es[0]), es[1..]);
    }
  }

  function Timeout(s: Restaurant): int {
    if s.waiting.Some? then s.waiting.value else NextTimeout(s)
  }

  /** The state in which the restaurant has slept, in this pass or on from an earlier one. */
  function Slept(s: Restaurant, p: Pass): Restaurant {
    DeliverAll(s.(waiting := Some(Timeout(s))), p.asleep)
  }

  // ----- No round is lost -----

  ghost predicate Released(freed: seq<Freed>, serial: nat) {
    exists k :: 0 <= k < |freed| && freed[k].round.serial == serial
  }

  /** The round with this number is there and its guests have not been let go. */
  ghost predicate Holds(s: Restaurant, serial: nat) {
    Unreleased(s) && s.round.value.serial == serial
  }

  /** r has the unreleased round of s, or that round has been released. */
  ghost predicate Keeps(s: Restaurant, r: Restaurant) {
    && s.freed <= r.freed
    && (Unreleased(s) ==> Holds(r, s.round.value.serial) || Released(r.freed, s.round.value.serial))
  }

  /** Every round constructed so far is there, unreleased, or has been released. */
  ghost predicate Accounted(s: Restaurant) {
    forall n: nat :: n < s.serial ==> Released(s.freed, n) || Holds(s, n)
  }

  lemma ReleasedStays(freed: seq<Freed>, later: seq<Freed>, n: nat)
    requires Released(freed, n) && freed <= later
    ensures Released(later, n)
  {
    var k :| 0 <= k < |freed| && freed[k].round.serial == n;
    assert later[k] == freed[k];
  }

  lemma KeepsTransitive(a: Restaurant, b: Restaurant, c: Restaurant)
    requires Keeps(a, b) && Keeps(b, c)
    ensures Keeps(a, c)
  {
    if Unreleased(a) && Released(b.freed, a.round.value.serial) {
      ReleasedStays(b.freed, c.freed, a.round.value.serial);
    }
  }

  lemma KeepsAccounted(s: Restaurant, r: Restaurant)
    requires Accounted(s) && Keeps(s, r) && r.serial == s.serial
    ensures Accounted(r)
  {
    forall n: nat | n < r.serial
      ensures Released(r.freed, n) || Holds(r, n)
    {
      if Released(s.freed, n) {
        ReleasedStays(s.freed, r.freed, n);
      }
    }
  }

  lemma ReleaseKeepsRounds(s: Restaurant)
    ensures Keeps(s, Release(s))
  {
    if Unreleased(s) {
      assert Release(s).freed[|s.freed|].round.serial == s.round.value.serial;
    }
  }

  lemma EventKeepsRounds(s: Restaurant, e: Event)
    ensures Keeps(s, Deliver(s, e))
  {
    ReleaseKeepsRounds(s.(paused := true));
    hide Release;
  }

  lemma {:induction false} EventsKeepRounds(s: Restaurant, es: seq<Event>)
    ensures Keeps(s, DeliverAll(s, es))
    decreases |es|
  {
    if es != [] {
      hide Deliver;
      EventKeepsRounds(s, es[0]);
      EventsKeepRounds(Deliver(s, es[0]), es[1..]);
      KeepsTransitive(s, Deliver(s, es[0]), DeliverAll(s, es));
    }
  }

  lemma SweepKeepsRounds(s: Restaurant)
    ensures Keeps(s, Sweep(s))
  {
    SweepExactly(s);
    var r := Sweep(s);
    hide Sweep;
    if Ends(s) && Unreleased(s) {
      assert r.freed[|s.freed|].round.serial == s.round.value.serial;
    }
  }

  lemma LetterKeepsRounds(s: Restaurant, l: Letter<Message>, bill: Shake)
    ensures Keeps(s, Handle(s, l, bill))
  {
    hide SendBill;
    BillHears(s, l.from, bill);
    EventsKeepRounds(s, HeardWithExit(s, l.from, bill));
  }

  lemma MailboxKeepsRounds(s: Restaurant, receiving: seq<Event>, bill: Shake)
    ensures Keeps(s, HandleMailbox(s, receiving, bill))
  {
    hide DeliverAll, Handle;
    EventsKeepRounds(s, receiving);
    var s1 := DeliverAll(s, receiving);
    var (ch, letter) := Receive(s1.ch);
    if letter.Some? {
      LetterKeepsRounds(s1.(ch := ch), letter.value, bill);
      KeepsTransitive(s, s1, HandleMailbox(s, receiving, bill));
    }
  }

  lemma RegisterKeepsFreed(cfg: Config, s: Restaurant, r: Round, q: Request, h: Shake)
    ensures var (s1, r1, _) := Register(cfg, s, r, q, h);
            s.freed <= s1.freed && r1.serial == r.serial && r1.released == r.released
  {
    hide DeliverAll;
    if !h.Missing? {
      EventsKeepRounds(s, h.posting);
      if h.Sent? {
        EventsKeepRounds(DeliverAll(s, h.posting), h.awaiting);
      }
    }
  }

  lemma {:induction false} FillKeepsFreed(cfg: Config, s: Restaurant, r: Round, env: nat -> Shake)
    ensures var (s1, r1) := Fill(cfg, s, r, env);
            s.freed <= s1.freed && r1.serial == r.serial && r1.released == r.released
    decreases |s.queue|
  {
    hide Register;
    if s.queue != [] {
      RegisterKeepsFreed(cfg, s, r, s.queue[0], env(|s.handled|));
      var (s1, r1, served) := Register(cfg, s, r, s.queue[0], env(|s.handled|));
      if served {
        FillKeepsFreed(cfg, Take(s1), r1, env);
      }
    }
  }

  lemma RefillAccounts(cfg: Config, s: Restaurant, env: nat -> Shake)
    requires Accounted(s)
    ensures var r := Refill(cfg, s, env);
            Accounted(r) && r.serial == s.serial + if s.round.None? && !s.paused && !s.evac then 1 else 0
  {
    if s.round.None? && !s.paused && !s.evac {
      hide Fill;
      FillKeepsFreed(cfg, Construct(s), Fresh(s.serial), env);
      var (s1, r) := Fill(cfg, Construct(s), Fresh(s.serial), env);
      var t := Conclude(cfg, s1, r);
      forall n: nat | n < t.serial
        ensures Released(t.freed, n) || Holds(t, n)
      {
        if n < s.serial {
          ReleasedStays(s.freed, t.freed, n);
        } else if r.clients == map[] {
          assert t.freed[|s1.freed|].round.serial == n;
        }
      }
    }
  }

  /** A wake-up constructs a round exactly if there is none after its letter and neither flag forbids it. */
  lemma RefillsExactly(cfg: Config, s: Restaurant, p: Pass, env: nat -> Shake)
    requires Accounted(s)
    ensures var s1, r := HandleMailbox(Sweep(s), p.receiving, p.bill), Work(cfg, s, p, env);
            && Accounted(r)
            && r.serial == s.serial + if s1.round.None? && !s1.paused && !s1.evac then 1 else 0
  {
    hide Accounted, Keeps, Sweep, HandleMailbox, Refill, DeliverAll;
    SweepKeepsRounds(s);
    SweepExactly(s);
    KeepsAccounted(s, Sweep(s));
    MailboxKeepsRounds(Sweep(s), p.receiving, p.bill);
    MailboxExactly(Sweep(s), p.receiving, p.bill);
    var s1 := HandleMailbox(Sweep(s), p.receiving, p.bill);
    KeepsAccounted(Sweep(s), s1);
    RefillAccounts(cfg, s1, env);
    var s2 := Refill(cfg, s1, env);
    EventsKeepRounds(s2, p.between);
    KeepsAccounted(s2, DeliverAll(s2, p.between));
  }

  lemma {:induction false} RunAccounts(cfg: Config, s: Restaurant, ps: seq<Pass>, env: nat -> Shake)
    requires Accounted(s)
    ensures Accounted(Run(cfg, s, ps, env))
    decreases |ps|
  {
    hide Accounted, Keeps, Work, DeliverAll;
    if ps != [] {
      var p := ps[0];
      if !Finished(s) {
        var s0 := s.(waiting := Some(Timeout(s)));
        SameAccounts(s, s0);
        EventsKeepRounds(s0, p.asleep);
        KeepsAccounted(s0, Slept(s, p));
        var w := Wait(Slept(s, p).ch, Timeout(s), p.interrupted, p.expired);
        if w.Some? {
          var s2 := Slept(s, p).(waiting := None, ch := w.value);
          SameAccounts(Slept(s, p), s2);
          RefillsExactly(cfg, s2, p, env);
        }
      }
      RunAccounts(cfg, Iterate(cfg, s, p, env), ps[1..], env);
    }
  }

  lemma SameAccounts(s: Restaurant, r: Restaurant)
    requires Accounted(s) && r.round == s.round && r.freed == s.freed && r.serial == s.serial
    ensures Accounted(r)
  {}

  /** Over every run: the guests of every round that was ever constructed have been let go, or are there, not yet. */
  lemma EveryRoundEnds(cfg: Config, now: nat, ps: seq<Pass>, env: nat -> Shake, n: nat)
    ensures var s := Run(cfg, Start(now), ps, env);
            n < s.serial ==> (Released(s.freed, n) <==> !Holds(s, n))
  {
    hide Run, AllFair, OneLate, Balanced;
    RunAccounts(cfg, Start(now), ps, env);
    StartIsSound(cfg, now);
    RunKeeps(cfg, Start(now), ps, env);
  }

  // ----- The wait -----

  /** The wait of the pass ends: at once, by the signal, a token or the expiry of a timeout that is one. */
  predicate Wakes(s: Restaurant, p: Pass) {
    Timeout(s) < -1 || p.interrupted || Slept(s, p).ch.tokens > 0 || (p.expired && Timeout(s) >= 0)
  }

  lemma HandlingKeepsWaiting(s: Restaurant, receiving: seq<Event>, bill: Shake)
    ensures HandleMailbox(s, receiving, bill).waiting == s.waiting
  {
    hide DeliverAll;
  }

  lemma WorkKeepsWaiting(cfg: Config, s: Restaurant, p: Pass, env: nat -> Shake)
    ensures Work(cfg, s, p, env).waiting == s.waiting
  {
    hide DeliverAll, HandleMailbox, Fill;
    HandlingKeepsWaiting(Sweep(s), p.receiving, p.bill);
  }

  /** A pass: the restaurant goes on sleeping, with the timeout it chose at first, exactly if nothing ends its wait. */
  lemma PassExactly(cfg: Config, s: Restaurant, p: Pass, env: nat -> Shake)
    requires !Finished(s)
    ensures var r := Iterate(cfg, s, p, env);
            && r.waiting == (if Wakes(s, p) then None else Some(Timeout(s)))
            && (!Wakes(s, p) ==> r == Slept(s, p))
            && (Finished(r) <==> Wakes(s, p) && !r.open && Guests(r) == map[])
  {
    hide DeliverAll, Work, NextTimeout;
    var s1 := Slept(s, p);
    var w := Wait(s1.ch, Timeout(s), p.interrupted, p.expired);
    if w.Some? {
      WorkKeepsWaiting(cfg, s1.(waiting := None, ch := w.value), p, env);
    }
  }

  // ----- Guests overtaken by the next round -----

  /**
    * As on an attraction, the constructor of a round sets the semaphore to zero. If a wake-up ends a round with n
    * guests and begins the next one, those who have not taken their tokens during the receive find them gone.
    */
  lemma NextRoundTakesTokens(cfg: Config, s: Restaurant, receiving: seq<Event>, bill: Shake, env: nat -> Shake)
    requires Sound(cfg, s, s.serial) && Ends(s) && Unreleased(s) && NoPause(receiving)
    ensures var s1 := HandleMailbox(Sweep(s), receiving, bill);
            var n, taken := |Guests(s)|, multiset(receiving)[Leave];
            && s1.round.None? && s1.leave == (if taken < n then n - taken else 0)
            && CreateRound(cfg, s1, env).leave == 0
  {
    hide DeliverAll, Once, AllFair, OneLate, Balanced, Fill, Handle;
    SweepExactly(s);
    LeavesTakeTokens(Sweep(s), receiving);
    MailboxOfNobody(Sweep(s), receiving, bill);
    var s1 := HandleMailbox(Sweep(s), receiving, bill);
    SweepKeeps(cfg, s, s.serial);
    HandleMailboxKeeps(cfg, Sweep(s), receiving, bill, s.serial);
    LoadEmpty(Fresh(s1.serial).clients);
    ConstructedIsSound(cfg, s1);
    FillKeeps(cfg, Construct(s1), Fresh(s1.serial), env, s1.serial);
  }

  lemma ConstructedIsSound(cfg: Config, s: Restaurant)
    requires Sound(cfg, s, s.serial) && s.round.None?
    ensures Sound(cfg, Construct(s), s.serial)
  {}

  /** Without guests no bill is sent, so a letter touches neither the round nor the tokens. */
  lemma MailboxOfNobody(s: Restaurant, receiving: seq<Event>, bill: Shake)
    requires s.round.None?
    ensures var r := HandleMailbox(s, receiving, bill);
            r.round.None? && r.leave == DeliverAll(s, receiving).leave
  {
    hide DeliverAll;
  }
}
