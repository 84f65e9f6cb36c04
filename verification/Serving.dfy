/**
  * A queue served through handshakes, seen from outside: what the signals heard meanwhile and the replies do to the
  * flags of a server and to the round it fills, whatever else goes on in it. The attractions and the restaurant are
  * two instances, proved equal to their serving loops.
  */
module Serving {
  import opened Common
  import opened Rounds

  // ----- Flags -----

  /** A signal flag after a list of events: the last event that switches it decides. */
  function After<E(==)>(flag: bool, on: E, off: E, es: seq<E>): bool
    decreases |es|
  {
    if es == [] then flag else After(Switched(flag, on, off, es[0]), on, off, es[1..])
  }

  function Switched<E(==)>(flag: bool, on: E, off: E, e: E): bool {
    if e == on then true else if e == off then false else flag
  }

  lemma {:induction false} AfterConcat<E>(flag: bool, on: E, off: E, a: seq<E>, b: seq<E>)
    ensures After(flag, on, off, a + b) == After(After(flag, on, off, a), on, off, b)
    decreases |a|
  {
    if a == [] {
      assert a + b == b;
    } else {
      assert (a + b)[1..] == a[1..] + b;
      AfterConcat(Switched(flag, on, off, a[0]), on, off, a[1..], b);
    }
  }

  /** Without the event that clears it, the flag is set exactly if it was or an event sets it. */
  lemma {:induction false} AfterExactly<E>(flag: bool, on: E, off: E, es: seq<E>)
    requires off !in es && on != off
    ensures After(flag, on, off, es) <==> flag || on in es
    decreases |es|
  {
    if es != [] {
      assert es == [es[0]] + es[1..];
      AfterExactly(Switched(flag, on, off, es[0]), on, off, es[1..]);
    }
  }

  // ----- Serving -----

  /** A queued request, malformed or not, welcome or not, with the handshake that the environment has in store. */
  datatype Call<E> = Call(pid: Pid, who: Option<Rider>, welcome: bool, shake: Handshake<E>)

  /** Whether a paused server refuses, and which events switch its flags. */
  datatype Rules<E> = Rules(capacity: nat, strict: bool, close: E, pause: E, resume: E)

  /** The flags, the round and the number of requests served that serving the queue ends with. */
  datatype Gate = Gate(open: bool, paused: bool, round: Round, served: nat)

  predicate Admits<E>(rules: Rules<E>, open: bool, paused: bool) {
    open && !(rules.strict && paused)
  }

  /** What the server hears during a handshake; a malformed request has none. */
  function Heard<E>(allowed: bool, c: Call<E>): seq<E> {
    if c.who.None? then [] else Delivered(c.shake, allowed && c.welcome)
  }

  function Seated<E>(allowed: bool, r: Round, c: Call<E>): Round {
    if allowed && c.who.Some? && c.welcome && Acknowledged(c.shake) then Board(r, c.pid, c.who.value) else r
  }

  ghost predicate Full<E>(rules: Rules<E>, r: Round, c: Call<E>) {
    c.who.Some? && c.welcome && Load(r.clients) + Weight(c.who.value.hasChild) > rules.capacity
  }

  ghost function Serve<E>(rules: Rules<E>, open: bool, paused: bool, r: Round, calls: seq<Call<E>>): Gate
    decreases |calls|
  {
    if calls == [] then Gate(open, paused, r, 0)
    else
      var c, allowed := calls[0], Admits(rules, open, paused);
      if allowed && Full(rules, r, c) then Gate(open, paused, r, 0)
      else
        var es := Heard(allowed, c);
        var g := Serve(rules, open && rules.close !in es, After(paused, rules.pause, rules.resume, es),
                       Seated(allowed, r, c), calls[1..]);
        g.(served := g.served + 1)
  }

  /** Whoever is in the round stays, with the party of its first boarding. */
  lemma {:induction false} ServedRound<E>(rules: Rules<E>, open: bool, paused: bool, r: Round, calls: seq<Call<E>>)
    ensures var g := Serve(rules, open, paused, r, calls);
            && g.round == r.(clients := g.round.clients) && r.clients.Items <= g.round.clients.Items
            && (r.clients != map[] ==> g.round.clients != map[]) && g.served <= |calls|
    decreases |calls|
  {
    if calls != [] {
      var c, allowed := calls[0], Admits(rules, open, paused);
      var es, r1 := Heard(allowed, c), Seated(allowed, r, c);
      assert r.clients != map[] ==> r1.clients != map[] by {
        assert r1 == r || c.pid in r1.clients;
      }
      ServedRound(rules, open && rules.close !in es, After(paused, rules.pause, rules.resume, es), r1, calls[1..]);
    }
  }

  // ----- What is heard, and by when -----

  /** A server that admits does not hear e before the k-th handshake. */
  ghost predicate NotBefore<E>(e: E, calls: seq<Call<E>>, k: nat)
    requires k <= |calls|
  {
    forall j :: 0 <= j < k ==> e !in Heard(true, calls[j])
  }

  ghost predicate NeverHeard<E>(e: E, calls: seq<Call<E>>) {
    forall c <- calls :: e !in Heard(true, c)
  }

  /** The server hears e during the k-th handshake, as long as nothing but closing has made it refuse. */
  ghost predicate HearsAt<E>(rules: Rules<E>, e: E, open: bool, calls: seq<Call<E>>, k: nat) {
    k < |calls| && e in Heard(open && NotBefore(rules.close, calls, k), calls[k])
  }

  ghost predicate HearsWithin<E>(rules: Rules<E>, e: E, open: bool, calls: seq<Call<E>>, n: int) {
    exists k: nat :: k < n && HearsAt(rules, e, open, calls, k)
  }

  /** The k-th request is welcome and acknowledged, and nothing that would refuse it has come before. */
  ghost predicate SeatAt<E>(rules: Rules<E>, open: bool, calls: seq<Call<E>>, k: nat) {
    && k < |calls| && open && NotBefore(rules.close, calls, k) && (rules.strict ==> NotBefore(rules.pause, calls, k))
    && calls[k].who.Some? && calls[k].welcome && Acknowledged(calls[k].shake)
  }

  ghost predicate SomeoneBoards<E>(rules: Rules<E>, open: bool, calls: seq<Call<E>>) {
    exists k: nat :: SeatAt(rules, open, calls, k)
  }

  lemma HeardRefused<E>(e: E, c: Call<E>)
    ensures e in Heard(false, c) ==> e in Heard(true, c)
  {}

  lemma NotBeforeShift<E>(e: E, calls: seq<Call<E>>, k: nat)
    requires 0 < k <= |calls|
    ensures NotBefore(e, calls, k) <==> e !in Heard(true, calls[0]) && NotBefore(e, calls[1..], k - 1)
  {
    if NotBefore(e, calls[1..], k - 1) && e !in Heard(true, calls[0]) {
      forall j | 0 <= j < k
        ensures e !in Heard(true, calls[j])
      {
        assert j > 0 ==> calls[1..][j - 1] == calls[j];
      }
    }
  }

  /** Whether the park is still open after the first handshake. */
  ghost predicate StillOpen<E>(rules: Rules<E>, open: bool, calls: seq<Call<E>>)
    requires calls != []
  {
    open && rules.close !in Heard(open, calls[0])
  }

  lemma HearsLater<E>(rules: Rules<E>, e: E, open: bool, calls: seq<Call<E>>, n: int)
    requires calls != [] && n > 0
    ensures HearsWithin(rules, e, open, calls, n) <==>
              || e in Heard(open, calls[0])
              || HearsWithin(rules, e, StillOpen(rules, open, calls), calls[1..], n - 1)
  {
    var open' := StillOpen(rules, open, calls);
    if e in Heard(open, calls[0]) {
      assert HearsAt(rules, e, open, calls, 0);
    }
    if k: nat :| k < n && HearsAt(rules, e, open, calls, k) {
      if k > 0 {
        NotBeforeShift(rules.close, calls, k);
        assert HearsAt(rules, e, open', calls[1..], k - 1);
      }
    }
    if k: nat :| k < n - 1 && HearsAt(rules, e, open', calls[1..], k) {
      NotBeforeShift(rules.close, calls, k + 1);
      assert HearsAt(rules, e, open, calls, k + 1);
    }
  }

  lemma HearsNothing<E>(rules: Rules<E>, e: E, open: bool, calls: seq<Call<E>>, n: int)
    requires n <= 0
    ensures !HearsWithin(rules, e, open, calls, n)
  {}

  lemma SeatsLater<E>(rules: Rules<E>, open: bool, calls: seq<Call<E>>)
    requires calls != []
    ensures SomeoneBoards(rules, open, calls) <==>
              || SeatAt(rules, open, calls, 0)
              || (!(rules.strict && rules.pause in Heard(open, calls[0]))
                  && SomeoneBoards(rules, StillOpen(rules, open, calls), calls[1..]))
  {
    var open' := StillOpen(rules, open, calls);
    if k: nat :| SeatAt(rules, open, calls, k) {
      if k > 0 {
        NotBeforeShift(rules.close, calls, k);
        NotBeforeShift(rules.pause, calls, k);
        assert SeatAt(rules, open', calls[1..], k - 1);
      }
    }
    if k: nat :| SeatAt(rules, open', calls[1..], k) {
      if !(rules.strict && rules.pause in Heard(open, calls[0])) {
        NotBeforeShift(rules.close, calls, k + 1);
        NotBeforeShift(rules.pause, calls, k + 1);
        assert SeatAt(rules, open, calls, k + 1);
      }
    }
  }

  // ----- Without a resume signal -----

  lemma HeardFlag<E>(rules: Rules<E>, paused: bool, allowed: bool, c: Call<E>)
    requires rules.resume !in Heard(true, c) && rules.pause != rules.resume
    ensures var es := Heard(allowed, c);
            After(paused, rules.pause, rules.resume, es) <==> paused || rules.pause in es
  {
    HeardRefused(rules.resume, c);
    AfterExactly(paused, rules.pause, rules.resume, Heard(allowed, c));
  }

  /** A pause that is not resumed stays, and a strict server seats nobody under it. */
  lemma {:induction false} PausedStays<E>(rules: Rules<E>, open: bool, r: Round, calls: seq<Call<E>>)
    requires NeverHeard(rules.resume, calls) && rules.pause != rules.resume
    ensures var g := Serve(rules, open, true, r, calls);
            g.paused && (rules.strict ==> g.round == r)
    decreases |calls|
  {
    if calls != [] {
      var c, allowed := calls[0], Admits(rules, open, true);
      HeardFlag(rules, true, allowed, c);
      PausedStays(rules, open && rules.close !in Heard(allowed, c), Seated(allowed, r, c), calls[1..]);
    }
  }

  /** Whether someone boards can be told from the calls. */
  lemma {:induction false} BoardsExactly<E>(rules: Rules<E>, open: bool, paused: bool, r: Round, calls: seq<Call<E>>)
    requires rules.capacity >= 2 && r.clients == map[] && (rules.strict ==> !paused)
    requires NeverHeard(rules.resume, calls) && rules.pause != rules.resume
    ensures Serve(rules, open, paused, r, calls).round.clients != map[] <==> SomeoneBoards(rules, open, calls)
    decreases |calls|
  {
    if calls != [] {
      LoadEmpty(r.clients);
      SeatsLater(rules, open, calls);
      HeardFlag(rules, paused, open, calls[0]);
      var c, r1, open' := calls[0], Seated(open, r, calls[0]), StillOpen(rules, open, calls);
      var paused' := paused || rules.pause in Heard(open, c);
      if SeatAt(rules, open, calls, 0) {
        assert c.pid in r1.clients;
        ServedRound(rules, open', paused', r1, calls[1..]);
      } else if rules.strict && paused' {
        PausedStays(rules, open', r, calls[1..]);
      } else {
        BoardsExactly(rules, open', paused', r, calls[1..]);
      }
    }
  }

  /** Whether the server ends paused can be told from the calls. */
  lemma {:induction false} PausesExactly<E>(rules: Rules<E>, open: bool, paused: bool, r: Round, calls: seq<Call<E>>)
    requires NeverHeard(rules.resume, calls) && rules.pause != rules.resume
    ensures var g := Serve(rules, open, paused, r, calls);
            g.paused <==> paused || HearsWithin(rules, rules.pause, open, calls, g.served)
    decreases |calls|
  {
    var g := Serve(rules, open, paused, r, calls);
    if paused {
      PausedStays(rules, open, r, calls);
    } else if g.served > 0 {
      HearsLater(rules, rules.pause, open, calls, g.served);
      HeardFlag(rules, paused, open, calls[0]);
      PausesExactly(rules, StillOpen(rules, open, calls), rules.pause in Heard(open, calls[0]),
                    Seated(open, r, calls[0]), calls[1..]);
    }
  }
}
