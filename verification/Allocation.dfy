/**
  * How attraction processes and the restaurant find their index in the shared pid table. Each start and each stop
  * is one critical section.
  */
module Allocation {
  import opened Common
  import opened Layout

  /** live says which attraction process holds which index; a zero entry of the table is free. */
  datatype Park = Park(table: seq<Pid>, live: map<Pid, nat>, restaurant: Option<Pid>)

  datatype Step = Start(p: Pid) | Stop(p: Pid) | StartRestaurant(p: Pid) | StopRestaurant

  ghost const EMPTY := Park(seq(ATTRACTION_COUNT, i => 0), map[], None)

  function FirstZero(table: seq<Pid>, i: nat): nat
    requires i <= |table|
    decreases |table| - i
  {
    if i == |table| || table[i] == 0 then i else FirstZero(table, i + 1)
  }

  lemma {:induction false} FirstZeroIsFirst(table: seq<Pid>, i: nat)
    requires i <= |table|
    ensures var k := FirstZero(table, i);
            && i <= k <= |table| && (k < |table| ==> table[k] == 0)
            && forall j :: i <= j < k ==> table[j] != 0
    decreases |table| - i
  {
    if i < |table| && table[i] != 0 {
      FirstZeroIsFirst(table, i + 1);
    }
  }

  /** The scan of pInitImpl over the shared table; -1 stands for the exception that all attractions exist. */
  method TakeIndex(table: array<Pid>, pid: Pid) returns (id: int)
    modifies table
    ensures var k := FirstZero(old(table[..]), 0);
            if k < table.Length then id == k && table[..] == old(table[..])[k := pid]
            else id == -1 && table[..] == old(table[..])
  {
    var i := 0;
    FirstZeroIsFirst(table[..], 0);
    while i < table.Length
      invariant 0 <= i <= table.Length && table[..] == old(table[..])
      invariant FirstZero(table[..], i) == FirstZero(table[..], 0)
    {
      if table[i] == 0 {
        table[i] := pid;
        return i;
      }
      i := i + 1;
    }
    return -1;
  }

  /** A process has a pid of its own; a start that finds no room leaves everything as it was. */
  function Do(s: Park, a: Step): (r: Park)
    requires |s.table| == ATTRACTION_COUNT
    ensures |r.table| == ATTRACTION_COUNT
  {
    match a
    case Start(p) =>
      FirstZeroIsFirst(s.table, 0);
      var i := FirstZero(s.table, 0);
      if p == 0 || p in s.live || s.restaurant == Some(p) || i == |s.table| then s
      else s.(table := s.table[i := p], live := s.live[p := i])
    case Stop(p) =>
      if p in s.live && s.live[p] < |s.table| then s.(table := s.table[s.live[p] := 0], live := s.live - {p}) else s
    case StartRestaurant(p) =>
      if p == 0 || p in s.live || s.restaurant.Some? || s.table[RESTAURANT_INDEX] != 0 then s
      else s.(table := s.table[RESTAURANT_INDEX := p], restaurant := Some(p))
    case StopRestaurant =>
      if s.restaurant.None? then s
      else if s.table[RESTAURANT_INDEX] == s.restaurant.value
      then s.(table := s.table[RESTAURANT_INDEX := 0], restaurant := None) else s.(restaurant := None)
  }

  /** Every live process finds itself at its index, and every entry names its one holder. */
  ghost predicate Sound(s: Park) {
    && |s.table| == ATTRACTION_COUNT
    && (forall p <- s.live :: p != 0 && s.live[p] < |s.table| && s.table[s.live[p]] == p)
    && (s.restaurant.Some? ==> s.restaurant.value != 0 && s.table[RESTAURANT_INDEX] == s.restaurant.value
                               && s.restaurant.value !in s.live)
    && (forall i :: 0 <= i < |s.table| && s.table[i] != 0 ==>
          (s.table[i] in s.live && s.live[s.table[i]] == i)
          || (i == RESTAURANT_INDEX && s.restaurant == Some(s.table[i])))
  }

  lemma DoKeepsSound(s: Park, a: Step)
    requires Sound(s)
    ensures Sound(Do(s, a))
  {
    FirstZeroIsFirst(s.table, 0);
  }

  /** A start takes the first free index, and changes nothing else; without a free one it changes nothing at all. */
  lemma StartExactly(s: Park, p: Pid, i: nat)
    requires Sound(s) && p !in s.live && i < |s.table|
    ensures var r := Do(s, Start(p));
            var first := s.table[i] == 0 && forall j :: 0 <= j < i ==> s.table[j] != 0;
            && (p != 0 && s.restaurant != Some(p) && first ==>
                 r == Park(s.table[i := p], s.live[p := i], s.restaurant))
            && (p in r.live ==> 0 in s.table)
            && (p !in r.live ==> r == s)
  {
    FirstZeroIsFirst(s.table, 0);
  }

  /** A stop gives back exactly what the start has taken, of an attraction ... */
  lemma StopUndoesStart(s: Park, p: Pid)
    requires Sound(s) && p !in s.live
    ensures Do(Do(s, Start(p)), Stop(p)) == s
  {
    FirstZeroIsFirst(s.table, 0);
    var r := Do(s, Start(p));
    if p in r.live {
      var i := r.live[p];
      assert r.table[i := 0] == s.table && r.live - {p} == s.live;
    }
  }

  /** ... and of the restaurant. */
  lemma StopUndoesRestaurant(s: Park, p: Pid)
    requires Sound(s) && s.restaurant.None?
    ensures var r := Do(s, StartRestaurant(p));
            && (r.restaurant == Some(p) <==> p != 0 && p !in s.live && s.table[RESTAURANT_INDEX] == 0)
            && Do(r, StopRestaurant) == s
  {
    var r := Do(s, StartRestaurant(p));
    if r.restaurant.Some? {
      assert r.table[RESTAURANT_INDEX := 0] == s.table;
    }
  }

  /** Whenever it comes, it frees one entry: any process can start then, with that index or an earlier one. */
  lemma StopMakesRoom(s: Park, p: Pid, q: Pid)
    requires Sound(s) && p in s.live && q != 0 && (q == p || q !in s.live) && s.restaurant != Some(q)
    ensures var t := Do(s, Stop(p));
            var r := Do(t, Start(q));
            && t == Park(s.table[s.live[p] := 0], s.live - {p}, s.restaurant)
            && q in r.live && r.live[q] <= s.live[p]
  {
    var t := Do(s, Stop(p));
    FirstZeroIsFirst(t.table, 0);
    assert t.table[s.live[p]] == 0;
  }

  /** Live attractions have distinct indices, none of them the restaurant's while it runs. */
  lemma IndicesAreDistinct(s: Park, p: Pid, q: Pid)
    requires Sound(s) && p in s.live && q in s.live
    ensures s.live[p] == s.live[q] ==> p == q
    ensures s.restaurant.Some? ==> s.live[p] != RESTAURANT_INDEX
  {}

  lemma {:induction false} FullPrefixNeedsProcesses(s: Park, n: nat) returns (holders: set<Pid>)
    requires Sound(s) && n <= RESTAURANT_INDEX
    requires forall i :: 0 <= i < n ==> s.table[i] != 0
    ensures |holders| == n && holders <= s.live.Keys && forall p <- holders :: s.live[p] < n
  {
    if n == 0 {
      holders := {};
    } else {
      var rest := FullPrefixNeedsProcesses(s, n - 1);
      holders := rest + {s.table[n - 1]};
    }
  }

  /** A starting attraction gets the restaurant's index exactly when the sixteen before it are taken. */
  lemma TakesRestaurantIndexExactly(s: Park, p: Pid)
    requires Sound(s) && p != 0 && p !in s.live && s.restaurant != Some(p)
    ensures var r := Do(s, Start(p));
            p in r.live && r.live[p] == RESTAURANT_INDEX <==>
              s.table[RESTAURANT_INDEX] == 0 && forall i :: 0 <= i < RESTAURANT_INDEX ==> s.table[i] != 0
  {
    FirstZeroIsFirst(s.table, 0);
  }

  ghost predicate SparesRestaurant(s: Park) {
    forall p <- s.live :: s.live[p] < RESTAURANT_INDEX
  }

  lemma {:induction false} SubsetIsSmaller(a: set<Pid>, b: set<Pid>)
    requires a <= b
    ensures |a| <= |b|
  {
    if a != {} {
      HasMember(a);
      var p :| p in a;
      SubsetIsSmaller(a - {p}, b - {p});
    }
  }

  /** With fewer than sixteen attractions alive, a starting one is never driven to the restaurant's index. */
  lemma DoSparesRestaurant(s: Park, a: Step)
    requires Sound(s) && SparesRestaurant(s)
    requires a.Start? ==> |s.live| < RESTAURANT_INDEX
    ensures SparesRestaurant(Do(s, a))
  {
    FirstZeroIsFirst(s.table, 0);
    if a.Start? && FirstZero(s.table, 0) >= RESTAURANT_INDEX {
      var holders := FullPrefixNeedsProcesses(s, RESTAURANT_INDEX);
      SubsetIsSmaller(holders, s.live.Keys);
    }
  }

  ghost function Exec(s: Park, steps: seq<Step>): (r: Park)
    requires |s.table| == ATTRACTION_COUNT
    ensures |r.table| == ATTRACTION_COUNT
    decreases |steps|
  {
    if steps == [] then s else Exec(Do(s, steps[0]), steps[1..])
  }

  /** Along the run no attraction starts while sixteen are alive: the main process creates no more. */
  ghost predicate AtMostSixteen(s: Park, steps: seq<Step>)
    requires |s.table| == ATTRACTION_COUNT
    decreases |steps|
  {
    steps == [] || ((steps[0].Start? ==> |s.live| < RESTAURANT_INDEX) && AtMostSixteen(Do(s, steps[0]), steps[1..]))
  }

  lemma {:induction false} ExecKeeps(s: Park, steps: seq<Step>)
    requires Sound(s) && SparesRestaurant(s) && AtMostSixteen(s, steps)
    ensures Sound(Exec(s, steps)) && SparesRestaurant(Exec(s, steps))
    decreases |steps|
  {
    if steps != [] {
      DoKeepsSound(s, steps[0]);
      DoSparesRestaurant(s, steps[0]);
      ExecKeeps(Do(s, steps[0]), steps[1..]);
    }
  }

  /** Any interleaving of starts and stops leaves live attractions with indices of their own below the restaurant's. */
  lemma AllocationIsSound(steps: seq<Step>, p: Pid, q: Pid)
    requires AtMostSixteen(EMPTY, steps)
    ensures var s := Exec(EMPTY, steps);
            p in s.live && q in s.live ==>
              && s.live[p] < RESTAURANT_INDEX < |s.table| && s.table[s.live[p]] == p
              && (s.live[p] == s.live[q] ==> p == q)
  {
    ExecKeeps(EMPTY, steps);
  }
}
