/** The constant attraction table and the numbering of the semaphore array. */
module Layout {
  datatype Person = Person(age: nat, height: nat)

  datatype Config = Config(
    duration: nat, capacity: nat, handlers: nat, canLeave: bool,
    minChildHeight: int, minHeight: int, minAge: int, maxHeight: int)

  const ATTRACTION_COUNT := 17
  const RESTAURANT_INDEX := ATTRACTION_COUNT - 1

  const TABLE: seq<Config> := [
    Config(30, 20, 1, true, 120, -1, -1, -1),
    Config(30, 12, 1, true, 100, 120, -1, -1),
    Config(25, 16, 1, true, -1, 120, 2, -1),
    Config(35, 18, 1, true, 110, 135, -1, -1),
    Config(20, 14, 1, true, -1, 130, 2, -1),
    Config(20, 8, 1, false, -1, 120, -1, -1),
    Config(15, 12, 1, false, -1, 130, 2, 190),
    Config(15, 24, 1, false, 100, 120, -1, -1),
    Config(35, 5, 4, false, -1, 120, 4, -1),
    Config(35, 5, 4, false, -1, 120, 4, -1),
    Config(30, 24, 1, false, -1, 140, -1, 195),
    Config(25, 18, 1, false, -1, 140, -1, 195),
    Config(20, 2, 4, true, -1, 140, -1, 195),
    Config(20, 3, 4, true, -1, 130, 4, -1),
    Config(15, 2, 10, true, -1, 120, -1, -1),
    Config(35, 9, 5, true, 120, 140, -1, 195),
    Config(60, 50, 1, true, -1, -1, -1, -1)
  ]

  /** Any table the source could be compiled with: 17 rows with byte-sized handler counts. */
  ghost predicate ByteTable(t: seq<Config>) {
    |t| == ATTRACTION_COUNT && forall i :: 0 <= i < |t| ==> t[i].handlers < 256
  }

  /** What the scheduler relies on in a row of the table. */
  ghost predicate Usable(cfg: Config) {
    1 <= cfg.duration < 256 && 2 <= cfg.capacity < 256 && 1 <= cfg.handlers < 256
  }

  lemma TableIsUsable()
    ensures ByteTable(TABLE)
    ensures forall i :: 0 <= i < |TABLE| ==> Usable(TABLE[i])
    ensures TABLE[RESTAURANT_INDEX].handlers == 1
  {}

  // ----- Admission criteria -----

  predicate Meets(cfg: Config, client: Person, child: Person, hasChild: bool) {
    if cfg.maxHeight != -1 && client.height > cfg.maxHeight then false
    else if cfg.minHeight != -1 && client.height < cfg.minHeight then false
    else if hasChild then
      if cfg.minAge != -1 && child.age < cfg.minAge then false
      else if cfg.minChildHeight != -1 && child.height < cfg.minChildHeight then false
      else if cfg.minHeight != -1 && child.height < cfg.minHeight then false
      else true
    else true
  }

  predicate MeetsAttractionCriteria(attractionID: int, client: Person, child: Person, hasChild: bool) {
    if attractionID < 0 || attractionID >= |TABLE| then false
    else Meets(TABLE[attractionID], client, child, hasChild)
  }

  /**
    * The criteria as plain bounds, for any index. A child has to reach the adults' minimum height as well as its own:
    * the else branch of the source adds a test and does not replace one.
    */
  lemma CriteriaExactly(attractionID: int, client: Person, child: Person, hasChild: bool)
    ensures MeetsAttractionCriteria(attractionID, client, child, hasChild) <==>
              && 0 <= attractionID < ATTRACTION_COUNT
              && var cfg := TABLE[attractionID];
                 && cfg.minHeight <= client.height && (cfg.maxHeight == -1 || client.height <= cfg.maxHeight)
                 && (hasChild ==> cfg.minAge <= child.age
                                  && cfg.minChildHeight <= child.height && cfg.minHeight <= child.height)
  {}

  // ----- Semaphore numbering -----

  const MAIN_LOCK := 0
  const CASHIER_EVENT := 1
  const MAIN_PAUSE := 2
  const ATTRACTION_EVENT_1 := 3
  const RESTAURANT_EVENT := ATTRACTION_EVENT_1 + ATTRACTION_COUNT - 1
  const ATTRACTION_HANDLER_1 := RESTAURANT_EVENT + 1

  /** The true sum of the first n handler counts. */
  ghost function Before(t: seq<Config>, n: nat): nat
    requires n <= |t|
  {
    if n == 0 then 0 else Before(t, n - 1) + t[n - 1].handlers
  }

  /** The same sum as the source computes it: the accumulator passes through a 16-bit parameter. */
  function Accumulate(t: seq<Config>, n: nat): int
    requires n <= |t|
  {
    if n == 0 then 0 else Accumulate(t, n - 1) % 0x1_0000 + t[n - 1].handlers
  }

  function FirstHandlerSemaphoreID(t: seq<Config>, attraction: nat): int
    requires |t| == ATTRACTION_COUNT
  {
    if attraction > 17 then -1 else ATTRACTION_HANDLER_1 + Accumulate(t, attraction) % 0x1_0000
  }

  /** The semaphore of one slot of an attraction, as the attraction process computes it. */
  function SlotSemaphore(t: seq<Config>, attraction: nat, slot: nat): int
    requires |t| == ATTRACTION_COUNT
  {
    FirstHandlerSemaphoreID(t, attraction) + slot
  }

  ghost function HandlerCount(t: seq<Config>): nat {
    Before(t, |t|)
  }

  ghost function RestaurantHandler(t: seq<Config>): int {
    ATTRACTION_HANDLER_1 + HandlerCount(t) - 1
  }

  /** The 16-bit accumulator never wraps. */
  lemma {:induction false} PrefixSumNeverWraps(t: seq<Config>, n: nat)
    requires ByteTable(t) && n <= |t|
    ensures Accumulate(t, n) == Before(t, n) <= 255 * n
    ensures FirstHandlerSemaphoreID(t, n) == ATTRACTION_HANDLER_1 + Before(t, n)
  {
    if n > 0 {
      PrefixSumNeverWraps(t, n - 1);
    }
  }

  lemma {:induction false} BeforeIsMonotone(t: seq<Config>, m: nat, n: nat)
    requires m <= n <= |t|
    ensures Before(t, m) <= Before(t, n)
    decreases n - m
  {
    if m < n {
      BeforeIsMonotone(t, m + 1, n);
    }
  }

  /** The owner of a handler semaphore, found by counting offsets down the table. */
  ghost function Locate(t: seq<Config>, offset: nat, n: nat): (owner: (nat, nat))
    requires n <= |t| && offset < Before(t, n)
    ensures owner.0 < n && owner.1 < t[owner.0].handlers && Before(t, owner.0) + owner.1 == offset
  {
    if offset >= Before(t, n - 1) then (n - 1, offset - Before(t, n - 1))
    else Locate(t, offset, n - 1)
  }

  /** Every slot has an id of its own inside the handler range, above every other id ... */
  lemma SlotIdsAreInjective(t: seq<Config>, a: nat, i: nat, b: nat, j: nat)
    requires ByteTable(t)
    requires a < |t| && i < t[a].handlers && b < |t| && j < t[b].handlers
    ensures SlotSemaphore(t, a, i) == SlotSemaphore(t, b, j) ==> a == b && i == j
    ensures RESTAURANT_EVENT < ATTRACTION_HANDLER_1 <= SlotSemaphore(t, a, i) <= RestaurantHandler(t)
  {
    PrefixSumNeverWraps(t, a);
    PrefixSumNeverWraps(t, b);
    BeforeIsMonotone(t, a + 1, |t|);
    if a < b {
      BeforeIsMonotone(t, a + 1, b);
    } else if b < a {
      BeforeIsMonotone(t, b + 1, a);
    }
  }

  /** ... and every id of the range is the id of some slot, so the numbering is a bijection. */
  lemma SlotIdsAreOnto(t: seq<Config>, id: int)
    requires ByteTable(t)
    requires ATTRACTION_HANDLER_1 <= id <= RestaurantHandler(t)
    ensures var (a, i) := Locate(t, id - ATTRACTION_HANDLER_1, |t|);
            a < |t| && i < t[a].handlers && SlotSemaphore(t, a, i) == id
  {
    var (a, i) := Locate(t, id - ATTRACTION_HANDLER_1, |t|);
    PrefixSumNeverWraps(t, a);
  }

  /** The restaurant uses the enumerator; attractions use the prefix sum. They meet exactly for a one-slot last row. */
  lemma RestaurantHandlerIsLast(t: seq<Config>)
    requires ByteTable(t)
    ensures FirstHandlerSemaphoreID(t, RESTAURANT_INDEX) == RestaurantHandler(t) <==> t[RESTAURANT_INDEX].handlers == 1
  {
    PrefixSumNeverWraps(t, RESTAURANT_INDEX);
  }

  // ----- The wake-up of all loops by the main process -----

  /**
    * Gives every event semaphore one token. The id range runs over the pause semaphore as well,
    * which is then set to 1; the lock and the handler semaphores keep their values.
    */
  method OpenAllLoopSemaphores(sem: array<int>)
    requires sem.Length > RESTAURANT_EVENT
    modifies sem
    ensures sem[CASHIER_EVENT] == old(sem[CASHIER_EVENT]) + 1
    ensures forall id :: ATTRACTION_EVENT_1 <= id <= RESTAURANT_EVENT ==> sem[id] == old(sem[id]) + 1
    ensures sem[MAIN_PAUSE] == 1 && sem[MAIN_LOCK] == old(sem[MAIN_LOCK])
    ensures forall id :: ATTRACTION_HANDLER_1 <= id < sem.Length ==> sem[id] == old(sem[id])
  {
    var id := CASHIER_EVENT;
    while id <= RESTAURANT_EVENT
      invariant CASHIER_EVENT <= id <= RESTAURANT_EVENT + 1
      invariant forall k :: CASHIER_EVENT <= k < id ==> sem[k] == old(sem[k]) + 1
      invariant forall k :: 0 <= k < sem.Length && !(CASHIER_EVENT <= k < id) ==> sem[k] == old(sem[k])
    {
      sem[id] := sem[id] + 1;
      id := id + 1;
    }
    sem[MAIN_PAUSE] := 1;
  }
}
