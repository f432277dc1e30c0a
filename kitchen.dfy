/**
 * The kitchen simulation's data and rules, as values.
 *
 * Items, players, stations and orders are plain datatypes; the whole kitchen is a `State`.
 * Every rule of the simulation (moving, interacting with the nearest station, chopping,
 * the per-tick update) is a function from one `State` to the next. The class `GameModel`
 * in module Game performs the same changes in place and is proved against these functions.
 *
 * Time is an integer number of milliseconds supplied by the caller.
 */
module Kitchen {

  datatype Option<T> = None | Some(value: T)

  datatype ItemType = Tomato | Lettuce | Bread | CookedPatty | RawPatty | Burger

  datatype StationType = IngredientSpawn | CuttingBoard | Stove | Assembly | Delivery

  datatype BurgerIngredient = BurgerIngredient(kind: ItemType, isChopped: bool)

  datatype Item = Item(kind: ItemType, chopped: bool, burgerIngredients: seq<BurgerIngredient>)

  datatype Player = Player(x: int, y: int, held: Option<Item>)

  /** `item` is the single slot; `contents` is the assembly stack (bottom first). */
  datatype Station = Station(x: int, y: int, kind: StationType, item: Option<Item>,
                             cookingStart: int, cookingDuration: int,
                             ingredient: Option<ItemType>, contents: seq<Item>)

  datatype Order = Order(itemsNeeded: seq<ItemType>, timeRemaining: int)

  datatype State = State(players: seq<Player>, stations: seq<Station>, orders: seq<Order>, score: int)

  const GridStep := 50
  const MaxX := 750
  const MaxY := 550
  const InteractRange := 70
  /** 3 seconds of cooking. */
  const CookingDuration := 3000
  /** 60 seconds per order. */
  const OrderTime := 60000
  /** At most this many orders at once. */
  const MaxOrders := 3
  /** The update tops the order list up when it holds fewer than this. */
  const MinOrders := 2

  function Abs(v: int): int { if v < 0 then -v else v }

  function Clamp(v: int, lo: int, hi: int): (r: int)
    requires lo <= hi
    ensures lo <= r <= hi
    ensures lo <= v <= hi ==> r == v
    ensures v < lo ==> r == lo
    ensures hi < v ==> r == hi
  {
    if v < lo then lo else if hi < v then hi else v
  }

  /** A freshly made item: unchopped, no recorded burger ingredients. */
  function NewItem(t: ItemType): Item { Item(t, false, []) }

  predicate Choppable(t: ItemType) { t == Tomato || t == Lettuce }

  predicate HasKind(c: seq<Item>, t: ItemType) { exists i :: 0 <= i < |c| && c[i].kind == t }

  predicate HasChopped(c: seq<Item>, t: ItemType) { exists i :: 0 <= i < |c| && c[i].kind == t && c[i].chopped }

  /** The kinds a burger is built from. */
  predicate Required(t: ItemType) { t != RawPatty && t != Burger }

  /**
   * The assembly's completeness test: every kind a burger is built from lies in the stack, the
   * vegetables chopped.
   */
  predicate BurgerReady(c: seq<Item>): (r: bool)
    ensures r <==> forall t :: Required(t) ==>
                      exists i :: 0 <= i < |c| && c[i].kind == t && (Choppable(t) ==> c[i].chopped)
  {
    assert Required(Bread) && Required(CookedPatty) && Required(Tomato) && Required(Lettuce);
    HasKind(c, Bread) && HasKind(c, CookedPatty) && HasChopped(c, Tomato) && HasChopped(c, Lettuce)
  }

  // ---------------------------------------------------------------- points

  /** Positions of the chopped tomatoes and lettuces among a burger's recorded ingredients. */
  function ChoppedPositions(bs: seq<BurgerIngredient>): set<nat>
  {
    set j: nat | j < |bs| && Choppable(bs[j].kind) && bs[j].isChopped
  }

  /** The counting loop over a burger's recorded ingredients: one per chopped tomato or lettuce. */
  function ChoppedVeggies(bs: seq<BurgerIngredient>): (n: nat)
    ensures n <= |bs|
  {
    if bs == [] then 0
    else ChoppedVeggies(bs[..|bs| - 1]) + (if Choppable(bs[|bs| - 1].kind) && bs[|bs| - 1].isChopped then 1 else 0)
  }

  /** The loop counts exactly the chopped tomatoes and lettuces. */
  lemma {:induction false} ChoppedVeggiesCounts(bs: seq<BurgerIngredient>)
    ensures ChoppedVeggies(bs) == |ChoppedPositions(bs)|
  {
    if bs != [] {
      var n := |bs| - 1;
      var pre := bs[..n];
      ChoppedVeggiesCounts(pre);
      var last: set<nat> := if Choppable(bs[n].kind) && bs[n].isChopped then {n} else {};
      assert ChoppedPositions(bs) == ChoppedPositions(pre) + last by {
        forall j: nat | j in ChoppedPositions(bs) ensures j in ChoppedPositions(pre) + last {
          if j < n { assert pre[j] == bs[j]; }
        }
        forall j: nat | j in ChoppedPositions(pre) ensures j in ChoppedPositions(bs) {
          assert pre[j] == bs[j];
        }
      }
      assert n !in ChoppedPositions(pre);
    }
  }

  /**
   * Points for delivering an item: 0 unless a burger; a burger scores 10 with no chopped
   * vegetable recorded, 15 with one and 20 with two or more.
   */
  function BurgerPoints(it: Item): (r: int)
    ensures r == 0 <==> it.kind != Burger
    ensures it.kind == Burger ==>
              var n := |ChoppedPositions(it.burgerIngredients)|;
              && (r == 10 <==> n == 0)
              && (r == 15 <==> n == 1)
              && (r == 20 <==> n >= 2)
    ensures it.kind == Burger && it.burgerIngredients == [] ==> r == 10
  {
    if it.kind != Burger then 0
    else
      var n := ChoppedVeggies(it.burgerIngredients);
      ChoppedVeggiesCounts(it.burgerIngredients);
      if n == 0 then 10 else if n == 1 then 15 else 20
  }

  // ---------------------------------------------------------------- nearest station

  function Distance(px: int, py: int, s: Station): int { Abs(px - s.x) + Abs(py - s.y) }

  /** A station the scan may pick: within range and, for chopping, a cutting board. */
  predicate InRange(px: int, py: int, s: Station, boardsOnly: bool)
  {
    (!boardsOnly || s.kind == CuttingBoard) && Distance(px, py, s) <= InteractRange
  }

  /**
   * The station the scan over the first `n` stations ends with: it replaces its choice only
   * by a station in range at a strictly smaller distance. NearestInSpec characterises it.
   */
  function NearestIn(ss: seq<Station>, n: nat, px: int, py: int, boardsOnly: bool): (r: Option<nat>)
    requires n <= |ss|
    ensures r.Some? ==> r.value < n
  {
    if n == 0 then None
    else
      var best := NearestIn(ss, n - 1, px, py, boardsOnly);
      if InRange(px, py, ss[n - 1], boardsOnly)
         && (best.None? || Distance(px, py, ss[n - 1]) < Distance(px, py, ss[best.value]))
      then Some(n - 1)
      else best
  }

  /**
   * The scan picks a station in range at the smallest Manhattan distance, the earliest listed
   * one on a tie, and picks none exactly when no station is in range.
   */
  lemma {:induction false} NearestInSpec(ss: seq<Station>, n: nat, px: int, py: int, boardsOnly: bool)
    requires n <= |ss|
    ensures var r := NearestIn(ss, n, px, py, boardsOnly);
      && (r.None? <==> forall j :: 0 <= j < n ==> !InRange(px, py, ss[j], boardsOnly))
      && (r.Some? ==> InRange(px, py, ss[r.value], boardsOnly))
      && (r.Some? ==> forall j :: 0 <= j < n && InRange(px, py, ss[j], boardsOnly) ==>
                        Distance(px, py, ss[r.value]) <= Distance(px, py, ss[j]))
      && (r.Some? ==> forall j :: 0 <= j < r.value && InRange(px, py, ss[j], boardsOnly) ==>
                        Distance(px, py, ss[r.value]) < Distance(px, py, ss[j]))
  {
    if n > 0 {
      NearestInSpec(ss, n - 1, px, py, boardsOnly);
    }
  }

  // ---------------------------------------------------------------- per-station rules

  /** What one interaction with one station can change: the hand and that station. */
  datatype Exchange = Exchange(held: Option<Item>, station: Station)

  function Opt(o: Option<Item>): multiset<Item> { if o.Some? then multiset{o.value} else multiset{} }

  /** Every item owned by the hand and the station (slot and stack). */
  function Owned(e: Exchange): multiset<Item>
  {
    Opt(e.held) + Opt(e.station.item) + multiset(e.station.contents)
  }

  predicate Plain(it: Item) { it.burgerIngredients == [] }

  predicate PlainOpt(o: Option<Item>) { o.Some? ==> Plain(o.value) }

  predicate Assemblable(it: Item)
  {
    it.kind == Bread || it.kind == CookedPatty || (Choppable(it.kind) && it.chopped)
  }

  /**
   * The assembly stack's invariant: bread at the bottom, only burger ingredients (vegetables
   * chopped), no kind twice, and never a complete burger left standing.
   */
  predicate AssemblyOk(c: seq<Item>)
  {
    && (|c| > 0 ==> c[0].kind == Bread)
    && (forall i :: 0 <= i < |c| ==> Assemblable(c[i]))
    && (forall i, j :: 0 <= i < j < |c| ==> c[i].kind != c[j].kind)
    && !BurgerReady(c)
  }

  /** What each kind of station may hold in a consistent kitchen. */
  predicate ValidStation(s: Station)
  {
    && PlainOpt(s.item)
    && (forall j :: 0 <= j < |s.contents| ==> Plain(s.contents[j]))
    && match s.kind
       case IngredientSpawn => s.item.None? && s.contents == []
       case CuttingBoard => (s.item.Some? ==> Choppable(s.item.value.kind)) && s.contents == []
       case Stove => (s.item.Some? ==> s.item.value.kind == RawPatty || s.item.value.kind == CookedPatty) && s.contents == []
       case Assembly => (s.item.Some? ==> s.item.value.kind == Burger && s.contents == []) && AssemblyOk(s.contents)
       case Delivery => s.item.None? && s.contents == []
  }

  /** The fixed attributes of a station: position, kind, spawn ingredient, cooking duration. */
  predicate SameSpot(s: Station, t: Station)
  {
    s.x == t.x && s.y == t.y && s.kind == t.kind && s.ingredient == t.ingredient && s.cookingDuration == t.cookingDuration
  }

  /** Ingredient spawn: an empty hand takes a fresh item of the spawn's ingredient. */
  function SpawnRule(held: Option<Item>, st: Station): (r: Exchange)
    ensures r.station == st
    ensures r.held != held <==> held.None? && st.ingredient.Some?
    ensures r.held != held ==> r.held == Some(NewItem(st.ingredient.value))
    ensures Owned(r) == Owned(Exchange(held, st)) + (if r.held != held then Opt(r.held) else multiset{})
    ensures PlainOpt(held) ==> PlainOpt(r.held)
  {
    if held.None? && st.ingredient.Some? then Exchange(Some(NewItem(st.ingredient.value)), st)
    else Exchange(held, st)
  }

  /** The held item goes into the empty slot. */
  predicate Placed(e: Exchange, r: Exchange)
  {
    e.held.Some? && e.station.item.None? && r.held.None? && r.station.item == e.held
  }

  /** The slot's item goes into the empty hand. */
  predicate Taken(e: Exchange, r: Exchange)
  {
    e.held.None? && e.station.item.Some? && r.held == e.station.item && r.station.item.None?
  }

  /** Cutting board: only a tomato or a lettuce goes on an empty board; an empty hand takes what lies there. */
  function BoardRule(held: Option<Item>, st: Station): (r: Exchange)
    ensures Owned(r) == Owned(Exchange(held, st))
    ensures r.station == st.(item := r.station.item)
    ensures SameSpot(st, r.station)
    ensures Placed(Exchange(held, st), r) <==> held.Some? && st.item.None? && Choppable(held.value.kind)
    ensures Taken(Exchange(held, st), r) <==> held.None? && st.item.Some?
    ensures r == Exchange(held, st) || Placed(Exchange(held, st), r) || Taken(Exchange(held, st), r)
    ensures st.kind == CuttingBoard && ValidStation(st) && PlainOpt(held) ==> ValidStation(r.station) && PlainOpt(r.held)
  {
    if held.Some? && st.item.None? then
      if Choppable(held.value.kind) then Exchange(None, st.(item := held)) else Exchange(held, st)
    else if st.item.Some? && held.None? then Exchange(st.item, st.(item := None))
    else Exchange(held, st)
  }

  /**
   * Stove: only a raw patty goes on an empty stove, stamping the cooking start; an empty hand
   * takes what lies there and the start is reset to 0.
   */
  function StoveRule(held: Option<Item>, st: Station, now: int): (r: Exchange)
    ensures SameSpot(st, r.station)
    ensures Owned(r) == Owned(Exchange(held, st))
    ensures Placed(Exchange(held, st), r) <==> held.Some? && st.item.None? && held.value.kind == RawPatty
    ensures Placed(Exchange(held, st), r) ==> r.station == st.(item := held, cookingStart := now)
    ensures Taken(Exchange(held, st), r) <==> held.None? && st.item.Some?
    ensures Taken(Exchange(held, st), r) ==> r.station == st.(item := None, cookingStart := 0)
    ensures r == Exchange(held, st) || Placed(Exchange(held, st), r) || Taken(Exchange(held, st), r)
    ensures st.kind == Stove && ValidStation(st) && PlainOpt(held) ==> ValidStation(r.station) && PlainOpt(r.held)
  {
    if held.Some? && st.item.None? then
      if held.value.kind == RawPatty then Exchange(None, st.(item := held, cookingStart := now))
      else Exchange(held, st)
    else if st.item.Some? && held.None? then Exchange(st.item, st.(item := None, cookingStart := 0))
    else Exchange(held, st)
  }

  predicate HoldsBurger(st: Station) { st.item.Some? && st.item.value.kind == Burger }

  /** Whether the assembly takes `h` on top of `c`: bread first, then each other ingredient once. */
  predicate Accepts(c: seq<Item>, h: Item): (r: bool)
    ensures |c| == 0 ==> (r <==> h.kind == Bread)
    ensures r ==> Assemblable(h)
    ensures |c| > 0 ==> (r <==> Assemblable(h) && h.kind != Bread && !HasKind(c, h.kind))
  {
    if |c| == 0 then h.kind == Bread
    else match h.kind
      case CookedPatty => !HasKind(c, CookedPatty)
      case Tomato => h.chopped && !HasKind(c, Tomato)
      case Lettuce => h.chopped && !HasKind(c, Lettuce)
      case _ => false
  }

  lemma {:induction false} ReadyPrefix(c: seq<Item>, n: nat)
    requires n <= |c|
    ensures BurgerReady(c[..n]) ==> BurgerReady(c)
  {
    if BurgerReady(c[..n]) {
      var p := c[..n];
      var b :| 0 <= b < |p| && p[b].kind == Bread;
      var k :| 0 <= k < |p| && p[k].kind == CookedPatty;
      var t :| 0 <= t < |p| && p[t].kind == Tomato && p[t].chopped;
      var l :| 0 <= l < |p| && p[l].kind == Lettuce && p[l].chopped;
      assert c[b] == p[b] && c[k] == p[k] && c[t] == p[t] && c[l] == p[l];
    }
  }

  lemma {:induction false} AcceptKeepsOk(c: seq<Item>, h: Item)
    requires AssemblyOk(c) && Accepts(c, h)
    ensures var c' := c + [h];
            && (|c'| > 0 ==> c'[0].kind == Bread)
            && (forall i :: 0 <= i < |c'| ==> Assemblable(c'[i]))
            && (forall i, j :: 0 <= i < j < |c'| ==> c'[i].kind != c'[j].kind)
  {
    var c' := c + [h];
    forall i, j | 0 <= i < j < |c'| ensures c'[i].kind != c'[j].kind {
      if j == |c| {
        assert c'[i] == c[i] && c'[j] == h;
        assert !HasKind(c, h.kind);
      }
    }
  }

  /**
   * Assembly: a finished burger is taken only by an empty hand; otherwise a held item is
   * deposited if accepted, and the deposit that makes the stack a complete burger replaces the
   * whole stack by a new burger in the slot; an empty hand takes back the top of the stack.
   */
  function AssemblyRule(held: Option<Item>, st: Station): (r: Exchange)
    ensures SameSpot(st, r.station)
    ensures AssemblyOk(st.contents) ==> AssemblyOk(r.station.contents)
  {
    if HoldsBurger(st) then
      if held.None? then Exchange(st.item, st.(item := None)) else Exchange(held, st)
    else if held.Some? then
      if !Accepts(st.contents, held.value) then Exchange(held, st)
      else
        var c := st.contents + [held.value];
        AssemblyDepositLemma(st.contents, held.value);
        if BurgerReady(c) then Exchange(None, st.(item := Some(NewItem(Burger)), contents := []))
        else Exchange(None, st.(contents := c))
    else if |st.contents| > 0 then
      var n := |st.contents| - 1;
      AssemblyPopLemma(st.contents);
      Exchange(Some(st.contents[n]), st.(contents := st.contents[..n]))
    else Exchange(held, st)
  }

  lemma AssemblyDepositLemma(c: seq<Item>, h: Item)
    ensures AssemblyOk(c) && Accepts(c, h) && !BurgerReady(c + [h]) ==> AssemblyOk(c + [h])
    ensures multiset(c + [h]) == multiset(c) + multiset{h}
  {
    if AssemblyOk(c) && Accepts(c, h) { AcceptKeepsOk(c, h); }
  }

  lemma AssemblyPopLemma(c: seq<Item>)
    requires |c| > 0
    ensures AssemblyOk(c) ==> AssemblyOk(c[..|c| - 1])
    ensures multiset(c) == multiset(c[..|c| - 1]) + multiset{c[|c| - 1]}
  {
    var n := |c| - 1;
    ReadyPrefix(c, n);
    assert c == c[..n] + [c[n]];
  }

  /** Index of the first order that asks for `t`. */
  function FirstOrderFor(os: seq<Order>, t: ItemType): (r: Option<nat>)
    ensures r.Some? ==> r.value < |os| && t in os[r.value].itemsNeeded
    ensures r.Some? ==> forall j :: 0 <= j < r.value ==> t !in os[j].itemsNeeded
    ensures r.None? ==> forall j :: 0 <= j < |os| ==> t !in os[j].itemsNeeded
  {
    if os == [] then None
    else if t in os[0].itemsNeeded then Some(0)
    else match FirstOrderFor(os[1..], t)
      case None => None
      case Some(j) => Some(j + 1)
  }

  /** What delivering changes: the hand, the orders and the score. */
  datatype Counter = Counter(held: Option<Item>, orders: seq<Order>, score: int)

  /**
   * Delivery: a held burger fulfils the first order asking for a burger, scores its points and
   * leaves the hand; anything else changes nothing.
   */
  function DeliveryRule(held: Option<Item>, os: seq<Order>, score: int): (r: Counter)
    ensures r != Counter(held, os, score) <==>
              held.Some? && held.value.kind == Burger && FirstOrderFor(os, Burger).Some?
    ensures r != Counter(held, os, score) ==>
              var i := FirstOrderFor(os, Burger).value;
              r == Counter(None, os[..i] + os[i + 1..], score + BurgerPoints(held.value))
  {
    if held.Some? && held.value.kind == Burger then
      match FirstOrderFor(os, Burger)
      case None => Counter(held, os, score)
      case Some(i) => Counter(None, os[..i] + os[i + 1..], score + BurgerPoints(held.value))
    else Counter(held, os, score)
  }

  // ---------------------------------------------------------------- whole-kitchen operations

  /** Stations keep their position, kind, spawn ingredient and cooking duration forever. */
  predicate SameLayout(ss: seq<Station>, ts: seq<Station>)
  {
    |ss| == |ts| && forall i :: 0 <= i < |ss| ==> SameSpot(ss[i], ts[i])
  }

  /** Player `pi` takes one grid step of (dx, dy), clamped to the map; another index changes nothing. */
  function Move(k: State, pi: int, dx: int, dy: int): (r: State)
    ensures |r.players| == |k.players| && r.stations == k.stations && r.orders == k.orders && r.score == k.score
    ensures !(0 <= pi < |k.players|) ==> r == k
    ensures 0 <= pi < |k.players| ==>
              && r.players[pi].held == k.players[pi].held
              && 0 <= r.players[pi].x <= MaxX && 0 <= r.players[pi].y <= MaxY
              && (forall j :: 0 <= j < |k.players| && j != pi ==> r.players[j] == k.players[j])
    ensures 0 <= pi < |k.players| ==>
              var (x, y) := (k.players[pi].x + dx * GridStep, k.players[pi].y + dy * GridStep);
              && (0 <= x <= MaxX ==> r.players[pi].x == x)
              && (x < 0 ==> r.players[pi].x == 0) && (MaxX < x ==> r.players[pi].x == MaxX)
              && (0 <= y <= MaxY ==> r.players[pi].y == y)
              && (y < 0 ==> r.players[pi].y == 0) && (MaxY < y ==> r.players[pi].y == MaxY)
  {
    if 0 <= pi < |k.players| then
      var p := k.players[pi];
      k.(players := k.players[pi := p.(x := Clamp(p.x + dx * GridStep, 0, MaxX),
                                       y := Clamp(p.y + dy * GridStep, 0, MaxY))])
    else k
  }

  /** Python's list index: an index at or past the end means "no player", a negative one counts from the end. */
  function ResolvePlayer(pi: int, n: nat): (r: Option<nat>)
    requires 0 <= n + pi
    ensures r.Some? ==> r.value < n
    ensures r.None? <==> pi >= n
    ensures 0 <= pi < n ==> r == Some(pi)
    ensures pi < 0 ==> r == Some(n + pi)
  {
    if pi >= n then None else if pi >= 0 then Some(pi) else Some(n + pi)
  }

  /** Writes an exchange back into the kitchen. */
  function Put(k: State, p: nat, si: nat, e: Exchange): (r: State)
    requires p < |k.players| && si < |k.stations|
    ensures |r.players| == |k.players|
    ensures SameSpot(k.stations[si], e.station) ==> SameLayout(k.stations, r.stations)
  {
    k.(players := k.players[p := k.players[p].(held := e.held)], stations := k.stations[si := e.station])
  }

  /** The interaction of player `p` with station `si`, by the station's kind. */
  function Handle(k: State, p: nat, si: nat, now: int): (r: State)
    requires p < |k.players| && si < |k.stations|
    ensures |r.players| == |k.players| && SameLayout(k.stations, r.stations)
  {
    var pl := k.players[p];
    var st := k.stations[si];
    match st.kind
    case IngredientSpawn => Put(k, p, si, SpawnRule(pl.held, st))
    case CuttingBoard => Put(k, p, si, BoardRule(pl.held, st))
    case Stove => Put(k, p, si, StoveRule(pl.held, st, now))
    case Assembly => Put(k, p, si, AssemblyRule(pl.held, st))
    case Delivery =>
      var c := DeliveryRule(pl.held, k.orders, k.score);
      k.(players := k.players[p := pl.(held := c.held)], orders := c.orders, score := c.score)
  }

  /** Interaction key: the nearest station in range (any kind) handles the player's hand. */
  function Interact(k: State, pi: int, now: int): (r: State)
    requires 0 <= |k.players| + pi
    ensures |r.players| == |k.players| && SameLayout(k.stations, r.stations)
  {
    match ResolvePlayer(pi, |k.players|)
    case None => k
    case Some(p) =>
      match NearestIn(k.stations, |k.stations|, k.players[p].x, k.players[p].y, false)
      case None => k
      case Some(si) => Handle(k, p, si, now)
  }

  /** Chopping marks a tomato or lettuce as chopped; anything else is left as it is. */
  function ChopItem(it: Item): (r: Item)
    ensures r.kind == it.kind && r.burgerIngredients == it.burgerIngredients
    ensures r.chopped == (it.chopped || Choppable(it.kind))
  {
    if Choppable(it.kind) && !it.chopped then it.(chopped := true) else it
  }

  /** Chop key: the nearest cutting board in range, if it holds an item, chops it. */
  function Chop(k: State, pi: int): (r: State)
    requires 0 <= |k.players| + pi
    ensures r.players == k.players && r.orders == k.orders && r.score == k.score
    ensures SameLayout(k.stations, r.stations)
  {
    match ResolvePlayer(pi, |k.players|)
    case None => k
    case Some(p) =>
      match NearestIn(k.stations, |k.stations|, k.players[p].x, k.players[p].y, true)
      case None => k
      case Some(b) =>
        var st := k.stations[b];
        if st.item.Some? then k.(stations := k.stations[b := st.(item := Some(ChopItem(st.item.value)))])
        else k
  }

  /** One order's countdown: decremented, and dropped once it reaches zero. */
  function Countdown(o: Order, dt: int): (r: seq<Order>)
    ensures r == [] <==> o.timeRemaining - dt <= 0
    ensures r != [] ==> |r| == 1 && r[0].itemsNeeded == o.itemsNeeded && r[0].timeRemaining == o.timeRemaining - dt
  {
    var o' := o.(timeRemaining := o.timeRemaining - dt);
    if o'.timeRemaining <= 0 then [] else [o']
  }

  /** All countdowns, in list order. */
  function Expire(os: seq<Order>, dt: int): (r: seq<Order>)
    ensures |r| <= |os|
  {
    if os == [] then []
    else Expire(os[..|os| - 1], dt) + Countdown(os[|os| - 1], dt)
  }

  /** Adds a burger order when there are fewer than the maximum. */
  function GenerateOrder(os: seq<Order>): (r: seq<Order>)
    ensures |os| < MaxOrders ==> r == os + [Order([Burger], OrderTime)]
    ensures |os| >= MaxOrders ==> r == os
  {
    if |os| < MaxOrders then os + [Order([Burger], OrderTime)] else os
  }

  /** A stove whose raw patty has cooked long enough holds a fresh cooked patty, start reset to 0. */
  function CookStation(s: Station, now: int): (r: Station)
    ensures SameSpot(s, r) && r.contents == s.contents
    ensures r != s <==> s.kind == Stove && s.item.Some? && s.item.value.kind == RawPatty
                        && now - s.cookingStart >= s.cookingDuration
    ensures r != s ==> r.item == Some(NewItem(CookedPatty)) && r.cookingStart == 0
  {
    if s.kind == Stove && s.item.Some? && s.item.value.kind == RawPatty && now - s.cookingStart >= s.cookingDuration
    then s.(item := Some(NewItem(CookedPatty)), cookingStart := 0)
    else s
  }

  function CookAll(ss: seq<Station>, now: int): (r: seq<Station>)
    ensures |r| == |ss| && forall i :: 0 <= i < |ss| ==> r[i] == CookStation(ss[i], now)
  {
    seq(|ss|, i requires 0 <= i < |ss| => CookStation(ss[i], now))
  }

  /** The per-frame update: order countdowns, topping orders up, cooking. */
  function Update(k: State, dt: int, now: int): (r: State)
    ensures r.players == k.players && r.score == k.score
  {
    var live := Expire(k.orders, dt);
    k.(orders := if |live| < MinOrders then GenerateOrder(live) else live,
       stations := CookAll(k.stations, now))
  }

  /** A consistent kitchen: every station holds only what its kind allows, no item records burger ingredients, at most three orders. */
  predicate Valid(k: State)
  {
    && (forall i :: 0 <= i < |k.players| ==> PlainOpt(k.players[i].held))
    && (forall i :: 0 <= i < |k.stations| ==> ValidStation(k.stations[i]))
    && |k.orders| <= MaxOrders
  }

  // ---------------------------------------------------------------- the fixed layout

  function Spawn(x: int, y: int, t: ItemType): Station
  {
    Station(x, y, IngredientSpawn, None, 0, CookingDuration, Some(t), [])
  }

  function Bench(x: int, y: int, kind: StationType): Station
  {
    Station(x, y, kind, None, 0, CookingDuration, None, [])
  }

  /** The kitchen's stations in list order: spawns, boards and stoves, assembly, delivery. */
  const Layout: seq<Station> := [
    Spawn(100, 100, Tomato), Spawn(200, 100, Lettuce), Spawn(300, 100, Bread), Spawn(400, 100, RawPatty),
    Bench(150, 200, CuttingBoard), Bench(250, 200, CuttingBoard), Bench(350, 200, Stove), Bench(450, 200, Stove),
    Bench(250, 300, Assembly), Bench(400, 300, Delivery)
  ]

  const Initial: State := State([Player(100, 100, None)], Layout, GenerateOrder([]), 0)
}
