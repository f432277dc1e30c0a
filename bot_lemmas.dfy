/**
 * Properties of the bot: how it picks stations, how it walks, what its plans contain, and what
 * one tick may do to the kitchen.
 */
module BotLemmas {
  import opened Kitchen
  import opened Bot
  import KitchenLemmas

  // ---------------------------------------------------------------- look-ups

  /** The look-up finds the first matching station, and finds none exactly when none matches. */
  lemma OneSpec(ss: seq<Station>, t: StationType, ing: Option<ItemType>)
    ensures var r := One(ss, t, ing);
            && (r.Some? ==> forall j :: 0 <= j < r.value ==> !Matches(ss[j], t, ing))
            && (r.None? <==> forall j :: 0 <= j < |ss| ==> !Matches(ss[j], t, ing))
  {
    var p := (s: Station) => Matches(s, t, ing);
    assert One(ss, t, ing) == First(ss, p, 0);
  }

  /** A stove holding `it`: the first such, and none exactly when no stove holds it. */
  lemma StoveWithSpec(ss: seq<Station>, it: ItemType)
    ensures var r := StoveWith(ss, it);
            && (r.Some? ==> forall j :: 0 <= j < r.value ==>
                  !(ss[j].kind == Stove && ss[j].item.Some? && ss[j].item.value.kind == it))
            && (r.None? <==> forall j :: 0 <= j < |ss| ==>
                  !(ss[j].kind == Stove && ss[j].item.Some? && ss[j].item.value.kind == it))
  {
    var p := (s: Station) => s.kind == Stove && s.item.Some? && s.item.value.kind == it;
    assert StoveWith(ss, it) == First(ss, p, 0);
  }

  /** A board holding `it` as asked: the first such, and none exactly when no board holds it. */
  lemma BoardWithSpec(ss: seq<Station>, it: ItemType, chopped: bool)
    ensures var r := BoardWith(ss, it, chopped);
            && (r.Some? ==> forall j :: 0 <= j < r.value ==>
                  !(ss[j].kind == CuttingBoard && ss[j].item.Some? && ss[j].item.value.kind == it
                    && ss[j].item.value.chopped == chopped))
            && (r.None? <==> forall j :: 0 <= j < |ss| ==>
                  !(ss[j].kind == CuttingBoard && ss[j].item.Some? && ss[j].item.value.kind == it
                    && ss[j].item.value.chopped == chopped))
  {
    var p := (s: Station) => s.kind == CuttingBoard && s.item.Some? && s.item.value.kind == it
                             && s.item.value.chopped == chopped;
    assert BoardWith(ss, it, chopped) == First(ss, p, 0);
  }

  /**
   * A free station of the kind is preferred, the first free one; only when none is free is the
   * first station of the kind taken; none is found exactly when there is no station of the kind.
   */
  lemma {:induction false} FreeOfKindPrefersFree(ss: seq<Station>, t: StationType)
    ensures (exists j :: 0 <= j < |ss| && ss[j].kind == t && ss[j].item.None?) ==>
              && FreeOfKind(ss, t).Some? && ss[FreeOfKind(ss, t).value].item.None?
              && forall j :: 0 <= j < FreeOfKind(ss, t).value ==> !(ss[j].kind == t && ss[j].item.None?)
    ensures (forall j :: 0 <= j < |ss| ==> !(ss[j].kind == t && ss[j].item.None?)) ==>
              FreeOfKind(ss, t) == One(ss, t, None)
    ensures FreeOfKind(ss, t).None? <==> forall j :: 0 <= j < |ss| ==> ss[j].kind != t
  {
    var free := First(ss, (s: Station) => s.kind == t && s.item.None?, 0);
    OneSpec(ss, t, None);
    if free.Some? {
      assert FreeOfKind(ss, t) == free;
    }
  }

  // ---------------------------------------------------------------- walking

  /** A point on the walking grid of the map. */
  predicate OnGrid(x: int, y: int)
  {
    x % GridStep == 0 && y % GridStep == 0 && 0 <= x <= MaxX && 0 <= y <= MaxY
  }

  function Dist(px: int, py: int, tx: int, ty: int): int
  {
    Abs(px - tx) + Abs(py - ty)
  }

  /** A station on the grid has its anchor on the grid, and the anchor counts as arrived. */
  lemma AnchorOnGrid(s: Station)
    requires OnGrid(s.x, s.y)
    ensures OnGrid(Anchor(s).0, Anchor(s).1)
    ensures Near(Anchor(s).0, Anchor(s).1, s)
  {
  }

  /** Two grid coordinates are equal or a whole grid step apart. */
  lemma GridGap(u: int, v: int)
    requires u % GridStep == 0 && v % GridStep == 0
    ensures u < v ==> u + GridStep <= v
  {
    var a, b := u / GridStep, v / GridStep;
    assert u == GridStep * a && v == GridStep * b;
  }

  /** On the grid, being near a station's anchor means standing on it. */
  lemma {:induction false} NearIsAtAnchor(px: int, py: int, s: Station)
    requires OnGrid(px, py) && OnGrid(s.x, s.y)
    ensures Near(px, py, s) <==> (px, py) == Anchor(s)
  {
    var (ax, ay) := Anchor(s);
    AnchorOnGrid(s);
    GridGap(px, ax);
    GridGap(ax, px);
    GridGap(py, ay);
    GridGap(ay, py);
  }

  /**
   * Each move the bot makes from the grid towards a target on the grid stays on the grid and
   * brings it one grid step closer.
   */
  lemma {:induction false} ApproachProgress(k: State, pi: nat, tx: int, ty: int)
    requires pi < |k.players| && OnGrid(k.players[pi].x, k.players[pi].y) && OnGrid(tx, ty)
    requires (k.players[pi].x, k.players[pi].y) != (tx, ty)
    ensures var p := MoveTowards(k, pi, tx, ty).players[pi];
            && OnGrid(p.x, p.y)
            && Dist(p.x, p.y, tx, ty) == Dist(k.players[pi].x, k.players[pi].y, tx, ty) - GridStep
  {
    var px, py := k.players[pi].x, k.players[pi].y;
    GridGap(px, tx);
    GridGap(tx, px);
    GridGap(py, ty);
    GridGap(ty, py);
    var p := MoveTowards(k, pi, tx, ty).players[pi];
    if px < tx {
      assert p.x == px + GridStep && p.y == py;
    } else if px > tx {
      assert p.x == px - GridStep && p.y == py;
    } else if py < ty {
      assert p.x == px && p.y == py + GridStep;
    } else {
      assert p.x == px && p.y == py - GridStep;
    }
  }

  /** Every station of the starting kitchen sits on the grid. */
  lemma LayoutOnGrid()
    ensures forall i :: 0 <= i < |Layout| ==> OnGrid(Layout[i].x, Layout[i].y)
  {
  }

  // ---------------------------------------------------------------- plans

  /** Every station that queue `q` names satisfies `ok`. */
  predicate Targets(q: seq<Entry>, ss: seq<Station>, ok: Station -> bool)
  {
    forall j :: 0 <= j < |q| && q[j].station.Some? && q[j].station.value < |ss| ==> ok(ss[q[j].station.value])
  }

  lemma TargetsAppend(a: seq<Entry>, b: seq<Entry>, ss: seq<Station>, ok: Station -> bool)
    requires Targets(a, ss, ok) && Targets(b, ss, ok)
    ensures Targets(a + b, ss, ok)
  {
    forall j | 0 <= j < |a + b| && (a + b)[j].station.Some? && (a + b)[j].station.value < |ss|
      ensures ok(ss[(a + b)[j].station.value])
    {
      if j >= |a| { assert (a + b)[j] == b[j - |a|]; }
    }
  }

  /** The stations a visit names: the one visited. */
  lemma VisitTargets(st: Option<nat>, now: int, ss: seq<Station>, ok: Station -> bool)
    requires st.Some? && st.value < |ss| ==> ok(ss[st.value])
    ensures Targets(Visit(st, now), ss, ok) && Targets(VisitIf(st, now), ss, ok)
    ensures Targets(Gapped(GoTo, st, now), ss, ok) && Targets(WaitFor(StepGap, now), ss, ok)
  {
    var q := Visit(st, now);
    assert q == [Entry(GoTo, st, 0), Entry(Wait, None, now + StepGap), Entry(InteractAt, st, 0),
                 Entry(Wait, None, now + StepGap)];
  }

  lemma TwoVisitsTarget(s1: Option<nat>, s2: Option<nat>, now: int, ss: seq<Station>, ok: Station -> bool)
    requires s1.Some? && s1.value < |ss| ==> ok(ss[s1.value])
    requires s2.Some? && s2.value < |ss| ==> ok(ss[s2.value])
    ensures Targets(Visit(s1, now) + Visit(s2, now), ss, ok)
  {
    VisitTargets(s1, now, ss, ok);
    VisitTargets(s2, now, ss, ok);
    TargetsAppend(Visit(s1, now), Visit(s2, now), ss, ok);
  }

  /** With a full hand the bot goes nowhere it could pick up a new ingredient. */
  predicate NoSpawn(s: Station) { s.kind != IngredientSpawn }

  /** What a plan section offers a full hand: use the assembly, drop the item, or wait. */
  predicate Unloads(q: seq<Entry>, ss: seq<Station>, a: nat, now: int)
  {
    || q == Visit(Some(a), now)
    || q == DropToBoard(ss, now)
    || q == DropToStove(ss, now)
    || q == WaitFor(StepGap, now)
  }

  lemma BreadUnloads(ss: seq<Station>, h: Option<Item>, a: nat, now: int)
    requires a < |ss| && h.Some?
    ensures PlanBread(ss, h, a, now).Some? ==> Unloads(PlanBread(ss, h, a, now).value, ss, a, now)
  {
  }

  lemma PattyUnloads(ss: seq<Station>, h: Option<Item>, a: nat, now: int)
    requires a < |ss| && h.Some?
    ensures PlanPatty(ss, h, a, now).Some? ==> Unloads(PlanPatty(ss, h, a, now).value, ss, a, now)
  {
  }

  lemma VegUnloads(ss: seq<Station>, h: Option<Item>, a: nat, veg: ItemType, other: ItemType, now: int)
    requires a < |ss| && h.Some?
    ensures PlanVeg(ss, h, a, veg, other, now).Some? ==> Unloads(PlanVeg(ss, h, a, veg, other, now).value, ss, a, now)
  {
  }

  /** Whatever recipe section applies to a full hand only unloads it. */
  lemma RecipeUnloads(ss: seq<Station>, h: Option<Item>, a: nat, now: int)
    requires a < |ss| && h.Some?
    ensures Unloads(Recipe(ss, h, a, now), ss, a, now)
  {
    BreadUnloads(ss, h, a, now);
    PattyUnloads(ss, h, a, now);
    VegUnloads(ss, h, a, Tomato, Lettuce, now);
    VegUnloads(ss, h, a, Lettuce, Tomato, now);
  }

  /** Unloading a full hand sends the bot to the assembly, a board or a stove, never to a spawn. */
  lemma UnloadsNoSpawn(q: seq<Entry>, ss: seq<Station>, a: nat, now: int)
    requires a < |ss| && ss[a].kind == Assembly && Unloads(q, ss, a, now)
    ensures Targets(q, ss, NoSpawn)
  {
    VisitTargets(Some(a), now, ss, NoSpawn);
    VisitTargets(FreeOfKind(ss, CuttingBoard), now, ss, NoSpawn);
    VisitTargets(FreeOfKind(ss, Stove), now, ss, NoSpawn);
  }

  /** With a full hand the bot plans no trip to an ingredient spawn: it never picks up a second item. */
  lemma {:induction false} PlanFullHandNoSpawn(k: State, pi: nat, now: int)
    requires pi < |k.players| && AssemblyOf(k.stations).Some? && k.players[pi].held.Some?
    ensures Targets(Plan(k, pi, now), k.stations, NoSpawn)
  {
    var ss := k.stations;
    var h := k.players[pi].held;
    var a := AssemblyOf(ss).value;
    var d := DeliveryOf(ss);
    var r := Plan(k, pi, now);
    if HeldKind(h, Burger) || BurgerOn(ss[a]) {
      assert r == Visit(d, now) by {
        assert [] + Visit(d, now) == Visit(d, now);
      }
      VisitTargets(d, now, ss, NoSpawn);
    } else {
      assert r == Recipe(ss, h, a, now);
      RecipeUnloads(ss, h, a, now);
      UnloadsNoSpawn(r, ss, a, now);
    }
  }

  /** Holding a burger, the bot heads for the delivery counter and nowhere else. */
  predicate IsDelivery(s: Station) { s.kind == Delivery }

  lemma PlanDeliversHeldBurger(k: State, pi: nat, now: int)
    requires pi < |k.players| && AssemblyOf(k.stations).Some?
    requires k.players[pi].held.Some? && k.players[pi].held.value.kind == Burger
    ensures Targets(Plan(k, pi, now), k.stations, IsDelivery)
    ensures |Plan(k, pi, now)| == 4 && Plan(k, pi, now)[2].step == InteractAt
    ensures Plan(k, pi, now)[2].station == DeliveryOf(k.stations)
    ensures Plan(k, pi, now) == Visit(DeliveryOf(k.stations), now)
  {
    VisitTargets(DeliveryOf(k.stations), now, k.stations, IsDelivery);
  }

  /** The next ingredient the assembly needs: bread, a cooked patty, chopped tomato, chopped lettuce. */
  function NextNeed(c: seq<Item>): Option<ItemType>
  {
    if !HasKind(c, Bread) then Some(Bread)
    else if !HasKind(c, CookedPatty) then Some(CookedPatty)
    else if !HasChopped(c, Tomato) then Some(Tomato)
    else if !HasChopped(c, Lettuce) then Some(Lettuce)
    else None
  }

  /** A station that helps with `need`: the assembly itself, or where that ingredient is made ready. */
  predicate Serves(s: Station, need: Option<ItemType>)
  {
    || s.kind == Assembly
    || (need == Some(Bread) && s.kind == IngredientSpawn && s.ingredient == Some(Bread))
    || (need == Some(CookedPatty) && (s.kind == Stove || (s.kind == IngredientSpawn && s.ingredient == Some(RawPatty))))
    || (need == Some(Tomato) && (s.kind == CuttingBoard || (s.kind == IngredientSpawn && s.ingredient == Some(Tomato))))
    || (need == Some(Lettuce) && (s.kind == CuttingBoard || (s.kind == IngredientSpawn && s.ingredient == Some(Lettuce))))
  }

  /**
   * The plan follows the recipe: with empty hands and no finished burger, every station it names
   * is the assembly or one that produces the first ingredient the assembly still lacks.
   */
  lemma {:induction false} PlanFollowsRecipe(k: State, pi: nat, now: int)
    requires pi < |k.players| && AssemblyOf(k.stations).Some? && k.players[pi].held.None?
    requires !BurgerOn(k.stations[AssemblyOf(k.stations).value])
    ensures var need := NextNeed(k.stations[AssemblyOf(k.stations).value].contents);
            Targets(Plan(k, pi, now), k.stations, (s: Station) => Serves(s, need))
  {
    var ss := k.stations;
    var a := AssemblyOf(ss).value;
    var need := NextNeed(ss[a].contents);
    var ok := (s: Station) => Serves(s, need);
    var h: Option<Item> := None;
    assert ok(ss[a]);
    var r := Plan(k, pi, now);
    if need == Some(Bread) {
      TwoVisitsTarget(One(ss, IngredientSpawn, Some(Bread)), Some(a), now, ss, ok);
      assert r == Visit(One(ss, IngredientSpawn, Some(Bread)), now) + Visit(Some(a), now);
    } else if need == Some(CookedPatty) {
      PattyTargets(ss, a, now);
      assert r == FetchPatty(ss, a, now);
    } else if need == Some(Tomato) {
      VegTargets(ss, a, Tomato, now);
      assert r == FetchVeg(ss, a, Tomato, now);
    } else if need == Some(Lettuce) {
      VegTargets(ss, a, Lettuce, now);
      assert PlanVeg(ss, h, a, Tomato, Lettuce, now).None?;
      assert r == FetchVeg(ss, a, Lettuce, now);
    } else {
      VisitTargets(Some(a), now, ss, ok);
      TargetsAppend(Gapped(GoTo, Some(a), now), WaitFor(StepGap, now), ss, ok);
      assert r == Gapped(GoTo, Some(a), now) + WaitFor(StepGap, now);
    }
  }

  /**
   * With empty hands and no finished burger, the plan works on the first missing ingredient:
   * bread is fetched from its spawn and put on the assembly; a cooked patty is taken from a stove,
   * else the bot waits by a stove where one is cooking, else it puts a raw patty on a free stove;
   * a chopped vegetable is taken from a board, else fetched fresh and chopped; with nothing
   * missing the bot stands at the assembly and waits.
   */
  lemma {:induction false} PlanWorksOnNeed(k: State, pi: nat, now: int)
    requires pi < |k.players| && AssemblyOf(k.stations).Some? && k.players[pi].held.None?
    requires !BurgerOn(k.stations[AssemblyOf(k.stations).value])
    ensures var ss := k.stations;
            var a := AssemblyOf(ss).value;
            var need := NextNeed(ss[a].contents);
            var q := Plan(k, pi, now);
            && (need == Some(Bread) ==> q == Visit(One(ss, IngredientSpawn, Some(Bread)), now) + Visit(Some(a), now))
            && (need == Some(CookedPatty) ==>
                  var cooked := StoveWith(ss, CookedPatty);
                  var raw := StoveWith(ss, RawPatty);
                  var spawn := One(ss, IngredientSpawn, Some(RawPatty));
                  var stove := FreeOfKind(ss, Stove);
                  if cooked.Some? then q == Visit(cooked, now) + Visit(Some(a), now)
                  else if raw.Some? && ss[raw.value].cookingStart > 0 then
                    q == Gapped(GoTo, raw, now) + WaitFor(CookWait(ss[raw.value], now), now)
                  else if spawn.Some? && stove.Some? then q == Visit(spawn, now) + Visit(stove, now)
                  else q == [])
            && ((need == Some(Tomato) || need == Some(Lettuce)) ==>
                  var ready := BoardWith(ss, need.value, true);
                  var spawn := One(ss, IngredientSpawn, need);
                  var board := FreeOfKind(ss, CuttingBoard);
                  if ready.Some? then q == Visit(ready, now) + Visit(Some(a), now)
                  else if spawn.Some? && board.Some? then q == FreshVeg(spawn, board, Some(a), now)
                  else q == [])
            && (need.None? ==> q == Gapped(GoTo, Some(a), now) + WaitFor(StepGap, now))
  {
    var ss := k.stations;
    var a := AssemblyOf(ss).value;
    var h: Option<Item> := None;
    var need := NextNeed(ss[a].contents);
    var q := Plan(k, pi, now);
    assert q == Recipe(ss, h, a, now);
    if need == Some(CookedPatty) {
      assert q == FetchPatty(ss, a, now);
    } else if need == Some(Tomato) {
      assert q == FetchVeg(ss, a, Tomato, now);
    } else if need == Some(Lettuce) {
      assert PlanVeg(ss, h, a, Tomato, Lettuce, now).None?;
      assert q == FetchVeg(ss, a, Lettuce, now);
    }
  }

  /** The held item is the ready form of `need`: that kind, and chopped when it is a vegetable. */
  predicate HeldReady(h: Option<Item>, need: Option<ItemType>)
  {
    h.Some? && need.Some? && h.value.kind == need.value && (Choppable(need.value) ==> h.value.chopped)
  }

  /**
   * Holding the ingredient the assembly needs next, ready to stack, the bot takes it straight to
   * the assembly; with nothing missing, whatever it holds other than a burger goes there too.
   */
  lemma {:induction false} PlanBringsNeeded(k: State, pi: nat, now: int)
    requires pi < |k.players| && AssemblyOf(k.stations).Some?
    requires !BurgerOn(k.stations[AssemblyOf(k.stations).value])
    ensures var a := AssemblyOf(k.stations).value;
            var need := NextNeed(k.stations[a].contents);
            var h := k.players[pi].held;
            && (HeldReady(h, need) ==> Plan(k, pi, now) == Visit(Some(a), now))
            && (need.None? && h.Some? && h.value.kind != Burger ==> Plan(k, pi, now) == Visit(Some(a), now))
  {
    var ss := k.stations;
    var a := AssemblyOf(ss).value;
    var h := k.players[pi].held;
    var need := NextNeed(ss[a].contents);
    if HeldReady(h, need) || (need.None? && h.Some? && h.value.kind != Burger) {
      assert !HeldKind(h, Burger);
      assert Plan(k, pi, now) == Recipe(ss, h, a, now);
      if need == Some(Lettuce) {
        assert PlanVeg(ss, h, a, Tomato, Lettuce, now).None?;
      }
    }
  }

  lemma {:induction false} PattyTargets(ss: seq<Station>, a: nat, now: int)
    requires a < |ss| && ss[a].kind == Assembly
    ensures Targets(FetchPatty(ss, a, now), ss, (s: Station) => Serves(s, Some(CookedPatty)))
  {
    var ok := (s: Station) => Serves(s, Some(CookedPatty));
    var cooked := StoveWith(ss, CookedPatty);
    var raw := StoveWith(ss, RawPatty);
    TwoVisitsTarget(cooked, Some(a), now, ss, ok);
    VisitTargets(raw, now, ss, ok);
    if raw.Some? {
      var w := WaitFor(CookWait(ss[raw.value], now), now);
      assert Targets(w, ss, ok);
      TargetsAppend(Gapped(GoTo, raw, now), w, ss, ok);
    }
    TwoVisitsTarget(One(ss, IngredientSpawn, Some(RawPatty)), FreeOfKind(ss, Stove), now, ss, ok);
  }

  /** A step at a station followed by the pause. */
  lemma GappedTargets(step: Step, st: Option<nat>, now: int, ss: seq<Station>, ok: Station -> bool)
    requires st.Some? && st.value < |ss| ==> ok(ss[st.value])
    ensures Targets(Gapped(step, st, now), ss, ok)
  {
    var q := Gapped(step, st, now);
    assert q[0].station.Some? ==> q[0].station == st;
  }

  /** A fresh vegetable goes only to its spawn, the board and the assembly. */
  lemma FreshVegTargets(spawn: Option<nat>, board: Option<nat>, a: nat, now: int, ss: seq<Station>,
                        ok: Station -> bool)
    requires spawn.Some? && spawn.value < |ss| ==> ok(ss[spawn.value])
    requires board.Some? && board.value < |ss| ==> ok(ss[board.value])
    requires a < |ss| && ok(ss[a])
    ensures Targets(FreshVeg(spawn, board, Some(a), now), ss, ok)
  {
    var q1 := Visit(spawn, now) + Visit(board, now);
    TwoVisitsTarget(spawn, board, now, ss, ok);
    GappedTargets(ChopAt, board, now, ss, ok);
    TargetsAppend(q1, Gapped(ChopAt, board, now), ss, ok);
    var q2 := q1 + Gapped(ChopAt, board, now);
    GappedTargets(InteractAt, board, now, ss, ok);
    TargetsAppend(q2, Gapped(InteractAt, board, now), ss, ok);
    var q3 := q2 + Gapped(InteractAt, board, now);
    VisitTargets(Some(a), now, ss, ok);
    TargetsAppend(q3, Visit(Some(a), now), ss, ok);
  }

  lemma {:induction false} VegTargets(ss: seq<Station>, a: nat, veg: ItemType, now: int)
    requires a < |ss| && ss[a].kind == Assembly && (veg == Tomato || veg == Lettuce)
    ensures Targets(FetchVeg(ss, a, veg, now), ss, (s: Station) => Serves(s, Some(veg)))
  {
    var ok := (s: Station) => Serves(s, Some(veg));
    var ready := BoardWith(ss, veg, true);
    if ready.Some? {
      TwoVisitsTarget(ready, Some(a), now, ss, ok);
    } else {
      var spawn := One(ss, IngredientSpawn, Some(veg));
      var board := FreeOfKind(ss, CuttingBoard);
      if spawn.Some? && board.Some? {
        FreshVegTargets(spawn, board, a, now, ss, ok);
      }
    }
  }

  /** A burger waiting on the assembly: fetch it if the hands are free, then deliver it. */
  lemma PlanFetchesReadyBurger(k: State, pi: nat, now: int)
    requires pi < |k.players| && AssemblyOf(k.stations).Some?
    requires !HeldKind(k.players[pi].held, Burger) && BurgerOn(k.stations[AssemblyOf(k.stations).value])
    ensures var a := AssemblyOf(k.stations);
            var d := DeliveryOf(k.stations);
            && (k.players[pi].held.None? ==> Plan(k, pi, now) == Visit(a, now) + Visit(d, now))
            && (k.players[pi].held.Some? ==> Plan(k, pi, now) == Visit(d, now))
  {
    assert [] + Visit(DeliveryOf(k.stations), now) == Visit(DeliveryOf(k.stations), now);
  }

  /** No step of the queue is a chop. */
  predicate NoChop(q: seq<Entry>)
  {
    forall j :: 0 <= j < |q| ==> q[j].step != ChopAt
  }

  lemma NoChopAppend(a: seq<Entry>, b: seq<Entry>)
    requires NoChop(a) && NoChop(b)
    ensures NoChop(a + b)
  {
    forall j | 0 <= j < |a + b| ensures (a + b)[j].step != ChopAt {
      if j >= |a| { assert (a + b)[j] == b[j - |a|]; }
    }
  }

  /** Visits, waits and walks are chop-free. */
  lemma NoChopVisits(s1: Option<nat>, s2: Option<nat>, ms: int, now: int)
    ensures NoChop(Visit(s1, now)) && NoChop(VisitIf(s1, now)) && NoChop(Visit(s1, now) + Visit(s2, now))
    ensures NoChop(WaitFor(ms, now)) && NoChop(Gapped(GoTo, s1, now) + WaitFor(ms, now))
  {
    assert Visit(s1, now) == [Entry(GoTo, s1, 0), Entry(Wait, None, now + StepGap), Entry(InteractAt, s1, 0),
                              Entry(Wait, None, now + StepGap)];
    assert Visit(s2, now) == [Entry(GoTo, s2, 0), Entry(Wait, None, now + StepGap), Entry(InteractAt, s2, 0),
                              Entry(Wait, None, now + StepGap)];
    NoChopAppend(Visit(s1, now), Visit(s2, now));
    assert Gapped(GoTo, s1, now) + WaitFor(ms, now)
        == [Entry(GoTo, s1, 0), Entry(Wait, None, now + StepGap), Entry(Wait, None, now + ms)];
  }

  lemma UnloadsNoChop(q: seq<Entry>, ss: seq<Station>, a: nat, now: int)
    requires Unloads(q, ss, a, now)
    ensures NoChop(q)
  {
    NoChopVisits(Some(a), None, StepGap, now);
    NoChopVisits(FreeOfKind(ss, CuttingBoard), None, StepGap, now);
    NoChopVisits(FreeOfKind(ss, Stove), None, StepGap, now);
  }

  lemma FetchPattyNoChop(ss: seq<Station>, a: nat, now: int)
    requires a < |ss|
    ensures NoChop(FetchPatty(ss, a, now))
  {
    var raw := StoveWith(ss, RawPatty);
    NoChopVisits(StoveWith(ss, CookedPatty), Some(a), StepGap, now);
    NoChopVisits(One(ss, IngredientSpawn, Some(RawPatty)), FreeOfKind(ss, Stove), StepGap, now);
    if raw.Some? {
      NoChopVisits(raw, None, CookWait(ss[raw.value], now), now);
    }
  }

  /** The fresh-vegetable trip: spawn, board (drop, chop, take back), assembly, each step followed by the pause. */
  lemma FreshVegSteps(spawn: Option<nat>, board: Option<nat>, a: Option<nat>, now: int)
    ensures var w := Entry(Wait, None, now + StepGap);
            FreshVeg(spawn, board, a, now)
            == [Entry(GoTo, spawn, 0), w, Entry(InteractAt, spawn, 0), w,
                Entry(GoTo, board, 0), w, Entry(InteractAt, board, 0), w,
                Entry(ChopAt, board, 0), w, Entry(InteractAt, board, 0), w,
                Entry(GoTo, a, 0), w, Entry(InteractAt, a, 0), w]
  {
  }

  /** A vegetable fetch chops only on the fresh trip from that vegetable's spawn to the first free board. */
  lemma FetchVegChops(ss: seq<Station>, a: nat, veg: ItemType, now: int)
    requires a < |ss|
    ensures var q := FetchVeg(ss, a, veg, now);
            !NoChop(q) ==>
              var spawn := One(ss, IngredientSpawn, Some(veg));
              var board := FreeOfKind(ss, CuttingBoard);
              spawn.Some? && board.Some? && q == FreshVeg(spawn, board, Some(a), now)
  {
    NoChopVisits(BoardWith(ss, veg, true), Some(a), StepGap, now);
  }

  /**
   * A chop is only ever planned with empty hands, for the chopped vegetable the assembly lacks
   * next, as the fresh trip from that vegetable's spawn to the first free board and on to the
   * assembly; every other plan holds no chop.
   */
  lemma {:induction false} PlanChopsOnlyFresh(k: State, pi: nat, now: int)
    requires pi < |k.players| && AssemblyOf(k.stations).Some?
    ensures var ss := k.stations;
            var a := AssemblyOf(ss).value;
            var need := NextNeed(ss[a].contents);
            var q := Plan(k, pi, now);
            !NoChop(q) ==>
              && k.players[pi].held.None?
              && (need == Some(Tomato) || need == Some(Lettuce))
              && One(ss, IngredientSpawn, need).Some? && FreeOfKind(ss, CuttingBoard).Some?
              && q == FreshVeg(One(ss, IngredientSpawn, need), FreeOfKind(ss, CuttingBoard), Some(a), now)
  {
    var ss := k.stations;
    var h := k.players[pi].held;
    var a := AssemblyOf(ss).value;
    var d := DeliveryOf(ss);
    var q := Plan(k, pi, now);
    var need := NextNeed(ss[a].contents);
    if HeldKind(h, Burger) || BurgerOn(ss[a]) {
      NoChopVisits(Some(a), d, StepGap, now);
      NoChopVisits(d, None, StepGap, now);
      assert [] + Visit(d, now) == Visit(d, now);
    } else if h.Some? {
      assert q == Recipe(ss, h, a, now);
      RecipeUnloads(ss, h, a, now);
      UnloadsNoChop(q, ss, a, now);
    } else {
      assert q == Recipe(ss, h, a, now);
      if need == Some(Bread) {
        NoChopVisits(One(ss, IngredientSpawn, Some(Bread)), Some(a), StepGap, now);
      } else if need == Some(CookedPatty) {
        FetchPattyNoChop(ss, a, now);
      } else if need == Some(Tomato) {
        FetchVegChops(ss, a, Tomato, now);
      } else if need == Some(Lettuce) {
        assert PlanVeg(ss, h, a, Tomato, Lettuce, now).None?;
        FetchVegChops(ss, a, Lettuce, now);
      } else {
        NoChopVisits(Some(a), None, StepGap, now);
      }
    }
  }

  /** In the starting kitchen the first plan fetches bread from its spawn and puts it on the assembly. */
  lemma InitialPlanFetchesBread(now: int)
    ensures AssemblyOf(Initial.stations) == Some(8)
    ensures Plan(Initial, 0, now) == Visit(Some(2), now) + Visit(Some(8), now)
  {
    assert Initial.stations[8].contents == [];
    assert One(Layout, IngredientSpawn, Some(Bread)) == Some(2);
  }

  // ---------------------------------------------------------------- ticks

  /** Without an assembly and a delivery counter, or during the pause, a tick does nothing. */
  lemma TickIdle(b: BotState, k: State, pi: nat, now: int)
    requires pi < |k.players| && QueueFits(b.queue, |k.stations|)
    requires AssemblyOf(k.stations).None? || DeliveryOf(k.stations).None? || now < b.gapUntil
    ensures Tick(b, k, pi, now) == Outcome(b, k)
  {
  }

  /**
   * A wait at the head of the queue only ever touches the bot: it leaves the queue once its
   * deadline has come, starting the pause, and otherwise the tick changes nothing.
   */
  lemma TickWaitGate(b: BotState, k: State, pi: nat, now: int)
    requires pi < |k.players| && QueueFits(b.queue, |k.stations|)
    requires AssemblyOf(k.stations).Some? && DeliveryOf(k.stations).Some? && b.gapUntil <= now
    requires b.queue != [] && b.queue[0].step == Wait
    ensures Tick(b, k, pi, now) ==
              if now >= b.queue[0].deadline then Outcome(b.(queue := b.queue[1..], gapUntil := now + StepGap), k)
              else Outcome(b, k)
  {
  }

  /** The kitchen after at most one key press of player `pi`: a grid step, an interaction or a chop. */
  ghost predicate OneCommand(k: State, k2: State, pi: nat, now: int)
    requires pi < |k.players|
  {
    || k2 == k
    || k2 == Interact(k, pi, now)
    || k2 == Chop(k, pi)
    || exists dx, dy :: Abs(dx) + Abs(dy) == 1 && k2 == Move(k, pi, dx, dy)
  }

  lemma {:induction false} RunOneCommand(b: BotState, k: State, pi: nat, now: int)
    requires pi < |k.players| && QueueFits(b.queue, |k.stations|)
    ensures OneCommand(k, Run(b, k, pi, now).kitchen, pi, now)
  {
    if b.queue != [] {
      var e := b.queue[0];
      var p := k.players[pi];
      if e.step != Wait && e.station.Some? && !Near(p.x, p.y, k.stations[e.station.value]) {
        var anchor := Anchor(k.stations[e.station.value]);
        var d := Direction(p.x, p.y, anchor.0, anchor.1);
        if d.0 != 0 || d.1 != 0 {
          assert Abs(d.0) + Abs(d.1) == 1 && Run(b, k, pi, now).kitchen == Move(k, pi, d.0, d.1);
        }
      }
    }
  }

  /** A tick presses at most one key: it moves the player one grid step, interacts, chops, or nothing. */
  lemma {:induction false} TickOneCommand(b: BotState, k: State, pi: nat, now: int)
    requires pi < |k.players| && QueueFits(b.queue, |k.stations|)
    ensures OneCommand(k, Tick(b, k, pi, now).kitchen, pi, now)
  {
    if !(AssemblyOf(k.stations).None? || DeliveryOf(k.stations).None? || now < b.gapUntil) {
      PlanSound(k, pi, now);
      RunOneCommand(b.(queue := if b.queue == [] then Plan(k, pi, now) else b.queue), k, pi, now);
    }
  }

  /** The assembly look-up only depends on the layout. */
  lemma AssemblySameLayout(ss: seq<Station>, ts: seq<Station>)
    requires SameLayout(ss, ts)
    ensures AssemblyOf(ss) == AssemblyOf(ts)
  {
    assert forall j :: 0 <= j < |ss| ==> (Matches(ss[j], Assembly, None) <==> Matches(ts[j], Assembly, None));
  }

  lemma VisitFitsAll(st: Option<nat>, now: int, n: nat)
    requires Fits(st, n)
    ensures QueueFits(Visit(st, now), n)
  {
    var q := Visit(st, now);
    assert q == [Entry(GoTo, st, 0), Entry(Wait, None, now + StepGap), Entry(InteractAt, st, 0),
                 Entry(Wait, None, now + StepGap)];
  }

  /** Working on the queue keeps the kitchen consistent, its layout, and a queue naming its stations. */
  lemma {:induction false} RunKeeps(b: BotState, k: State, pi: nat, now: int)
    requires pi < |k.players| && QueueFits(b.queue, |k.stations|)
    ensures var r := Run(b, k, pi, now);
            && |r.kitchen.players| == |k.players| && SameLayout(k.stations, r.kitchen.stations)
            && QueueFits(r.bot.queue, |r.kitchen.stations|)
            && (Valid(k) ==> Valid(r.kitchen))
            && (r.kitchen != k ==> r.bot.gapUntil == now + StepGap)
  {
    var r := Run(b, k, pi, now);
    var ss := k.stations;
    assert SameLayout(ss, ss);
    if b.queue != [] {
      var e := b.queue[0];
      var p := k.players[pi];
      assert QueueFits(b.queue[1..], |ss|);
      if e.step == Wait {
      } else if e.station.Some? && !Near(p.x, p.y, ss[e.station.value]) {
        var anchor := Anchor(ss[e.station.value]);
        var d := Direction(p.x, p.y, anchor.0, anchor.1);
        if Valid(k) { KitchenLemmas.MovePreservesValid(k, pi, d.0, d.1); }
      } else if r != Outcome(b, k) && e.step == InteractAt {
        var k' := Interact(k, pi, now);
        if Valid(k) { KitchenLemmas.InteractPreservesValid(k, pi, now); }
        AssemblySameLayout(ss, k'.stations);
        VisitFitsAll(AssemblyOf(k'.stations), now, |ss|);
      } else if r != Outcome(b, k) && e.step == ChopAt {
        if Valid(k) { KitchenLemmas.ChopPreservesValid(k, pi); }
      }
    }
  }

  /** A tick keeps the kitchen consistent, its layout, and a queue that names only its stations. */
  lemma {:induction false} TickKeeps(b: BotState, k: State, pi: nat, now: int)
    requires pi < |k.players| && QueueFits(b.queue, |k.stations|)
    ensures var r := Tick(b, k, pi, now);
            && |r.kitchen.players| == |k.players| && SameLayout(k.stations, r.kitchen.stations)
            && QueueFits(r.bot.queue, |r.kitchen.stations|)
            && (Valid(k) ==> Valid(r.kitchen))
            && (r.kitchen != k ==> r.bot.gapUntil == now + StepGap)
  {
    assert SameLayout(k.stations, k.stations);
    if !(AssemblyOf(k.stations).None? || DeliveryOf(k.stations).None? || now < b.gapUntil) {
      PlanSound(k, pi, now);
      RunKeeps(b.(queue := if b.queue == [] then Plan(k, pi, now) else b.queue), k, pi, now);
    }
  }

  /**
   * Whatever a tick does to the kitchen starts the pause: every tick before the pause is over
   * changes nothing, so the bot acts at most once every `StepGap` milliseconds.
   */
  lemma {:induction false} TickRateLimit(b: BotState, k: State, pi: nat, now: int, later: int)
    requires pi < |k.players| && QueueFits(b.queue, |k.stations|)
    requires Tick(b, k, pi, now).kitchen != k
    requires now <= later < now + StepGap
    ensures var r := Tick(b, k, pi, now);
            && r.bot.gapUntil == now + StepGap
            && pi < |r.kitchen.players| && QueueFits(r.bot.queue, |r.kitchen.stations|)
            && Tick(r.bot, r.kitchen, pi, later) == r
  {
    TickKeeps(b, k, pi, now);
  }

  lemma RunQueue(b: BotState, k: State, pi: nat, now: int)
    requires pi < |k.players| && QueueFits(b.queue, |k.stations|)
    ensures var r := Run(b, k, pi, now).bot;
            || r.queue == b.queue
            || (b.queue != [] && r.queue == b.queue[1..])
            || (b.queue != [] && b.queue[0].step == InteractAt && r.queue == Visit(AssemblyOf(k.stations), now))
  {
    if b.queue != [] && b.queue[0].step != Wait {
      PerformQueue(b, k, pi, now);
    }
  }

  /** A step carried out leaves the queue's tail, or, after picking up bread, the walk to the assembly. */
  lemma PerformQueue(b: BotState, k: State, pi: nat, now: int)
    requires pi < |k.players| && b.queue != [] && b.queue[0].step != Wait
    ensures var r := Perform(b, k, pi, now).bot;
            || r.queue == b.queue[1..]
            || (b.queue[0].step == InteractAt && r.queue == Visit(AssemblyOf(k.stations), now))
  {
    AssemblySameLayout(k.stations, Interact(k, pi, now).stations);
  }

  /**
   * The queue is worked off from the front: after a tick it is the queue it had (or just planned),
   * that queue without its head, or, right after an interaction picked up bread, a trip to the assembly.
   */
  lemma {:induction false} TickQueue(b: BotState, k: State, pi: nat, now: int)
    requires pi < |k.players| && QueueFits(b.queue, |k.stations|)
    ensures var q := if b.queue == [] && AssemblyOf(k.stations).Some? then Plan(k, pi, now) else b.queue;
            var r := Tick(b, k, pi, now).bot;
            || r.queue == b.queue
            || r.queue == q
            || (q != [] && r.queue == q[1..])
            || (q != [] && q[0].step == InteractAt && r.queue == Visit(AssemblyOf(k.stations), now))
  {
    if !(AssemblyOf(k.stations).None? || DeliveryOf(k.stations).None? || now < b.gapUntil) {
      PlanSound(k, pi, now);
      RunQueue(b.(queue := if b.queue == [] then Plan(k, pi, now) else b.queue), k, pi, now);
    }
  }

  /**
   * Walking to a station on the grid: while the head step's station is not reached, each tick
   * moves the player one grid step closer to its anchor.
   */
  lemma {:induction false} TickApproaches(b: BotState, k: State, pi: nat, now: int)
    requires pi < |k.players| && QueueFits(b.queue, |k.stations|) && b.queue != []
    requires AssemblyOf(k.stations).Some? && DeliveryOf(k.stations).Some? && b.gapUntil <= now
    requires b.queue[0].step != Wait && b.queue[0].station.Some?
    requires var s := k.stations[b.queue[0].station.value];
             OnGrid(s.x, s.y) && OnGrid(k.players[pi].x, k.players[pi].y) && !Near(k.players[pi].x, k.players[pi].y, s)
    ensures var s := k.stations[b.queue[0].station.value];
            var p := Tick(b, k, pi, now).kitchen.players[pi];
            && OnGrid(p.x, p.y)
            && Dist(p.x, p.y, Anchor(s).0, Anchor(s).1)
               == Dist(k.players[pi].x, k.players[pi].y, Anchor(s).0, Anchor(s).1) - GridStep
  {
    var s := k.stations[b.queue[0].station.value];
    AnchorOnGrid(s);
    ApproachProgress(k, pi, Anchor(s).0, Anchor(s).1);
  }
}
