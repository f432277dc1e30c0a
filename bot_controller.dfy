/**
 * The bot as an object: it keeps its queue of steps and its two timestamps in fields, looks up
 * stations by scanning the game model, plans by pushing steps, and on every update presses at
 * most one key of the game model. Each method is proved to do what the functions of module Bot
 * describe.
 */
module Controller {
  import opened Kitchen
  import opened Bot
  import opened Game
  import BotLemmas

  /** Appending to a queue in two steps is appending the two blocks at once. */
  lemma AppendTwice(q: seq<Entry>, x: seq<Entry>, y: seq<Entry>)
    ensures q + x + y == q + (x + y)
  {
  }

  class AIBot {
    const playerIndex: nat
    var queue: seq<Entry>
    var lastActionTs: int
    var gapUntil: int

    /** The bot's state as a value. */
    function Status(): BotState
      reads this
    {
      BotState(queue, lastActionTs, gapUntil)
    }

    /** A bot for player `playerIndex` with nothing planned and no pause pending. */
    constructor (playerIndex: nat)
      ensures this.playerIndex == playerIndex && Status() == BotState([], 0, 0)
    {
      this.playerIndex := playerIndex;
      queue := [];
      lastActionTs := 0;
      gapUntil := 0;
    }

    // ------------------------------------------------------------ station look-ups

    /** The first station of kind `t` (serving `ing` when given). */
    method FindOne(m: GameModel, t: StationType, ing: Option<ItemType>) returns (r: Option<nat>)
      ensures r == One(m.stations, t, ing)
    {
      BotLemmas.OneSpec(m.stations, t, ing);
      var i := 0;
      while i < |m.stations|
        invariant i <= |m.stations|
        invariant forall j :: 0 <= j < i ==> !Matches(m.stations[j], t, ing)
      {
        if Matches(m.stations[i], t, ing) {
          return Some(i);
        }
        i := i + 1;
      }
      return None;
    }

    /** The first empty station of kind `t`, or failing that the first of kind `t`. */
    method FindFree(m: GameModel, t: StationType) returns (r: Option<nat>)
      ensures r == FreeOfKind(m.stations, t)
    {
      BotLemmas.FreeOfKindPrefersFree(m.stations, t);
      var i := 0;
      while i < |m.stations|
        invariant i <= |m.stations|
        invariant forall j :: 0 <= j < i ==> !(m.stations[j].kind == t && m.stations[j].item.None?)
      {
        if m.stations[i].kind == t && m.stations[i].item.None? {
          return Some(i);
        }
        i := i + 1;
      }
      r := FindOne(m, t, None);
    }

    /** The first stove holding an item of kind `it`. */
    method FindStoveWith(m: GameModel, it: ItemType) returns (r: Option<nat>)
      ensures r == StoveWith(m.stations, it)
    {
      BotLemmas.StoveWithSpec(m.stations, it);
      var i := 0;
      while i < |m.stations|
        invariant i <= |m.stations|
        invariant forall j :: 0 <= j < i ==>
                    !(m.stations[j].kind == Stove && m.stations[j].item.Some? && m.stations[j].item.value.kind == it)
      {
        var s := m.stations[i];
        if s.kind == Stove && s.item.Some? && s.item.value.kind == it {
          return Some(i);
        }
        i := i + 1;
      }
      return None;
    }

    /** The first cutting board holding an item of kind `it` in the given chopped state. */
    method FindBoardWith(m: GameModel, it: ItemType, chopped: bool) returns (r: Option<nat>)
      ensures r == BoardWith(m.stations, it, chopped)
    {
      BotLemmas.BoardWithSpec(m.stations, it, chopped);
      var i := 0;
      while i < |m.stations|
        invariant i <= |m.stations|
        invariant forall j :: 0 <= j < i ==>
                    !(m.stations[j].kind == CuttingBoard && m.stations[j].item.Some?
                      && m.stations[j].item.value.kind == it && m.stations[j].item.value.chopped == chopped)
      {
        var s := m.stations[i];
        if s.kind == CuttingBoard && s.item.Some? && s.item.value.kind == it && s.item.value.chopped == chopped {
          return Some(i);
        }
        i := i + 1;
      }
      return None;
    }

    // ------------------------------------------------------------ queue

    /** Queue a step; a wait ends `waitMs` from `now`. */
    method Push(step: Step, st: Option<nat>, waitMs: int, now: int)
      modifies this
      ensures queue == old(queue) + [PushEntry(step, st, waitMs, now)]
      ensures lastActionTs == old(lastActionTs) && gapUntil == old(gapUntil)
    {
      if step == Wait {
        queue := queue + [Entry(Wait, None, now + waitMs)];
      } else {
        queue := queue + [Entry(step, st, 0)];
      }
    }

    /** Queue a step followed by the global pause. */
    method PushWithGap(step: Step, st: Option<nat>, now: int)
      modifies this
      ensures queue == old(queue) + Gapped(step, st, now)
      ensures lastActionTs == old(lastActionTs) && gapUntil == old(gapUntil)
    {
      Push(step, st, 0, now);
      Push(Wait, None, StepGap, now);
    }

    /** Queue a walk to a station and its use, each followed by the pause. */
    method PushVisit(st: Option<nat>, now: int)
      modifies this
      ensures queue == old(queue) + Visit(st, now)
      ensures lastActionTs == old(lastActionTs) && gapUntil == old(gapUntil)
    {
      PushWithGap(GoTo, st, now);
      PushWithGap(InteractAt, st, now);
    }

    method ResetQueue()
      modifies this
      ensures queue == [] && lastActionTs == old(lastActionTs) && gapUntil == old(gapUntil)
    {
      queue := [];
    }

    // ------------------------------------------------------------ planning

    /** Walks to the first free station of kind `t` (or the first of that kind) and uses it, if there is one. */
    method DropSteps(m: GameModel, t: StationType, now: int)
      modifies this
      ensures queue == old(queue) + VisitIf(FreeOfKind(m.stations, t), now)
      ensures lastActionTs == old(lastActionTs) && gapUntil == old(gapUntil)
    {
      var st := FindFree(m, t);
      if st.Some? {
        PushVisit(st, now);
      }
    }

    /** The bread section: appends its steps when it applies. */
    method PlanBreadSteps(m: GameModel, a: nat, now: int) returns (done: bool)
      requires playerIndex < |m.players| && a < |m.stations|
      modifies this
      ensures var o := PlanBread(m.stations, m.players[playerIndex].held, a, now);
              done == o.Some? && queue == old(queue) + (if done then o.value else [])
      ensures lastActionTs == old(lastActionTs) && gapUntil == old(gapUntil)
    {
      var h := m.players[playerIndex].held;
      if HasKind(m.stations[a].contents, Bread) {
        return false;
      }
      if h.None? {
        var bspawn := FindOne(m, IngredientSpawn, Some(Bread));
        PushVisit(bspawn, now);
        PushVisit(Some(a), now);
        return true;
      }
      var held := h.value.kind;
      if held == Bread {
        PushVisit(Some(a), now);
        return true;
      }
      if held == Tomato || held == Lettuce {
        DropSteps(m, CuttingBoard, now);
        return true;
      }
      if held == RawPatty {
        DropSteps(m, Stove, now);
        return true;
      }
      if held == CookedPatty {
        Push(Wait, None, StepGap, now);
        return true;
      }
      return false;
    }

    /** The cooked-patty section: appends its steps when it applies. */
    method PlanPattySteps(m: GameModel, a: nat, now: int) returns (done: bool)
      requires playerIndex < |m.players| && a < |m.stations|
      modifies this
      ensures var o := PlanPatty(m.stations, m.players[playerIndex].held, a, now);
              done == o.Some? && queue == old(queue) + (if done then o.value else [])
      ensures lastActionTs == old(lastActionTs) && gapUntil == old(gapUntil)
    {
      var h := m.players[playerIndex].held;
      if HasKind(m.stations[a].contents, CookedPatty) {
        return false;
      }
      if h.Some? && h.value.kind == CookedPatty {
        PushVisit(Some(a), now);
        return true;
      }
      if h.None? {
        FetchPattySteps(m, a, now);
        return true;
      }
      var held := h.value.kind;
      if held == Tomato || held == Lettuce {
        DropSteps(m, CuttingBoard, now);
        return true;
      }
      if held == RawPatty {
        DropSteps(m, Stove, now);
        return true;
      }
      if held == Bread {
        Push(Wait, None, StepGap, now);
        return true;
      }
      return false;
    }

    /** Empty-handed, for a cooked patty: appends what `FetchPatty` plans. */
    method FetchPattySteps(m: GameModel, a: nat, now: int)
      requires a < |m.stations|
      modifies this
      ensures queue == old(queue) + FetchPatty(m.stations, a, now)
      ensures lastActionTs == old(lastActionTs) && gapUntil == old(gapUntil)
    {
      ghost var q0 := queue;
      ghost var ss := m.stations;
      var cooked := FindStoveWith(m, CookedPatty);
      if cooked.Some? {
        PushVisit(cooked, now);
        PushVisit(Some(a), now);
        AppendTwice(q0, Visit(cooked, now), Visit(Some(a), now));
        assert FetchPatty(ss, a, now) == Visit(cooked, now) + Visit(Some(a), now);
        return;
      }
      var raw := FindStoveWith(m, RawPatty);
      if raw.Some? && m.stations[raw.value].cookingStart > 0 {
        WaitAtStoveSteps(raw.value, m.stations[raw.value], now);
        assert FetchPatty(ss, a, now) == Gapped(GoTo, raw, now) + WaitFor(CookWait(ss[raw.value], now), now);
        return;
      }
      var rspawn := FindOne(m, IngredientSpawn, Some(RawPatty));
      var stove := FindFree(m, Stove);
      if rspawn.Some? && stove.Some? {
        PushVisit(rspawn, now);
        PushVisit(stove, now);
        AppendTwice(q0, Visit(rspawn, now), Visit(stove, now));
        assert FetchPatty(ss, a, now) == Visit(rspawn, now) + Visit(stove, now);
      } else {
        assert FetchPatty(ss, a, now) == [];
      }
    }

    /** Walks to stove `si`, whose patty is cooking, and waits for it, at most `CookWaitCap`. */
    method WaitAtStoveSteps(si: nat, s: Station, now: int)
      modifies this
      ensures queue == old(queue) + Gapped(GoTo, Some(si), now) + WaitFor(CookWait(s, now), now)
      ensures lastActionTs == old(lastActionTs) && gapUntil == old(gapUntil)
    {
      PushWithGap(GoTo, Some(si), now);
      var left := s.cookingDuration - (now - s.cookingStart);
      var remaining := if left > 0 then left else 0;
      Push(Wait, None, if remaining < CookWaitCap then remaining else CookWaitCap, now);
    }

    /** The section for one vegetable (tomato, then lettuce): appends its steps when it applies. */
    method PlanVegSteps(m: GameModel, a: nat, veg: ItemType, other: ItemType, now: int) returns (done: bool)
      requires playerIndex < |m.players| && a < |m.stations|
      modifies this
      ensures var o := PlanVeg(m.stations, m.players[playerIndex].held, a, veg, other, now);
              done == o.Some? && queue == old(queue) + (if done then o.value else [])
      ensures lastActionTs == old(lastActionTs) && gapUntil == old(gapUntil)
    {
      var h := m.players[playerIndex].held;
      ghost var ss := m.stations;
      ghost var o := PlanVeg(ss, h, a, veg, other, now);
      if HasChopped(m.stations[a].contents, veg) {
        return false;
      }
      if h.Some? && h.value.kind == veg && h.value.chopped {
        assert o == Some(Visit(Some(a), now));
        PushVisit(Some(a), now);
        return true;
      }
      if h.None? {
        assert o == Some(FetchVeg(ss, a, veg, now));
        FetchVegSteps(m, a, veg, now);
        return true;
      }
      var held := h.value.kind;
      if held == other {
        assert o == Some(DropToBoard(ss, now));
        DropSteps(m, CuttingBoard, now);
        return true;
      }
      if held == CookedPatty {
        assert o == Some(Visit(Some(a), now));
        PushVisit(Some(a), now);
        return true;
      }
      if held == RawPatty {
        assert o == Some(DropToStove(ss, now));
        DropSteps(m, Stove, now);
        return true;
      }
      assert o.None?;
      return false;
    }

    /** Empty-handed, for a chopped vegetable: appends what `FetchVeg` plans. */
    method FetchVegSteps(m: GameModel, a: nat, veg: ItemType, now: int)
      requires a < |m.stations|
      modifies this
      ensures queue == old(queue) + FetchVeg(m.stations, a, veg, now)
      ensures lastActionTs == old(lastActionTs) && gapUntil == old(gapUntil)
    {
      ghost var q0 := queue;
      var ready := FindBoardWith(m, veg, true);
      if ready.Some? {
        PushVisit(ready, now);
        PushVisit(Some(a), now);
        AppendTwice(q0, Visit(ready, now), Visit(Some(a), now));
        return;
      }
      var spawn := FindOne(m, IngredientSpawn, Some(veg));
      var board := FindFree(m, CuttingBoard);
      if spawn.Some? && board.Some? {
        PushVisit(spawn, now);
        ghost var acc := Visit(spawn, now);
        PushVisit(board, now);
        AppendTwice(q0, acc, Visit(board, now));
        acc := acc + Visit(board, now);
        PushWithGap(ChopAt, board, now);
        AppendTwice(q0, acc, Gapped(ChopAt, board, now));
        acc := acc + Gapped(ChopAt, board, now);
        PushWithGap(InteractAt, board, now);
        AppendTwice(q0, acc, Gapped(InteractAt, board, now));
        acc := acc + Gapped(InteractAt, board, now);
        PushVisit(Some(a), now);
        AppendTwice(q0, acc, Visit(Some(a), now));
        acc := acc + Visit(Some(a), now);
        assert acc == FreshVeg(spawn, board, Some(a), now);
      }
    }

    /** Appends the plan for the current kitchen to the queue. */
    method PlanSteps(m: GameModel, now: int)
      requires playerIndex < |m.players| && AssemblyOf(m.stations).Some?
      modifies this
      ensures queue == old(queue) + Plan(m.Snapshot(), playerIndex, now)
      ensures lastActionTs == old(lastActionTs) && gapUntil == old(gapUntil)
    {
      ghost var k := m.Snapshot();
      ghost var q0 := queue;
      var h := m.players[playerIndex].held;
      var a := FindOne(m, Assembly, None);
      var d := FindOne(m, Delivery, None);
      assert a == AssemblyOf(k.stations) && d == DeliveryOf(k.stations);
      if h.Some? && h.value.kind == Burger {
        assert Plan(k, playerIndex, now) == Visit(d, now);
        PushVisit(d, now);
        return;
      }
      var st := m.stations[a.value];
      if st.item.Some? && st.item.value.kind == Burger {
        ghost var first := if h.None? then Visit(a, now) else [];
        assert Plan(k, playerIndex, now) == first + Visit(d, now);
        if h.None? {
          PushVisit(a, now);
        }
        assert queue == q0 + first;
        PushVisit(d, now);
        AppendTwice(q0, first, Visit(d, now));
        return;
      }
      assert Plan(k, playerIndex, now) == Recipe(k.stations, h, a.value, now);
      RecipeSteps(m, a.value, now);
    }

    /** Appends the first recipe section that applies, or the last pass at the assembly. */
    method RecipeSteps(m: GameModel, a: nat, now: int)
      requires playerIndex < |m.players| && a < |m.stations|
      modifies this
      ensures queue == old(queue) + Recipe(m.stations, m.players[playerIndex].held, a, now)
      ensures lastActionTs == old(lastActionTs) && gapUntil == old(gapUntil)
    {
      ghost var ss := m.stations;
      ghost var h := m.players[playerIndex].held;
      ghost var q0 := queue;
      ghost var rest := OrElse(PlanVeg(ss, h, a, Tomato, Lettuce, now),
                        OrElse(PlanVeg(ss, h, a, Lettuce, Tomato, now), Finish(h, a, now)));
      assert Recipe(ss, h, a, now) == OrElse(PlanBread(ss, h, a, now), OrElse(PlanPatty(ss, h, a, now), rest));
      var done := PlanBreadSteps(m, a, now);
      assert m.stations == ss && m.players[playerIndex].held == h;
      if done { return; }
      assert queue == q0;
      done := PlanPattySteps(m, a, now);
      if done { return; }
      assert queue == q0;
      VegRecipeSteps(m, a, now);
      assert queue == q0 + rest;
    }

    /** The recipe from the tomato section on. */
    method VegRecipeSteps(m: GameModel, a: nat, now: int)
      requires playerIndex < |m.players| && a < |m.stations|
      modifies this
      ensures var h := m.players[playerIndex].held;
              queue == old(queue) + OrElse(PlanVeg(m.stations, h, a, Tomato, Lettuce, now),
                                    OrElse(PlanVeg(m.stations, h, a, Lettuce, Tomato, now), Finish(h, a, now)))
      ensures lastActionTs == old(lastActionTs) && gapUntil == old(gapUntil)
    {
      var h := m.players[playerIndex].held;
      ghost var ss := m.stations;
      ghost var q0 := queue;
      ghost var t := PlanVeg(ss, h, a, Tomato, Lettuce, now);
      ghost var l := PlanVeg(ss, h, a, Lettuce, Tomato, now);
      var done := PlanVegSteps(m, a, Tomato, Lettuce, now);
      assert m.stations == ss && m.players[playerIndex].held == h;
      if done {
        assert queue == q0 + t.value;
        return;
      }
      assert queue == q0;
      done := PlanVegSteps(m, a, Lettuce, Tomato, now);
      if done {
        assert queue == q0 + l.value;
        return;
      }
      assert queue == q0 && t.None? && l.None?;
      FinishSteps(h, a, now);
    }

    /** The last pass at the assembly. */
    method FinishSteps(h: Option<Item>, a: nat, now: int)
      modifies this
      ensures queue == old(queue) + Finish(h, a, now)
      ensures lastActionTs == old(lastActionTs) && gapUntil == old(gapUntil)
    {
      if h.Some? {
        PushVisit(Some(a), now);
      } else {
        PushWithGap(GoTo, Some(a), now);
        Push(Wait, None, StepGap, now);
      }
    }

    // ------------------------------------------------------------ moving

    /** Presses the move key that brings the player one grid step closer to (tx, ty), if any. */
    method MoveTowards(m: GameModel, tx: int, ty: int)
      requires playerIndex < |m.players|
      modifies m
      ensures m.Snapshot() == Bot.MoveTowards(old(m.Snapshot()), playerIndex, tx, ty)
    {
      var p := m.players[playerIndex];
      var dx := 0;
      var dy := 0;
      if p.x < tx {
        dx := 1;
      } else if p.x > tx {
        dx := -1;
      } else if p.y < ty {
        dy := 1;
      } else if p.y > ty {
        dy := -1;
      }
      if dx != 0 || dy != 0 {
        m.MovePlayer(playerIndex, dx, dy);
      }
    }

    /** One step towards the anchor of station `s`; reports whether a step was taken. */
    method MoveToAnchorStep(m: GameModel, s: nat) returns (moved: bool)
      requires playerIndex < |m.players| && s < |m.stations|
      modifies m
      ensures moved == !Near(old(m.players[playerIndex].x), old(m.players[playerIndex].y), old(m.stations[s]))
      ensures var anchor := Anchor(old(m.stations[s]));
              m.Snapshot() == if moved then Bot.MoveTowards(old(m.Snapshot()), playerIndex, anchor.0, anchor.1)
                              else old(m.Snapshot())
    {
      var anchor := Anchor(m.stations[s]);
      var p := m.players[playerIndex];
      if !Near(p.x, p.y, m.stations[s]) {
        MoveTowards(m, anchor.0, anchor.1);
        return true;
      }
      return false;
    }

    // ------------------------------------------------------------ the tick

    /** One update at time `now`: does what `Tick` describes to the bot and to the game model. */
    method Update(m: GameModel, now: int)
      requires playerIndex < |m.players| && QueueFits(queue, |m.stations|)
      modifies this, m
      ensures var r := Tick(old(Status()), old(m.Snapshot()), playerIndex, now);
              Status() == r.bot && m.Snapshot() == r.kitchen
      ensures |m.players| == old(|m.players|) && QueueFits(queue, |m.stations|)
      ensures Valid(old(m.Snapshot())) ==> Valid(m.Snapshot())
    {
      BotLemmas.TickKeeps(Status(), m.Snapshot(), playerIndex, now);
      var a := FindOne(m, Assembly, None);
      var d := FindOne(m, Delivery, None);
      if a.None? || d.None? {
        return;
      }
      if now < gapUntil {
        return;
      }
      PlanSound(m.Snapshot(), playerIndex, now);
      if queue == [] {
        PlanSteps(m, now);
      }
      assert Status() == old(Status()).(queue := if old(queue) == [] then Plan(old(m.Snapshot()), playerIndex, now) else old(queue));
      RunStep(m, now);
    }

    /** Works on the head of the queue, as `Run` describes. */
    method RunStep(m: GameModel, now: int)
      requires playerIndex < |m.players| && QueueFits(queue, |m.stations|)
      modifies this, m
      ensures var r := Run(old(Status()), old(m.Snapshot()), playerIndex, now);
              Status() == r.bot && m.Snapshot() == r.kitchen
    {
      if queue == [] {
        return;
      }
      var e := queue[0];
      if e.step == Wait {
        if now >= e.deadline {
          queue := queue[1..];
          gapUntil := now + StepGap;
        }
        return;
      }
      if e.station.Some? {
        var moved := MoveToAnchorStep(m, e.station.value);
        if moved {
          gapUntil := now + StepGap;
          return;
        }
      }
      if (e.step == InteractAt || e.step == ChopAt) && now - lastActionTs < Cooldown {
        return;
      }
      PerformStep(m, now);
    }

    /** Carries out the head step at its station, as `Perform` describes. */
    method PerformStep(m: GameModel, now: int)
      requires playerIndex < |m.players| && queue != [] && queue[0].step != Wait
      modifies this, m
      ensures var r := Perform(old(Status()), old(m.Snapshot()), playerIndex, now);
              Status() == r.bot && m.Snapshot() == r.kitchen
    {
      var e := queue[0];
      if e.step == GoTo {
        queue := queue[1..];
        gapUntil := now + StepGap;
        return;
      }
      if e.step == InteractAt {
        InteractStep(m, now);
        return;
      }
      m.ChopAtStation(playerIndex);
      lastActionTs := now;
      queue := queue[1..];
      gapUntil := now + StepGap;
    }

    /**
     * Uses the station in front of the player; when that picked up bread at the bread spawn, the
     * rest of the plan is dropped for a walk to the assembly.
     */
    method InteractStep(m: GameModel, now: int)
      requires playerIndex < |m.players| && queue != [] && queue[0].step == InteractAt
      modifies this, m
      ensures var r := Perform(old(Status()), old(m.Snapshot()), playerIndex, now);
              Status() == r.bot && m.Snapshot() == r.kitchen
    {
      var e := queue[0];
      ghost var k := m.Snapshot();
      ghost var k' := Interact(k, playerIndex, now);
      m.InteractWithStation(playerIndex, now);
      assert m.Snapshot() == k';
      lastActionTs := now;
      queue := queue[1..];
      gapUntil := now + StepGap;
      ghost var took := TookBread(k.stations, e.station, k'.players[playerIndex].held);
      if e.station.Some? && e.station.value < |m.stations| {
        var s := m.stations[e.station.value];
        assert SameSpot(k.stations[e.station.value], s);
        if s.kind == IngredientSpawn && s.ingredient == Some(Bread) {
          var p := m.players[playerIndex];
          if p.held.Some? && p.held.value.kind == Bread {
            assert took;
            ResetQueue();
            var a := FindOne(m, Assembly, None);
            PushVisit(a, now);
            return;
          }
        }
      }
      assert !took;
    }
  }
}
