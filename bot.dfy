/**
 * The burger bot's decisions, as functions of the kitchen: which station it looks up, where it
 * stands before using a station, the queue of steps it plans, and what one tick of the bot does.
 * Time is in integer milliseconds; every clock read within one tick is the same `now`.
 * Stations are never added or removed, so a queued step names its station by index.
 */
module Bot {
  import opened Kitchen

  /** The atomic steps the bot queues. */
  datatype Step = GoTo | InteractAt | ChopAt | Wait

  /** A queued step: the station it is bound to, and for a wait the time it ends. */
  datatype Entry = Entry(step: Step, station: Option<nat>, deadline: int)

  /** The bot's own state besides its fixed player index. */
  datatype BotState = BotState(queue: seq<Entry>, lastActionTs: int, gapUntil: int)

  /** What one tick leaves behind: the bot and the kitchen. */
  datatype Outcome = Outcome(bot: BotState, kitchen: State)

  /** The pause after every step, in milliseconds. */
  const StepGap := 400
  /** The minimum time between two interactions or chops. */
  const Cooldown := 0
  /** The longest single wait for a patty on the stove. */
  const CookWaitCap := 500
  /** How far from its anchor the bot still counts as arrived. */
  const Tolerance := 10

  // ---------------------------------------------------------------- station look-ups

  /** The first index from `i` on whose station satisfies `p`. */
  function First(ss: seq<Station>, p: Station -> bool, i: nat): (r: Option<nat>)
    requires i <= |ss|
    ensures r.Some? ==> i <= r.value < |ss| && p(ss[r.value])
    ensures r.Some? ==> forall j :: i <= j < r.value ==> !p(ss[j])
    ensures r.None? <==> forall j :: i <= j < |ss| ==> !p(ss[j])
    decreases |ss| - i
  {
    if i == |ss| then None
    else if p(ss[i]) then Some(i)
    else First(ss, p, i + 1)
  }

  /** A station of kind `t`, and of ingredient `ing` when one is asked for. */
  predicate Matches(s: Station, t: StationType, ing: Option<ItemType>)
  {
    s.kind == t && (ing.None? || s.ingredient == ing)
  }

  /** The first station of kind `t` (serving `ing` when given). */
  function One(ss: seq<Station>, t: StationType, ing: Option<ItemType>): (r: Option<nat>)
    ensures r.Some? ==> r.value < |ss| && Matches(ss[r.value], t, ing)
  {
    First(ss, (s: Station) => Matches(s, t, ing), 0)
  }

  /** The first empty station of kind `t`, or failing that the first one of kind `t`. */
  function FreeOfKind(ss: seq<Station>, t: StationType): (r: Option<nat>)
    ensures r.Some? ==> r.value < |ss| && ss[r.value].kind == t
  {
    match First(ss, (s: Station) => s.kind == t && s.item.None?, 0)
    case Some(i) => Some(i)
    case None => One(ss, t, None)
  }

  /** The first stove whose slot holds an item of kind `it`. */
  function StoveWith(ss: seq<Station>, it: ItemType): (r: Option<nat>)
    ensures r.Some? ==> r.value < |ss| && ss[r.value].kind == Stove
    ensures r.Some? ==> ss[r.value].item.Some? && ss[r.value].item.value.kind == it
  {
    First(ss, (s: Station) => s.kind == Stove && s.item.Some? && s.item.value.kind == it, 0)
  }

  /** The first cutting board holding an item of kind `it` in the given chopped state. */
  function BoardWith(ss: seq<Station>, it: ItemType, chopped: bool): (r: Option<nat>)
    ensures r.Some? ==> r.value < |ss| && ss[r.value].kind == CuttingBoard
    ensures r.Some? ==> ss[r.value].item.Some? && ss[r.value].item.value.kind == it
                        && ss[r.value].item.value.chopped == chopped
  {
    First(ss, (s: Station) => s.kind == CuttingBoard && s.item.Some? && s.item.value.kind == it
                   && s.item.value.chopped == chopped, 0)
  }

  /** A finished burger waits in the assembly's slot. */
  predicate BurgerOn(s: Station)
  {
    s.item.Some? && s.item.value.kind == Burger
  }

  // ---------------------------------------------------------------- anchor and movement

  /** Where the bot stands to use `s`: one grid cell below it, kept on the map. */
  function Anchor(s: Station): (r: (int, int))
    ensures r.0 == s.x && r.1 <= MaxY
    ensures s.y + GridStep <= MaxY ==> r.1 == s.y + GridStep
    ensures MaxY < s.y + GridStep ==> r.1 == MaxY
  {
    (s.x, if s.y + GridStep < MaxY then s.y + GridStep else MaxY)
  }

  /** Arrived: within the tolerance of the anchor on both axes. */
  predicate Near(px: int, py: int, s: Station): (r: bool)
    ensures r ==> Abs(px - s.x) <= Tolerance && py <= MaxY + Tolerance
    ensures (px, py) == Anchor(s) ==> r
  {
    Abs(px - Anchor(s).0) <= Tolerance && Abs(py - Anchor(s).1) <= Tolerance
  }

  /** One unit step towards the target: along x first, then along y, none when there. */
  function Direction(px: int, py: int, tx: int, ty: int): (d: (int, int))
    ensures Abs(d.0) + Abs(d.1) <= 1
    ensures d == (0, 0) <==> (px, py) == (tx, ty)
    ensures px != tx ==> d.1 == 0 && Abs(px + d.0 - tx) == Abs(px - tx) - 1
    ensures px == tx ==> d.0 == 0 && (py != ty ==> Abs(py + d.1 - ty) == Abs(py - ty) - 1)
  {
    if px < tx then (1, 0)
    else if px > tx then (-1, 0)
    else if py < ty then (0, 1)
    else if py > ty then (0, -1)
    else (0, 0)
  }

  /** The move key the bot presses to approach (tx, ty), if any. */
  function MoveTowards(k: State, pi: nat, tx: int, ty: int): (r: State)
    requires pi < |k.players|
    ensures r.stations == k.stations && r.orders == k.orders && r.score == k.score
    ensures |r.players| == |k.players| && r.players[pi].held == k.players[pi].held
    ensures forall j :: 0 <= j < |k.players| && j != pi ==> r.players[j] == k.players[j]
    ensures (k.players[pi].x, k.players[pi].y) == (tx, ty) ==> r == k
    ensures 0 <= k.players[pi].x <= MaxX && 0 <= k.players[pi].y <= MaxY ==>
              Abs(r.players[pi].x - k.players[pi].x) + Abs(r.players[pi].y - k.players[pi].y) <= GridStep
  {
    var d := Direction(k.players[pi].x, k.players[pi].y, tx, ty);
    if d.0 != 0 || d.1 != 0 then Move(k, pi, d.0, d.1) else k
  }

  // ---------------------------------------------------------------- queue building

  /** A queued step; a wait ends `waitMs` after `now`, other steps carry no deadline. */
  function PushEntry(step: Step, st: Option<nat>, waitMs: int, now: int): (r: Entry)
    ensures r.step == step
    ensures step == Wait ==> r.station.None? && r.deadline == now + waitMs
    ensures step != Wait ==> r.station == st && r.deadline == 0
  {
    if step == Wait then Entry(Wait, None, now + waitMs) else Entry(step, st, 0)
  }

  /** A step followed by the global pause. */
  function Gapped(step: Step, st: Option<nat>, now: int): (r: seq<Entry>)
    ensures |r| == 2 && r[0].step == step && r[1] == Entry(Wait, None, now + StepGap)
    ensures step != Wait ==> r[0] == Entry(step, st, 0)
  {
    [PushEntry(step, st, 0, now), PushEntry(Wait, None, StepGap, now)]
  }

  function WaitFor(ms: int, now: int): seq<Entry>
  {
    [PushEntry(Wait, None, ms, now)]
  }

  /** Walk to a station and use it, each followed by the pause. */
  function Visit(st: Option<nat>, now: int): seq<Entry>
  {
    Gapped(GoTo, st, now) + Gapped(InteractAt, st, now)
  }

  /** Visit the station if there is one, otherwise plan nothing. */
  function VisitIf(st: Option<nat>, now: int): seq<Entry>
  {
    if st.Some? then Visit(st, now) else []
  }

  /** Fetch a vegetable, drop it on a board, chop it, take it back and bring it to the assembly. */
  function FreshVeg(spawn: Option<nat>, board: Option<nat>, a: Option<nat>, now: int): seq<Entry>
  {
    Visit(spawn, now) + Visit(board, now) + Gapped(ChopAt, board, now) + Gapped(InteractAt, board, now)
    + Visit(a, now)
  }

  /** A plan section that applies, or `None` to fall through to the next section. */
  function OrElse(o: Option<seq<Entry>>, rest: seq<Entry>): seq<Entry>
  {
    if o.Some? then o.value else rest
  }

  function HeldKind(h: Option<Item>, t: ItemType): bool
  {
    h.Some? && h.value.kind == t
  }

  /** Getting rid of a vegetable, a raw patty or anything else that is in the way. */
  function DropToBoard(ss: seq<Station>, now: int): seq<Entry>
  {
    VisitIf(FreeOfKind(ss, CuttingBoard), now)
  }

  function DropToStove(ss: seq<Station>, now: int): seq<Entry>
  {
    VisitIf(FreeOfKind(ss, Stove), now)
  }

  /** Every station a queued step names exists. */
  predicate QueueFits(q: seq<Entry>, n: nat)
  {
    forall j :: 0 <= j < |q| && q[j].station.Some? ==> q[j].station.value < n
  }

  /** The bread section, when the assembly has no bread yet. */
  function PlanBread(ss: seq<Station>, h: Option<Item>, a: nat, now: int): (r: Option<seq<Entry>>)
    requires a < |ss|
  {
    if HasKind(ss[a].contents, Bread) then None
    else if h.None? then Some(Visit(One(ss, IngredientSpawn, Some(Bread)), now) + Visit(Some(a), now))
    else if h.value.kind == Bread then Some(Visit(Some(a), now))
    else if h.value.kind == Tomato || h.value.kind == Lettuce then Some(DropToBoard(ss, now))
    else if h.value.kind == RawPatty then Some(DropToStove(ss, now))
    else if h.value.kind == CookedPatty then Some(WaitFor(StepGap, now))
    else None
  }

  /** How long to wait for a patty already on the stove: what is left of its time, at most the cap. */
  function CookWait(s: Station, now: int): int
  {
    var left := s.cookingDuration - (now - s.cookingStart);
    var rest := if left > 0 then left else 0;
    if rest < CookWaitCap then rest else CookWaitCap
  }

  /**
   * Empty-handed, for a cooked patty: take one from a stove, else wait at a stove where one is
   * cooking, else fetch a raw patty and put it on a stove.
   */
  function FetchPatty(ss: seq<Station>, a: nat, now: int): seq<Entry>
  {
    var cooked := StoveWith(ss, CookedPatty);
    if cooked.Some? then Visit(cooked, now) + Visit(Some(a), now)
    else
      var raw := StoveWith(ss, RawPatty);
      if raw.Some? && ss[raw.value].cookingStart > 0 then
        Gapped(GoTo, raw, now) + WaitFor(CookWait(ss[raw.value], now), now)
      else
        var spawn := One(ss, IngredientSpawn, Some(RawPatty));
        var stove := FreeOfKind(ss, Stove);
        if spawn.Some? && stove.Some? then Visit(spawn, now) + Visit(stove, now) else []
  }

  /** The patty section, when the assembly has no cooked patty yet. */
  function PlanPatty(ss: seq<Station>, h: Option<Item>, a: nat, now: int): (r: Option<seq<Entry>>)
    requires a < |ss|
  {
    if HasKind(ss[a].contents, CookedPatty) then None
    else if HeldKind(h, CookedPatty) then Some(Visit(Some(a), now))
    else if h.None? then Some(FetchPatty(ss, a, now))
    else if h.value.kind == Tomato || h.value.kind == Lettuce then Some(DropToBoard(ss, now))
    else if h.value.kind == RawPatty then Some(DropToStove(ss, now))
    else if h.value.kind == Bread then Some(WaitFor(StepGap, now))
    else None
  }

  /**
   * Empty-handed, for a chopped vegetable: take one ready on a board, else fetch, drop, chop and
   * take back a fresh one.
   */
  function FetchVeg(ss: seq<Station>, a: nat, veg: ItemType, now: int): seq<Entry>
  {
    var ready := BoardWith(ss, veg, true);
    if ready.Some? then Visit(ready, now) + Visit(Some(a), now)
    else
      var spawn := One(ss, IngredientSpawn, Some(veg));
      var board := FreeOfKind(ss, CuttingBoard);
      if spawn.Some? && board.Some? then FreshVeg(spawn, board, Some(a), now) else []
  }

  /**
   * The section for one vegetable, when the assembly has no chopped `veg` yet; `other` is the
   * vegetable of the other section, which the bot drops on a board when it holds it.
   */
  function PlanVeg(ss: seq<Station>, h: Option<Item>, a: nat, veg: ItemType, other: ItemType, now: int)
    : (r: Option<seq<Entry>>)
    requires a < |ss|
  {
    if HasChopped(ss[a].contents, veg) then None
    else if h.Some? && h.value.kind == veg && h.value.chopped then Some(Visit(Some(a), now))
    else if h.None? then Some(FetchVeg(ss, a, veg, now))
    else if h.value.kind == other then Some(DropToBoard(ss, now))
    else if h.value.kind == CookedPatty then Some(Visit(Some(a), now))
    else if h.value.kind == RawPatty then Some(DropToStove(ss, now))
    else None
  }

  /** The last pass at the assembly: use it when holding something, otherwise stand there and wait. */
  function Finish(h: Option<Item>, a: nat, now: int): seq<Entry>
  {
    if h.Some? then Visit(Some(a), now) else Gapped(GoTo, Some(a), now) + WaitFor(StepGap, now)
  }

  /** The assembly and the delivery counter the bot works with. */
  function AssemblyOf(ss: seq<Station>): Option<nat>
  {
    One(ss, Assembly, None)
  }

  function DeliveryOf(ss: seq<Station>): Option<nat>
  {
    One(ss, Delivery, None)
  }

  /**
   * The plan for player `pi`: deliver a burger in hand, else fetch and deliver a finished burger,
   * else the first recipe section that applies, bread, cooked patty, chopped tomato, chopped lettuce,
   * else a last pass at the assembly. Every step names a station of the kitchen.
   */
  function Plan(k: State, pi: nat, now: int): (r: seq<Entry>)
    requires pi < |k.players| && AssemblyOf(k.stations).Some?
    ensures Sound(r, k.stations, now)
  {
    var ss := k.stations;
    var h := k.players[pi].held;
    var a := AssemblyOf(ss).value;
    var d := DeliveryOf(ss);
    VisitSound(d, now, ss);
    if HeldKind(h, Burger) then Visit(d, now)
    else if BurgerOn(ss[a]) then
      VisitSound(Some(a), now, ss);
      SoundAppend(Visit(Some(a), now), Visit(d, now), ss, now);
      assert [] + Visit(d, now) == Visit(d, now);
      (if h.None? then Visit(Some(a), now) else []) + Visit(d, now)
    else
      RecipeSound(ss, h, a, now);
      Recipe(ss, h, a, now)
  }

  /** The first recipe section that applies: bread, cooked patty, chopped tomato, chopped lettuce, then the last pass. */
  function Recipe(ss: seq<Station>, h: Option<Item>, a: nat, now: int): seq<Entry>
    requires a < |ss|
  {
    OrElse(PlanBread(ss, h, a, now),
    OrElse(PlanPatty(ss, h, a, now),
    OrElse(PlanVeg(ss, h, a, Tomato, Lettuce, now),
    OrElse(PlanVeg(ss, h, a, Lettuce, Tomato, now),
    Finish(h, a, now)))))
  }

  /** A station index that exists, or none. */
  predicate Fits(st: Option<nat>, n: nat)
  {
    st.None? || st.value < n
  }

  /**
   * Entry `j` of a queue is well placed: it names a station of the kitchen or none; a wait is
   * unbound and ends no earlier than `now`; any other step has no deadline and is followed by a
   * wait; a chop happens at a cutting board, between the interaction that drops the vegetable on
   * that board and the one that takes it back.
   */
  predicate EntryOk(q: seq<Entry>, j: nat, ss: seq<Station>, now: int)
    requires j < |q|
  {
    && Fits(q[j].station, |ss|)
    && (q[j].step == Wait ==> q[j].station.None? && q[j].deadline >= now)
    && (q[j].step != Wait ==> q[j].deadline == 0 && j + 1 < |q| && q[j + 1].step == Wait)
    && (q[j].step == ChopAt ==>
          && q[j].station.Some? && q[j].station.value < |ss| && ss[q[j].station.value].kind == CuttingBoard
          && 2 <= j && j + 2 < |q|
          && q[j - 2] == Entry(InteractAt, q[j].station, 0)
          && q[j + 2] == Entry(InteractAt, q[j].station, 0))
  }

  predicate Sound(q: seq<Entry>, ss: seq<Station>, now: int)
  {
    forall j :: 0 <= j < |q| ==> EntryOk(q, j, ss, now)
  }

  lemma SoundFits(q: seq<Entry>, ss: seq<Station>, now: int)
    requires Sound(q, ss, now)
    ensures QueueFits(q, |ss|)
  {
    forall j | 0 <= j < |q| && q[j].station.Some? ensures q[j].station.value < |ss| {
      assert EntryOk(q, j, ss, now);
    }
  }

  lemma {:induction false} SoundAppend(a: seq<Entry>, b: seq<Entry>, ss: seq<Station>, now: int)
    requires Sound(a, ss, now) && Sound(b, ss, now)
    ensures Sound(a + b, ss, now)
  {
    var c := a + b;
    forall j | 0 <= j < |c| ensures EntryOk(c, j, ss, now) {
      if j < |a| {
        assert EntryOk(a, j, ss, now);
        assert c[j] == a[j];
        if j + 1 < |a| { assert c[j + 1] == a[j + 1]; }
        if j + 2 < |a| { assert c[j + 2] == a[j + 2]; }
        if 2 <= j { assert c[j - 2] == a[j - 2]; }
      } else {
        var i := j - |a|;
        assert EntryOk(b, i, ss, now);
        assert c[j] == b[i];
        if i + 1 < |b| { assert c[j + 1] == b[i + 1]; }
        if i + 2 < |b| { assert c[j + 2] == b[i + 2]; }
        if 2 <= i { assert c[j - 2] == b[i - 2]; }
      }
    }
  }

  lemma GappedSound(step: Step, st: Option<nat>, now: int, ss: seq<Station>)
    requires step != ChopAt && Fits(st, |ss|)
    ensures Sound(Gapped(step, st, now), ss, now)
  {
    var q := Gapped(step, st, now);
    assert EntryOk(q, 0, ss, now) && EntryOk(q, 1, ss, now);
  }

  lemma WaitSound(ms: int, now: int, ss: seq<Station>)
    requires ms >= 0
    ensures Sound(WaitFor(ms, now), ss, now)
  {
    assert EntryOk(WaitFor(ms, now), 0, ss, now);
  }

  lemma VisitSound(st: Option<nat>, now: int, ss: seq<Station>)
    requires Fits(st, |ss|)
    ensures Sound(Visit(st, now), ss, now) && Sound(VisitIf(st, now), ss, now)
  {
    GappedSound(GoTo, st, now, ss);
    GappedSound(InteractAt, st, now, ss);
    SoundAppend(Gapped(GoTo, st, now), Gapped(InteractAt, st, now), ss, now);
  }

  lemma TwoVisitsSound(s1: Option<nat>, s2: Option<nat>, now: int, ss: seq<Station>)
    requires Fits(s1, |ss|) && Fits(s2, |ss|)
    ensures Sound(Visit(s1, now) + Visit(s2, now), ss, now)
  {
    VisitSound(s1, now, ss);
    VisitSound(s2, now, ss);
    SoundAppend(Visit(s1, now), Visit(s2, now), ss, now);
  }

  lemma DropsSound(ss: seq<Station>, now: int)
    ensures Sound(DropToBoard(ss, now), ss, now) && Sound(DropToStove(ss, now), ss, now)
  {
    VisitSound(FreeOfKind(ss, CuttingBoard), now, ss);
    VisitSound(FreeOfKind(ss, Stove), now, ss);
  }

  /** The board part of a fresh vegetable: drop it on the board, chop it, take it back. */
  lemma ChopBlockSound(board: Option<nat>, now: int, ss: seq<Station>)
    requires board.Some? && board.value < |ss| && ss[board.value].kind == CuttingBoard
    ensures Sound(Visit(board, now) + Gapped(ChopAt, board, now) + Gapped(InteractAt, board, now), ss, now)
  {
    var q := Visit(board, now) + Gapped(ChopAt, board, now) + Gapped(InteractAt, board, now);
    var w := Entry(Wait, None, now + StepGap);
    assert q == [Entry(GoTo, board, 0), w, Entry(InteractAt, board, 0), w,
                 Entry(ChopAt, board, 0), w, Entry(InteractAt, board, 0), w];
    forall j | 0 <= j < |q| ensures EntryOk(q, j, ss, now) {
    }
  }

  lemma FreshVegSound(spawn: Option<nat>, board: Option<nat>, a: Option<nat>, now: int, ss: seq<Station>)
    requires Fits(spawn, |ss|) && Fits(a, |ss|)
    requires board.Some? && board.value < |ss| && ss[board.value].kind == CuttingBoard
    ensures Sound(FreshVeg(spawn, board, a, now), ss, now)
  {
    var mid := Visit(board, now) + Gapped(ChopAt, board, now) + Gapped(InteractAt, board, now);
    VisitSound(spawn, now, ss);
    VisitSound(a, now, ss);
    ChopBlockSound(board, now, ss);
    SoundAppend(Visit(spawn, now), mid, ss, now);
    SoundAppend(Visit(spawn, now) + mid, Visit(a, now), ss, now);
    assert FreshVeg(spawn, board, a, now) == Visit(spawn, now) + mid + Visit(a, now);
  }

  lemma BreadSound(ss: seq<Station>, h: Option<Item>, a: nat, now: int)
    requires a < |ss|
    ensures PlanBread(ss, h, a, now).Some? ==> Sound(PlanBread(ss, h, a, now).value, ss, now)
  {
    TwoVisitsSound(One(ss, IngredientSpawn, Some(Bread)), Some(a), now, ss);
    VisitSound(Some(a), now, ss);
    DropsSound(ss, now);
    WaitSound(StepGap, now, ss);
  }

  lemma FetchPattySound(ss: seq<Station>, a: nat, now: int)
    requires a < |ss|
    ensures Sound(FetchPatty(ss, a, now), ss, now)
  {
    var cooked := StoveWith(ss, CookedPatty);
    var raw := StoveWith(ss, RawPatty);
    if cooked.Some? {
      TwoVisitsSound(cooked, Some(a), now, ss);
    } else if raw.Some? && ss[raw.value].cookingStart > 0 {
      GappedSound(GoTo, raw, now, ss);
      WaitSound(CookWait(ss[raw.value], now), now, ss);
      SoundAppend(Gapped(GoTo, raw, now), WaitFor(CookWait(ss[raw.value], now), now), ss, now);
    } else {
      TwoVisitsSound(One(ss, IngredientSpawn, Some(RawPatty)), FreeOfKind(ss, Stove), now, ss);
    }
  }

  lemma PattySound(ss: seq<Station>, h: Option<Item>, a: nat, now: int)
    requires a < |ss|
    ensures PlanPatty(ss, h, a, now).Some? ==> Sound(PlanPatty(ss, h, a, now).value, ss, now)
  {
    var o := PlanPatty(ss, h, a, now);
    if HasKind(ss[a].contents, CookedPatty) {
    } else if HeldKind(h, CookedPatty) {
      VisitSound(Some(a), now, ss);
    } else if h.None? {
      assert o == Some(FetchPatty(ss, a, now));
      FetchPattySound(ss, a, now);
    } else if h.value.kind == Bread {
      WaitSound(StepGap, now, ss);
    } else {
      DropsSound(ss, now);
    }
  }

  lemma FetchVegSound(ss: seq<Station>, a: nat, veg: ItemType, now: int)
    requires a < |ss|
    ensures Sound(FetchVeg(ss, a, veg, now), ss, now)
  {
    var ready := BoardWith(ss, veg, true);
    var spawn := One(ss, IngredientSpawn, Some(veg));
    var board := FreeOfKind(ss, CuttingBoard);
    if ready.Some? {
      TwoVisitsSound(ready, Some(a), now, ss);
    } else if spawn.Some? && board.Some? {
      FreshVegSound(spawn, board, Some(a), now, ss);
    }
  }

  lemma VegSound(ss: seq<Station>, h: Option<Item>, a: nat, veg: ItemType, other: ItemType, now: int)
    requires a < |ss|
    ensures PlanVeg(ss, h, a, veg, other, now).Some? ==> Sound(PlanVeg(ss, h, a, veg, other, now).value, ss, now)
  {
    var o := PlanVeg(ss, h, a, veg, other, now);
    if HasChopped(ss[a].contents, veg) {
    } else if h.Some? && h.value.kind == veg && h.value.chopped {
      VisitSound(Some(a), now, ss);
    } else if h.None? {
      assert o == Some(FetchVeg(ss, a, veg, now));
      FetchVegSound(ss, a, veg, now);
    } else if h.value.kind == other || h.value.kind == RawPatty {
      DropsSound(ss, now);
    } else {
      VisitSound(Some(a), now, ss);
    }
  }

  lemma RecipeSound(ss: seq<Station>, h: Option<Item>, a: nat, now: int)
    requires a < |ss|
    ensures Sound(Recipe(ss, h, a, now), ss, now)
  {
    BreadSound(ss, h, a, now);
    PattySound(ss, h, a, now);
    VegSound(ss, h, a, Tomato, Lettuce, now);
    VegSound(ss, h, a, Lettuce, Tomato, now);
    VisitSound(Some(a), now, ss);
    GappedSound(GoTo, Some(a), now, ss);
    WaitSound(StepGap, now, ss);
    SoundAppend(Gapped(GoTo, Some(a), now), WaitFor(StepGap, now), ss, now);
  }

  /** Every plan is sound for the kitchen it was made for. */
  lemma PlanSound(k: State, pi: nat, now: int)
    requires pi < |k.players| && AssemblyOf(k.stations).Some?
    ensures Sound(Plan(k, pi, now), k.stations, now)
    ensures QueueFits(Plan(k, pi, now), |k.stations|)
  {
    SoundFits(Plan(k, pi, now), k.stations, now);
  }

  // ---------------------------------------------------------------- one tick

  /** Whether the step just done picked up bread at the bread spawn. */
  predicate TookBread(ss: seq<Station>, st: Option<nat>, h: Option<Item>)
  {
    && st.Some? && st.value < |ss|
    && ss[st.value].kind == IngredientSpawn && ss[st.value].ingredient == Some(Bread)
    && HeldKind(h, Bread)
  }

  /**
   * One tick of the bot at time `now`. Nothing happens without an assembly and a delivery counter,
   * or before the pause after the last step is over. An empty queue is planned first, then the
   * head of the queue is worked on.
   */
  function Tick(b: BotState, k: State, pi: nat, now: int): (r: Outcome)
    requires pi < |k.players| && QueueFits(b.queue, |k.stations|)
    ensures |r.kitchen.players| == |k.players| && SameLayout(k.stations, r.kitchen.stations)
    ensures r.kitchen != k ==> r.bot.gapUntil == now + StepGap
    ensures now < b.gapUntil ==> r == Outcome(b, k)
  {
    if AssemblyOf(k.stations).None? || DeliveryOf(k.stations).None? || now < b.gapUntil then Outcome(b, k)
    else
      PlanSound(k, pi, now);
      Run(b.(queue := if b.queue == [] then Plan(k, pi, now) else b.queue), k, pi, now)
  }

  /**
   * Working on the head of the queue. A wait ends at its deadline; a step bound to a station first
   * walks, one grid step per tick, to the station's anchor; an interaction or a chop respects the
   * cooldown since the last one. Every step done is followed by the pause.
   */
  function Run(b: BotState, k: State, pi: nat, now: int): (r: Outcome)
    requires pi < |k.players| && QueueFits(b.queue, |k.stations|)
    ensures |r.kitchen.players| == |k.players| && SameLayout(k.stations, r.kitchen.stations)
    ensures r.kitchen != k ==> r.bot.gapUntil == now + StepGap
    ensures r.bot.gapUntil == b.gapUntil || r.bot.gapUntil == now + StepGap
  {
    if b.queue == [] then Outcome(b, k)
    else
      var e := b.queue[0];
      var p := k.players[pi];
      if e.step == Wait then
        if now >= e.deadline then Outcome(b.(queue := b.queue[1..], gapUntil := now + StepGap), k)
        else Outcome(b, k)
      else if e.station.Some? && !Near(p.x, p.y, k.stations[e.station.value]) then
        var anchor := Anchor(k.stations[e.station.value]);
        Outcome(b.(gapUntil := now + StepGap), MoveTowards(k, pi, anchor.0, anchor.1))
      else if (e.step == InteractAt || e.step == ChopAt) && now - b.lastActionTs < Cooldown then Outcome(b, k)
      else Perform(b, k, pi, now)
  }

  /**
   * The head step, once at its station: a go-to is done; an interaction or a chop presses its key.
   * Having just picked up bread, the bot drops its queue and heads for the assembly.
   */
  function Perform(b: BotState, k: State, pi: nat, now: int): (r: Outcome)
    requires pi < |k.players| && b.queue != [] && b.queue[0].step != Wait
    ensures |r.kitchen.players| == |k.players| && SameLayout(k.stations, r.kitchen.stations)
    ensures r.bot.gapUntil == now + StepGap
    ensures r.bot.lastActionTs == if b.queue[0].step == GoTo then b.lastActionTs else now
    ensures b.queue[0].step == GoTo ==> r.kitchen == k && r.bot.queue == b.queue[1..]
  {
    var e := b.queue[0];
    if e.step == GoTo then Outcome(b.(queue := b.queue[1..], gapUntil := now + StepGap), k)
    else if e.step == InteractAt then
      var k' := Interact(k, pi, now);
      var q' := if TookBread(k.stations, e.station, k'.players[pi].held) then Visit(AssemblyOf(k'.stations), now)
                else b.queue[1..];
      Outcome(BotState(q', now, now + StepGap), k')
    else Outcome(BotState(b.queue[1..], now, now + StepGap), Chop(k, pi))
  }
}
