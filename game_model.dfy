/**
 * The kitchen simulation as the mutable object the game drives: a `GameModel` whose players,
 * stations, orders and score are updated in place. Each method is proved to leave the object
 * in the state the matching function of module Kitchen describes, and to keep the kitchen
 * consistent (`Valid`).
 */
module Game {
  import opened Kitchen
  import KitchenLemmas

  /**
   * The scan that interact and chop share: the nearest station in range, boards only for chop;
   * a later station replaces the current choice only when strictly nearer.
   */
  method ClosestStation(ss: seq<Station>, px: int, py: int, boardsOnly: bool) returns (closest: Option<nat>)
    ensures closest == NearestIn(ss, |ss|, px, py, boardsOnly)
  {
    closest := None;
    var minDistance := 0;
    var i := 0;
    while i < |ss|
      invariant 0 <= i <= |ss|
      invariant closest == NearestIn(ss, i, px, py, boardsOnly)
      invariant closest.Some? ==> closest.value < i && minDistance == Distance(px, py, ss[closest.value])
    {
      var s := ss[i];
      if !boardsOnly || s.kind == CuttingBoard {
        var distance := Abs(px - s.x) + Abs(py - s.y);
        if (closest.None? || distance < minDistance) && distance <= InteractRange {
          minDistance := distance;
          closest := Some(i);
        }
      }
      i := i + 1;
    }
  }

  lemma ExpireStep(os: seq<Order>, n: nat, dt: int)
    requires n < |os|
    ensures Expire(os[..n + 1], dt) == Expire(os[..n], dt) + Countdown(os[n], dt)
  {
    assert os[..n + 1][..n] == os[..n];
  }

  /** Dropping or replacing the first element after a prefix. */
  lemma Splice<T>(done: seq<T>, rest: seq<T>, y: T)
    requires |rest| > 0
    ensures (done + rest)[|done|] == rest[0]
    ensures (done + rest)[..|done|] + (done + rest)[|done| + 1..] == done + rest[1..]
    ensures (done + rest)[|done| := y] == (done + [y]) + rest[1..]
  {
    assert (done + rest)[..|done|] == done;
    assert (done + rest)[|done| + 1..] == rest[1..];
  }

  /**
   * One turn of the countdown loop over `cur`, the orders already counted down (`done`) followed
   * by the rest of `os`: the next order is either dropped or replaced by its decremented copy,
   * and the list has the same shape one order further on.
   */
  lemma CountdownStep(os: seq<Order>, n: nat, dt: int, done: seq<Order>, cur: seq<Order>)
    requires n < |os| && done == Expire(os[..n], dt) && cur == done + os[n..]
    ensures var o := os[n].(timeRemaining := os[n].timeRemaining - dt);
            && |done| < |cur|
            && (o.timeRemaining <= 0 ==>
                  Expire(os[..n + 1], dt) == done && cur[..|done|] + cur[|done| + 1..] == done + os[n + 1..])
            && (o.timeRemaining > 0 ==>
                  Expire(os[..n + 1], dt) == done + [o] && cur[|done| := o] == (done + [o]) + os[n + 1..])
  {
    var o := os[n].(timeRemaining := os[n].timeRemaining - dt);
    ExpireStep(os, n, dt);
    Splice(done, os[n..], o);
    assert os[n..][1..] == os[n + 1..];
  }

  /** Points for a delivered item: counts the chopped vegetables recorded in a burger. */
  method CalculateBurgerPoints(it: Item) returns (points: int)
    ensures points == BurgerPoints(it)
  {
    if it.kind != Burger {
      return 0;
    }
    var bs := it.burgerIngredients;
    var count := 0;
    var i := 0;
    while i < |bs|
      invariant 0 <= i <= |bs|
      invariant count == ChoppedVeggies(bs[..i])
    {
      assert bs[..i + 1][..i] == bs[..i];
      if (bs[i].kind == Tomato || bs[i].kind == Lettuce) && bs[i].isChopped {
        count := count + 1;
      }
      i := i + 1;
    }
    assert bs[..i] == bs;
    if count == 0 {
      points := 10;
    } else if count == 1 {
      points := 15;
    } else {
      points := 20;
    }
  }

  class GameModel {
    var players: seq<Player>
    var stations: seq<Station>
    var orders: seq<Order>
    var score: int

    /** The kitchen this object currently stands for. */
    function Snapshot(): State
      reads this
    {
      Kitchen.State(players, stations, orders, score)
    }

    ghost predicate Valid()
      reads this
    {
      Kitchen.Valid(Snapshot())
    }

    /** One player at (100, 100), the fixed layout, one burger order, no score. */
    constructor ()
      ensures Snapshot() == Initial && Valid()
    {
      players := [Player(100, 100, None)];
      stations := Layout;
      orders := [];
      score := 0;
      new;
      GenerateOrder();
      KitchenLemmas.InitialValid();
    }

    method GenerateOrder()
      modifies this
      ensures Snapshot() == old(Snapshot()).(orders := Kitchen.GenerateOrder(old(orders)))
    {
      if |orders| < MaxOrders {
        orders := orders + [Order([Burger], OrderTime)];
      }
    }

    /** Counts orders down (dropping expired ones), tops them up, and finishes cooking. */
    method Update(deltaTime: int, now: int)
      modifies this
      ensures Snapshot() == Kitchen.Update(old(Snapshot()), deltaTime, now)
      ensures old(Valid()) ==> Valid()
    {
      CountDownOrders(deltaTime);
      if |orders| < MinOrders {
        GenerateOrder();
      }
      CookStoves(now);
      if old(Valid()) {
        KitchenLemmas.UpdatePreservesValid(old(Snapshot()), deltaTime, now);
      }
    }

    /** Each order loses `deltaTime`; one whose time is used up leaves the list where it stands. */
    method CountDownOrders(deltaTime: int)
      modifies this
      ensures Snapshot() == old(Snapshot()).(orders := Expire(old(orders), deltaTime))
    {
      var os := orders;
      var cur := os;
      ghost var done: seq<Order> := [];
      var i := 0;
      for n := 0 to |os|
        invariant i == |done|
        invariant done == Expire(os[..n], deltaTime)
        invariant cur == done + os[n..]
        invariant Snapshot() == old(Snapshot())
      {
        var o := os[n].(timeRemaining := os[n].timeRemaining - deltaTime);
        CountdownStep(os, n, deltaTime, done, cur);
        if o.timeRemaining <= 0 {
          cur := cur[..i] + cur[i + 1..];
        } else {
          cur := cur[i := o];
          done := done + [o];
          i := i + 1;
        }
      }
      assert os[..|os|] == os && os[|os|..] == [];
      orders := cur;
    }

    /** Every stove whose raw patty has cooked long enough now holds a cooked patty. */
    method CookStoves(now: int)
      modifies this
      ensures Snapshot() == old(Snapshot()).(stations := CookAll(old(stations), now))
    {
      var j := 0;
      while j < |stations|
        invariant 0 <= j <= |stations| == |old(stations)|
        invariant forall t :: 0 <= t < j ==> stations[t] == CookStation(old(stations)[t], now)
        invariant forall t :: j <= t < |stations| ==> stations[t] == old(stations)[t]
        invariant players == old(players) && orders == old(orders) && score == old(score)
      {
        var s := stations[j];
        if s.kind == Stove && s.item.Some? && s.item.value.kind == RawPatty && now - s.cookingStart >= s.cookingDuration {
          stations := stations[j := s.(item := Some(NewItem(CookedPatty)), cookingStart := 0)];
        }
        j := j + 1;
      }
    }

    /** One grid step for player `playerIndex`, clamped to the map; any other index is ignored. */
    method MovePlayer(playerIndex: int, dx: int, dy: int)
      modifies this
      ensures Snapshot() == Move(old(Snapshot()), playerIndex, dx, dy)
      ensures old(Valid()) ==> Valid()
    {
      if 0 <= playerIndex < |players| {
        var player := players[playerIndex];
        var newX := Clamp(player.x + dx * GridStep, 0, MaxX);
        var newY := Clamp(player.y + dy * GridStep, 0, MaxY);
        players := players[playerIndex := player.(x := newX, y := newY)];
      }
      if old(Valid()) {
        KitchenLemmas.MovePreservesValid(old(Snapshot()), playerIndex, dx, dy);
      }
    }

    /** The interaction key: the nearest station in range handles the player's hand. */
    method InteractWithStation(playerIndex: int, now: int)
      requires 0 <= |players| + playerIndex
      modifies this
      ensures Snapshot() == Interact(old(Snapshot()), playerIndex, now)
      ensures old(Valid()) ==> Valid()
    {
      ghost var k := Snapshot();
      if Kitchen.Valid(k) {
        KitchenLemmas.InteractPreservesValid(k, playerIndex, now);
      }
      if playerIndex >= |players| {
        return;
      }
      var p := if playerIndex >= 0 then playerIndex else |players| + playerIndex;
      assert ResolvePlayer(playerIndex, |k.players|) == Some(p);
      var player := players[p];
      var closest := ClosestStation(stations, player.x, player.y, false);
      assert closest == NearestIn(k.stations, |k.stations|, k.players[p].x, k.players[p].y, false);
      if closest.Some? {
        assert Interact(k, playerIndex, now) == Handle(k, p, closest.value, now);
        HandleStationInteraction(p, closest.value, now);
      }
    }

    /** Dispatch on the station's kind. */
    method HandleStationInteraction(p: nat, si: nat, now: int)
      requires p < |players| && si < |stations|
      modifies this
      ensures Snapshot() == Handle(old(Snapshot()), p, si, now)
    {
      match stations[si].kind {
        case IngredientSpawn => InteractSpawn(p, si);
        case CuttingBoard => InteractBoard(p, si);
        case Stove => InteractStove(p, si, now);
        case Assembly => InteractAssembly(p, si);
        case Delivery => InteractDelivery(p);
      }
    }

    method InteractSpawn(p: nat, si: nat)
      requires p < |players| && si < |stations|
      modifies this
      ensures Snapshot() == Put(old(Snapshot()), p, si, SpawnRule(old(players[p].held), old(stations[si])))
    {
      var player := players[p];
      var station := stations[si];
      if player.held.None? && station.ingredient.Some? {
        players := players[p := player.(held := Some(NewItem(station.ingredient.value)))];
      }
    }

    method InteractBoard(p: nat, si: nat)
      requires p < |players| && si < |stations|
      modifies this
      ensures Snapshot() == Put(old(Snapshot()), p, si, BoardRule(old(players[p].held), old(stations[si])))
    {
      var player := players[p];
      var station := stations[si];
      if player.held.Some? && station.item.None? {
        if player.held.value.kind == Tomato || player.held.value.kind == Lettuce {
          stations := stations[si := station.(item := player.held)];
          players := players[p := player.(held := None)];
        }
      } else if station.item.Some? && player.held.None? {
        players := players[p := player.(held := station.item)];
        stations := stations[si := station.(item := None)];
      }
    }

    method InteractStove(p: nat, si: nat, now: int)
      requires p < |players| && si < |stations|
      modifies this
      ensures Snapshot() == Put(old(Snapshot()), p, si, StoveRule(old(players[p].held), old(stations[si]), now))
    {
      var player := players[p];
      var station := stations[si];
      if player.held.Some? && station.item.None? {
        if player.held.value.kind == RawPatty {
          stations := stations[si := station.(item := player.held, cookingStart := now)];
          players := players[p := player.(held := None)];
        }
      } else if station.item.Some? && player.held.None? {
        players := players[p := player.(held := station.item)];
        stations := stations[si := station.(item := None, cookingStart := 0)];
      }
    }

    /** Puts the held item on top of the assembly stack. */
    method Deposit(p: nat, si: nat)
      requires p < |players| && si < |stations| && players[p].held.Some?
      modifies this
      ensures players == old(players)[p := old(players[p]).(held := None)]
      ensures stations == old(stations)[si := old(stations[si]).(contents := old(stations[si].contents) + [old(players[p].held.value)])]
      ensures orders == old(orders) && score == old(score)
    {
      var station := stations[si];
      stations := stations[si := station.(contents := station.contents + [players[p].held.value])];
      players := players[p := players[p].(held := None)];
    }

    method InteractAssembly(p: nat, si: nat)
      requires p < |players| && si < |stations|
      modifies this
      ensures Snapshot() == Put(old(Snapshot()), p, si, AssemblyRule(old(players[p].held), old(stations[si])))
    {
      var player := players[p];
      var station := stations[si];
      if station.item.Some? && station.item.value.kind == Burger {
        if player.held.None? {
          players := players[p := player.(held := station.item)];
          stations := stations[si := station.(item := None)];
        }
        return;
      }
      if player.held.Some? {
        var held := player.held.value;
        if |station.contents| == 0 {
          if held.kind == Bread {
            Deposit(p, si);
          } else {
            return;
          }
        } else {
          if held.kind == CookedPatty {
            if HasKind(station.contents, CookedPatty) {
              return;
            }
            Deposit(p, si);
          } else if held.kind == Tomato {
            if !held.chopped {
              return;
            }
            if HasKind(station.contents, Tomato) {
              return;
            }
            Deposit(p, si);
          } else if held.kind == Lettuce {
            if !held.chopped {
              return;
            }
            if HasKind(station.contents, Lettuce) {
              return;
            }
            Deposit(p, si);
          } else {
            return;
          }
        }
        if BurgerReady(stations[si].contents) {
          stations := stations[si := stations[si].(item := Some(NewItem(Burger)), contents := [])];
        }
      } else if |station.contents| > 0 {
        var last := station.contents[|station.contents| - 1];
        stations := stations[si := station.(contents := station.contents[..|station.contents| - 1])];
        players := players[p := player.(held := Some(last))];
      }
    }

    /** Delivery: a held burger fulfils the first order asking for one. */
    method InteractDelivery(p: nat)
      requires p < |players|
      modifies this
      ensures var c := DeliveryRule(old(players[p].held), old(orders), old(score));
              Snapshot() == old(Snapshot()).(players := old(players)[p := old(players[p]).(held := c.held)],
                                             orders := c.orders, score := c.score)
    {
      var player := players[p];
      if player.held.Some? && player.held.value.kind == Burger {
        var i := 0;
        while i < |orders|
          invariant 0 <= i <= |orders|
          invariant forall j :: 0 <= j < i ==> Burger !in orders[j].itemsNeeded
          invariant players == old(players) && orders == old(orders) && score == old(score) && stations == old(stations)
        {
          if Burger in orders[i].itemsNeeded {
            orders := orders[..i] + orders[i + 1..];
            var points := CalculateBurgerPoints(player.held.value);
            score := score + points;
            players := players[p := player.(held := None)];
            return;
          }
          i := i + 1;
        }
      }
    }

    /** The chop key: the nearest cutting board in range chops an unchopped tomato or lettuce. */
    method ChopAtStation(playerIndex: int)
      requires 0 <= |players| + playerIndex
      modifies this
      ensures Snapshot() == Chop(old(Snapshot()), playerIndex)
      ensures old(Valid()) ==> Valid()
    {
      ghost var k := Snapshot();
      if Kitchen.Valid(k) {
        KitchenLemmas.ChopPreservesValid(k, playerIndex);
      }
      if playerIndex >= |players| {
        return;
      }
      var p := if playerIndex >= 0 then playerIndex else |players| + playerIndex;
      assert ResolvePlayer(playerIndex, |k.players|) == Some(p);
      var player := players[p];
      var closest := ClosestStation(stations, player.x, player.y, true);
      assert closest == NearestIn(k.stations, |k.stations|, k.players[p].x, k.players[p].y, true);
      if closest.Some? && stations[closest.value].item.Some? {
        var b := closest.value;
        var it := stations[b].item.value;
        ghost var chopped := k.(stations := k.stations[b := k.stations[b].(item := Some(ChopItem(it)))]);
        assert Chop(k, playerIndex) == chopped;
        if (it.kind == Tomato || it.kind == Lettuce) && !it.chopped {
          stations := stations[b := stations[b].(item := Some(it.(chopped := true)))];
        } else {
          assert k.stations[b := k.stations[b].(item := Some(ChopItem(it)))] == k.stations;
        }
      }
    }
  }
}
