/**
 * Properties of the kitchen rules: what each interaction moves, the invariants every operation
 * keeps, and the consequences for scoring and chopping.
 */
module KitchenLemmas {
  import opened Kitchen

  /** The assembly outcomes, case by case. */
  lemma AssemblyOutcome(held: Option<Item>, st: Station)
    ensures var r := AssemblyRule(held, st);
      && (HoldsBurger(st) ==>
            r == if held.None? then Exchange(st.item, st.(item := None)) else Exchange(held, st))
      && (!HoldsBurger(st) && held.Some? && !Accepts(st.contents, held.value) ==> r == Exchange(held, st))
      && (!HoldsBurger(st) && held.Some? && Accepts(st.contents, held.value) ==>
            r.held.None? &&
            r.station == if BurgerReady(st.contents + [held.value])
                         then st.(item := Some(NewItem(Burger)), contents := [])
                         else st.(contents := st.contents + [held.value]))
      && (!HoldsBurger(st) && held.None? && |st.contents| > 0 ==>
            r == Exchange(Some(st.contents[|st.contents| - 1]), st.(contents := st.contents[..|st.contents| - 1])))
      && (!HoldsBurger(st) && held.None? && |st.contents| == 0 ==> r == Exchange(held, st))
  {
  }

  /** Taking the item out of the slot keeps what hand and station own together. */
  lemma TakeOwned(st: Station)
    ensures Owned(Exchange(st.item, st.(item := None))) == Owned(Exchange(None, st))
  {
  }

  /** Depositing the held item on the stack keeps what hand and station own together. */
  lemma DepositOwned(h: Item, st: Station)
    ensures Owned(Exchange(None, st.(contents := st.contents + [h]))) == Owned(Exchange(Some(h), st))
  {
    assert multiset(st.contents + [h]) == multiset(st.contents) + multiset{h};
  }

  /** Taking the top of the stack keeps what hand and station own together. */
  lemma PopOwned(st: Station)
    requires |st.contents| > 0
    ensures var n := |st.contents| - 1;
            Owned(Exchange(Some(st.contents[n]), st.(contents := st.contents[..n]))) == Owned(Exchange(None, st))
  {
    var n := |st.contents| - 1;
    assert st.contents == st.contents[..n] + [st.contents[n]];
  }

  /**
   * The assembly moves items between hand, slot and stack without creating or losing any,
   * except the deposit that completes a burger: then the stack and the held item are replaced
   * by one new burger.
   */
  lemma {:induction false} AssemblyConserves(held: Option<Item>, st: Station)
    ensures var r := AssemblyRule(held, st);
      || Owned(r) == Owned(Exchange(held, st))
      || (&& r.held.None? && r.station.item == Some(NewItem(Burger)) && r.station.contents == []
          && held.Some? && !HoldsBurger(st) && Accepts(st.contents, held.value)
          && BurgerReady(st.contents + [held.value]))
  {
    var r := AssemblyRule(held, st);
    if HoldsBurger(st) {
      if held.None? {
        assert r == Exchange(st.item, st.(item := None));
        TakeOwned(st);
      } else {
        assert r == Exchange(held, st);
      }
    } else if held.Some? {
      var c := st.contents + [held.value];
      if !Accepts(st.contents, held.value) {
        assert r == Exchange(held, st);
      } else if !BurgerReady(c) {
        assert r == Exchange(None, st.(contents := c));
        DepositOwned(held.value, st);
      } else {
        assert r == Exchange(None, st.(item := Some(NewItem(Burger)), contents := []));
      }
    } else if |st.contents| > 0 {
      var n := |st.contents| - 1;
      assert r == Exchange(Some(st.contents[n]), st.(contents := st.contents[..n]));
      PopOwned(st);
    } else {
      assert r == Exchange(held, st);
    }
  }

  /** A finished burger stays in the slot, the stack stays empty, until an empty hand takes it. */
  lemma AssemblyValid(held: Option<Item>, st: Station)
    requires st.kind == Assembly && ValidStation(st) && PlainOpt(held)
    ensures ValidStation(AssemblyRule(held, st).station) && PlainOpt(AssemblyRule(held, st).held)
  {
    var r := AssemblyRule(held, st);
    if !HoldsBurger(st) && held.None? && |st.contents| > 0 {
      var n := |st.contents| - 1;
      assert r.held == Some(st.contents[n]);
      assert forall j :: 0 <= j < n ==> st.contents[..n][j] == st.contents[j];
    } else if !HoldsBurger(st) && held.Some? && Accepts(st.contents, held.value) {
      var c := st.contents + [held.value];
      assert forall j :: 0 <= j < |c| ==> c[j] == if j < |st.contents| then st.contents[j] else held.value;
    }
  }

  lemma SpawnValid(held: Option<Item>, st: Station)
    requires st.kind == IngredientSpawn && ValidStation(st) && PlainOpt(held)
    ensures ValidStation(SpawnRule(held, st).station) && PlainOpt(SpawnRule(held, st).held)
  {
  }

  /** Every interaction keeps the kitchen consistent. */
  lemma {:induction false} InteractPreservesValid(k: State, pi: int, now: int)
    requires 0 <= |k.players| + pi && Valid(k)
    ensures Valid(Interact(k, pi, now))
  {
    match ResolvePlayer(pi, |k.players|)
    case None =>
    case Some(p) =>
      match NearestIn(k.stations, |k.stations|, k.players[p].x, k.players[p].y, false)
      case None =>
      case Some(si) => HandlePreservesValid(k, p, si, now);
  }

  lemma {:induction false} HandlePreservesValid(k: State, p: nat, si: nat, now: int)
    requires p < |k.players| && si < |k.stations| && Valid(k)
    ensures Valid(Handle(k, p, si, now))
  {
    var pl := k.players[p];
    var st := k.stations[si];
    assert PlainOpt(pl.held) && ValidStation(st);
    var e: Exchange;
    match st.kind {
      case IngredientSpawn =>
        e := SpawnRule(pl.held, st);
        SpawnValid(pl.held, st);
      case CuttingBoard =>
        e := BoardRule(pl.held, st);
      case Stove =>
        e := StoveRule(pl.held, st, now);
      case Assembly =>
        e := AssemblyRule(pl.held, st);
        AssemblyValid(pl.held, st);
      case Delivery =>
        var c := DeliveryRule(pl.held, k.orders, k.score);
        assert |c.orders| <= |k.orders|;
        return;
    }
    assert Handle(k, p, si, now) == Put(k, p, si, e);
    PutPreservesValid(k, p, si, e);
  }

  lemma PutPreservesValid(k: State, p: nat, si: nat, e: Exchange)
    requires p < |k.players| && si < |k.stations| && Valid(k)
    requires ValidStation(e.station) && PlainOpt(e.held)
    ensures Valid(Put(k, p, si, e))
  {
    var r := Put(k, p, si, e);
    forall i | 0 <= i < |r.players| ensures PlainOpt(r.players[i].held) {
      if i != p { assert r.players[i] == k.players[i]; }
    }
    forall i | 0 <= i < |r.stations| ensures ValidStation(r.stations[i]) {
      if i != si { assert r.stations[i] == k.stations[i]; }
    }
  }

  /** Chopping keeps the kitchen consistent. */
  lemma {:induction false} ChopPreservesValid(k: State, pi: int)
    requires 0 <= |k.players| + pi && Valid(k)
    ensures Valid(Chop(k, pi))
  {
    var r := Chop(k, pi);
    forall i | 0 <= i < |r.stations| ensures ValidStation(r.stations[i]) {
      assert ValidStation(k.stations[i]);
    }
  }

  /** Moving keeps the kitchen consistent. */
  lemma MovePreservesValid(k: State, pi: int, dx: int, dy: int)
    requires Valid(k)
    ensures Valid(Move(k, pi, dx, dy))
  {
    var r := Move(k, pi, dx, dy);
    forall i | 0 <= i < |r.players| ensures PlainOpt(r.players[i].held) {
      assert PlainOpt(k.players[i].held);
    }
  }

  /** The update keeps the kitchen consistent, in particular never more than three orders. */
  lemma {:induction false} UpdatePreservesValid(k: State, dt: int, now: int)
    requires Valid(k)
    ensures Valid(Update(k, dt, now))
  {
    var r := Update(k, dt, now);
    forall i | 0 <= i < |r.stations| ensures ValidStation(r.stations[i]) {
      assert ValidStation(k.stations[i]);
    }
  }

  /** The kitchen the game starts with is consistent. */
  lemma InitialValid()
    ensures Valid(Initial)
  {
  }

  /**
   * Interacting never scores anything but 10 in a consistent kitchen: the assembly makes its
   * burger without recording its ingredients, so the points table's 15 and 20 are never reached.
   * A score change is exactly one delivered burger, with one order gone.
   */
  lemma {:induction false} DeliveryScoresTen(k: State, pi: int, now: int)
    requires 0 <= |k.players| + pi && Valid(k)
    ensures var r := Interact(k, pi, now);
      || (r.score == k.score && r.orders == k.orders)
      || (r.score == k.score + 10 && |r.orders| == |k.orders| - 1)
  {
    match ResolvePlayer(pi, |k.players|)
    case None =>
    case Some(p) =>
      match NearestIn(k.stations, |k.stations|, k.players[p].x, k.players[p].y, false)
      case None =>
      case Some(si) =>
        assert PlainOpt(k.players[p].held);
        if k.stations[si].kind == Delivery {
          var c := DeliveryRule(k.players[p].held, k.orders, k.score);
          if c != Counter(k.players[p].held, k.orders, k.score) {
            assert BurgerPoints(k.players[p].held.value) == 10;
          }
        }
  }

  /** The nearest-station scan only looks at positions and kinds. */
  lemma {:induction false} NearestSameLayout(ss: seq<Station>, ts: seq<Station>, n: nat, px: int, py: int, boardsOnly: bool)
    requires SameLayout(ss, ts) && n <= |ss|
    ensures NearestIn(ss, n, px, py, boardsOnly) == NearestIn(ts, n, px, py, boardsOnly)
  {
    if n > 0 {
      NearestSameLayout(ss, ts, n - 1, px, py, boardsOnly);
      var b := NearestIn(ss, n - 1, px, py, boardsOnly);
      SpotAgrees(ss[n - 1], ts[n - 1], px, py, boardsOnly);
      if b.Some? {
        SpotAgrees(ss[b.value], ts[b.value], px, py, boardsOnly);
      }
    }
  }

  lemma SpotAgrees(s: Station, t: Station, px: int, py: int, boardsOnly: bool)
    requires SameSpot(s, t)
    ensures InRange(px, py, s, boardsOnly) == InRange(px, py, t, boardsOnly)
    ensures Distance(px, py, s) == Distance(px, py, t)
  {
  }

  /** Chopping twice in a row is chopping once. */
  lemma {:induction false} ChopIdempotent(k: State, pi: int)
    requires 0 <= |k.players| + pi
    ensures Chop(Chop(k, pi), pi) == Chop(k, pi)
  {
    var k1 := Chop(k, pi);
    match ResolvePlayer(pi, |k.players|)
    case None =>
    case Some(p) =>
      NearestSameLayout(k.stations, k1.stations, |k.stations|, k.players[p].x, k.players[p].y, true);
  }

  /** The positions of the orders that still have time left after a countdown of `dt`, in list order. */
  function Kept(os: seq<Order>, dt: int): seq<nat>
  {
    if os == [] then []
    else Kept(os[..|os| - 1], dt) + (if os[|os| - 1].timeRemaining - dt > 0 then [|os| - 1] else [])
  }

  /** Surviving positions are in range and strictly increasing. */
  lemma {:induction false} KeptAscending(os: seq<Order>, dt: int)
    ensures forall i :: 0 <= i < |Kept(os, dt)| ==> Kept(os, dt)[i] < |os|
    ensures forall i, j :: 0 <= i < j < |Kept(os, dt)| ==> Kept(os, dt)[i] < Kept(os, dt)[j]
  {
    if os != [] {
      var n := |os| - 1;
      var f0 := Kept(os[..n], dt);
      KeptAscending(os[..n], dt);
      assert forall i :: 0 <= i < |f0| ==> f0[i] < n;
      assert Kept(os, dt) == f0 + (if os[n].timeRemaining - dt > 0 then [n] else []);
    }
  }

  /** A position is kept exactly when its order has time left after the decrement. */
  lemma {:induction false} KeptMembers(os: seq<Order>, dt: int)
    ensures forall j :: 0 <= j < |os| ==> (j in Kept(os, dt) <==> os[j].timeRemaining - dt > 0)
  {
    if os != [] {
      var n := |os| - 1;
      var pre := os[..n];
      KeptMembers(pre, dt);
      KeptAscending(pre, dt);
      var f0 := Kept(pre, dt);
      assert Kept(os, dt) == f0 + (if os[n].timeRemaining - dt > 0 then [n] else []);
      assert forall i :: 0 <= i < |f0| ==> f0[i] < n;
      assert n !in f0;
      forall j | 0 <= j < n ensures pre[j] == os[j] { }
    }
  }

  /** The countdown's result is the decremented orders at the kept positions. */
  lemma {:induction false} ExpireAtKept(os: seq<Order>, dt: int)
    ensures var r := Expire(os, dt);
            var f := Kept(os, dt);
            && |f| == |r|
            && (forall i :: 0 <= i < |f| ==>
                  f[i] < |os| && r[i] == os[f[i]].(timeRemaining := os[f[i]].timeRemaining - dt))
  {
    KeptAscending(os, dt);
    if os != [] {
      var n := |os| - 1;
      var pre := os[..n];
      ExpireAtKept(pre, dt);
      KeptAscending(pre, dt);
      var r0, f0 := Expire(pre, dt), Kept(pre, dt);
      assert Expire(os, dt) == r0 + Countdown(os[n], dt);
      assert Kept(os, dt) == f0 + (if os[n].timeRemaining - dt > 0 then [n] else []);
      forall i | 0 <= i < |f0| ensures pre[f0[i]] == os[f0[i]] { }
    }
  }

  /**
   * The countdown is an order-preserving filter: its result lists, in their original order and
   * each once, the decremented copies of exactly the orders whose time stays positive.
   */
  lemma ExpireInOrder(os: seq<Order>, dt: int)
    ensures var r := Expire(os, dt);
            var f := Kept(os, dt);
            && |f| == |r|
            && (forall i :: 0 <= i < |f| ==>
                  f[i] < |os| && r[i] == os[f[i]].(timeRemaining := os[f[i]].timeRemaining - dt))
            && (forall i, j :: 0 <= i < j < |f| ==> f[i] < f[j])
            && (forall j :: 0 <= j < |os| ==> (j in f <==> os[j].timeRemaining - dt > 0))
  {
    KeptAscending(os, dt);
    KeptMembers(os, dt);
    ExpireAtKept(os, dt);
  }

  /** An order whose decremented time is still positive survives the countdown. */
  lemma {:induction false} ExpireKeeps(os: seq<Order>, dt: int)
    ensures forall j :: 0 <= j < |os| && os[j].timeRemaining - dt > 0 ==>
              os[j].(timeRemaining := os[j].timeRemaining - dt) in Expire(os, dt)
  {
    if os != [] {
      var n := |os| - 1;
      var pre := os[..n];
      ExpireKeeps(pre, dt);
      assert Expire(os, dt) == Expire(pre, dt) + Countdown(os[n], dt);
      forall j | 0 <= j < |os| && os[j].timeRemaining - dt > 0
        ensures os[j].(timeRemaining := os[j].timeRemaining - dt) in Expire(os, dt)
      {
        if j < n {
          assert pre[j] == os[j];
        }
      }
    }
  }

  /** Only orders of the list, decremented and with time left, come out of the countdown. */
  lemma {:induction false} ExpireOnly(os: seq<Order>, dt: int)
    ensures forall o :: o in Expire(os, dt) ==>
              && o.timeRemaining > 0
              && exists j :: 0 <= j < |os| && o == os[j].(timeRemaining := os[j].timeRemaining - dt)
  {
    if os != [] {
      var n := |os| - 1;
      var pre := os[..n];
      ExpireOnly(pre, dt);
      var last := Countdown(os[n], dt);
      assert Expire(os, dt) == Expire(pre, dt) + last;
      forall o | o in Expire(os, dt)
        ensures && o.timeRemaining > 0
                && exists j :: 0 <= j < |os| && o == os[j].(timeRemaining := os[j].timeRemaining - dt)
      {
        if o in Expire(pre, dt) {
          var j :| 0 <= j < n && o == pre[j].(timeRemaining := pre[j].timeRemaining - dt);
          assert pre[j] == os[j];
        } else {
          assert o in last;
        }
      }
    }
  }

  /**
   * After an update there is at least one order and at most three; an order is added exactly
   * when fewer than two survived the countdown.
   */
  lemma UpdateOrderBounds(k: State, dt: int, now: int)
    requires |k.orders| <= MaxOrders
    ensures 1 <= |Update(k, dt, now).orders| <= MaxOrders
    ensures var live := Expire(k.orders, dt);
            Update(k, dt, now).orders == if |live| < MinOrders then live + [Order([Burger], OrderTime)] else live
  {
  }
}
