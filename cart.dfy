/** One elevator car: its door/motion state, its three ordered level sets,
    the response-time estimate the dispatcher scores it with, and the
    state-machine transition applied on every tick. */
module Cart {
  import opened Wrappers

  /** The six car states, in the declaration order of the enum. */
  datatype CartState = Idle | IdleOpen | Up | UpOpen | Down | DownOpen

  /** The integer value of each enum member. */
  function Code(st: CartState): (n: int)
    ensures 0 <= n <= 5
  {
    match st
    case Idle => 0
    case IdleOpen => 1
    case Up => 2
    case UpOpen => 3
    case Down => 4
    case DownOpen => 5
  }

  /** The enum member with a given integer value, if there is one. */
  function OfCode(n: int): (r: Option<CartState>)
    ensures r.Some? <==> 0 <= n <= 5
  {
    if n == 0 then Some(Idle)
    else if n == 1 then Some(IdleOpen)
    else if n == 2 then Some(Up)
    else if n == 3 then Some(UpOpen)
    else if n == 4 then Some(Down)
    else if n == 5 then Some(DownOpen)
    else None
  }

  lemma CodeRoundTrip(st: CartState, n: int)
    ensures OfCode(Code(st)) == Some(st)
    ensures OfCode(n).Some? ==> Code(OfCode(n).value) == n
  {
  }

  function Abs(x: int): (r: int)
    ensures r >= 0 && (r == x || r == -x)
  {
    if x < 0 then -x else x
  }

  function Max(a: int, b: int): (r: int)
    ensures r >= a && r >= b && (r == a || r == b)
  {
    if a < b then b else a
  }

  function Min(a: int, b: int): (r: int)
    ensures r <= a && r <= b && (r == a || r == b)
  {
    if a < b then a else b
  }

  /** A set that is not empty has an element. */
  lemma NonEmptyHasElement(s: set<int>)
    requires s != {}
    ensures exists y :: y in s
  {
    if forall y :: y !in s {
      assert false;
    }
  }

  /** A finite non-empty set of integers has a least element. */
  lemma {:induction false} LeastExists(s: set<int>)
    requires s != {}
    ensures exists m :: m in s && forall x :: x in s ==> m <= x
  {
    NonEmptyHasElement(s);
    var y :| y in s;
    if s == {y} {
      assert forall x :: x in s ==> x == y;
    } else {
      var rest := s - {y};
      LeastExists(rest);
      var m :| m in rest && forall x :: x in rest ==> m <= x;
      var least := if y < m then y else m;
      forall x | x in s
        ensures least <= x
      {
        if x != y {
          assert x in rest;
        }
      }
      assert least in s;
    }
  }

  /** A finite non-empty set of integers has a greatest element. */
  lemma {:induction false} GreatestExists(s: set<int>)
    requires s != {}
    ensures exists m :: m in s && forall x :: x in s ==> x <= m
  {
    NonEmptyHasElement(s);
    var y :| y in s;
    if s == {y} {
      assert forall x :: x in s ==> x == y;
    } else {
      var rest := s - {y};
      GreatestExists(rest);
      var m :| m in rest && forall x :: x in rest ==> x <= m;
      var greatest := if m < y then y else m;
      forall x | x in s
        ensures x <= greatest
      {
        if x != y {
          assert x in rest;
        }
      }
      assert greatest in s;
    }
  }

  /** `SortedSet<int>.Min`: the least element, and `default(int)`, that is 0,
      when the set is empty. */
  function SortedMin(s: set<int>): (m: int)
    ensures s == {} ==> m == 0
    ensures s != {} ==> m in s && forall x :: x in s ==> m <= x
  {
    if s == {} then 0
    else
      LeastExists(s);
      var m :| m in s && forall x :: x in s ==> m <= x;
      m
  }

  /** `SortedSet<int>.Max`: the greatest element, and 0 when the set is empty. */
  function SortedMax(s: set<int>): (m: int)
    ensures s == {} ==> m == 0
    ensures s != {} ==> m in s && forall x :: x in s ==> x <= m
  {
    if s == {} then 0
    else
      GreatestExists(s);
      var m :| m in s && forall x :: x in s ==> x <= m;
      m
  }

  /** The idiom `set.Count == 0 ? pos : set.Max`. */
  function MaxOr(s: set<int>, pos: int): (m: int)
    ensures s == {} ==> m == pos
    ensures s != {} ==> m in s && forall x :: x in s ==> x <= m
  {
    if s == {} then pos else SortedMax(s)
  }

  /** The idiom `set.Count == 0 ? pos : set.Min`. */
  function MinOr(s: set<int>, pos: int): (m: int)
    ensures s == {} ==> m == pos
    ensures s != {} ==> m in s && forall x :: x in s ==> m <= x
  {
    if s == {} then pos else SortedMin(s)
  }

  /** The state of one car as a value: position, state, the floors it stops
      at whatever the direction (`stopLevels`), and the hall calls assigned to
      it going up (`upLevels`) and going down (`downLevels`). */
  datatype CartData = CartData(pos: int, state: CartState, stops: set<int>, ups: set<int>, downs: set<int>)

  predicate Rising(st: CartState) { st == Up || st == UpOpen }
  predicate Falling(st: CartState) { st == Down || st == DownOpen }

  /** The car is committed to a direction that takes it to `level`. */
  predicate HeadingFor(c: CartData, level: int)
  {
    (Rising(c.state) && c.pos < level) || (Falling(c.state) && c.pos > level)
  }

  /** How far the car must travel before it reaches `level` for a call in
      direction `up` (`GetResponseTime`). Idle cars go straight there; a car
      already heading for the level in the caller's direction picks it up on
      the way; any other car first finishes its sweep to the farthest pending
      level (and, for a call in its own direction behind it, also the sweep
      back) before coming to the level. As in the source, the lowest level of
      a rising car and every lowest level of a falling car read the
      minimum of `upLevels` where the second operand was evidently meant to
      read `downLevels`. */
  function ResponseTime(c: CartData, level: int, up: bool): (r: int)
    ensures r >= 0
    ensures (c.state == Idle || c.state == IdleOpen) ==> r == Abs(c.pos - level)
    ensures Rising(c.state) && up && c.pos < level ==> r == level - c.pos
    ensures Falling(c.state) && !up && c.pos > level ==> r == c.pos - level
    ensures HeadingFor(c, level) && up == Rising(c.state) ==> r == Abs(c.pos - level)
  {
    match c.state
    case Idle | IdleOpen => Abs(c.pos - level)
    case Up | UpOpen =>
      if up then
        if c.pos < level then Abs(c.pos - level)
        else
          var highest := Max(Max(MaxOr(c.ups, c.pos), MaxOr(c.downs, c.pos)), MaxOr(c.stops, c.pos));
          // As written: the second operand takes upLevels.Min, not downLevels.Min.
          var lowest := Min(MinOr(c.ups, c.pos), if c.downs == {} then c.pos else SortedMin(c.ups));
          Abs(c.pos - highest) + Abs(highest - lowest) + Abs(lowest - level)
      else
        var highest := Max(Max(MaxOr(c.ups, c.pos), MaxOr(c.downs, c.pos)), MaxOr(c.stops, c.pos));
        Abs(c.pos - highest) + Abs(highest - level)
    case Down | DownOpen =>
      if !up then
        if c.pos > level then Abs(c.pos - level)
        else
          var highest := Max(MaxOr(c.ups, c.pos), MaxOr(c.downs, c.pos));
          // As written: upLevels.Min where downLevels.Min was meant.
          var lowest := Min(MinOr(c.ups, c.pos), if c.downs == {} then c.pos else SortedMin(c.ups));
          var lowest' := Min(lowest, MinOr(c.stops, c.pos));
          Abs(c.pos - lowest') + Abs(lowest' - highest) + Abs(highest - level)
      else
        // As written: upLevels.Min where downLevels.Min was meant.
        var lowest := Min(MinOr(c.ups, c.pos), if c.downs == {} then c.pos else SortedMin(c.ups));
        var lowest' := Min(lowest, MinOr(c.stops, c.pos));
        Abs(c.pos - lowest') + Abs(lowest' - level)
  }

  /** A rising car asked about a down call travels to its highest pending
      level `h` and then back down to the call: `h` is the largest of the
      three sets' maxima, where an empty set stands for the car's own
      position. */
  lemma {:induction false} RisingDownCallCost(c: CartData, level: int, h: int)
    requires Rising(c.state)
    requires forall x :: x in c.stops + c.ups + c.downs ==> x <= h
    requires c.stops == {} || c.ups == {} || c.downs == {} ==> c.pos <= h
    requires h in c.stops + c.ups + c.downs || (h == c.pos && (c.stops == {} || c.ups == {} || c.downs == {}))
    ensures ResponseTime(c, level, false) == Abs(c.pos - h) + Abs(h - level)
  {
    var highest := Max(Max(MaxOr(c.ups, c.pos), MaxOr(c.downs, c.pos)), MaxOr(c.stops, c.pos));
    assert highest == h by {
      assert highest <= h;
      if h in c.stops {
        assert h <= MaxOr(c.stops, c.pos);
      } else if h in c.ups {
        assert h <= MaxOr(c.ups, c.pos);
      } else if h in c.downs {
        assert h <= MaxOr(c.downs, c.pos);
      } else if c.stops == {} {
        assert h <= MaxOr(c.stops, c.pos);
      } else if c.ups == {} {
        assert h <= MaxOr(c.ups, c.pos);
      } else {
        assert h <= MaxOr(c.downs, c.pos);
      }
    }
  }

  /** A falling car asked about an up call: because of the `upLevels.Min`
      slip, only whether `downLevels` is empty matters, never which floors
      it holds. */
  lemma FallingUpCallIgnoresDownFloors(c: CartData, level: int, downs': set<int>)
    requires Falling(c.state)
    requires (c.downs == {}) == (downs' == {})
    ensures ResponseTime(c, level, true) == ResponseTime(c.(downs := downs'), level, true)
  {
  }

  /** A car moving up at floor 3 towards floor 8: an up call at floor 6 is
      on its way. */
  lemma SweepAbsorption()
    ensures ResponseTime(CartData(3, Up, {8}, {}, {}), 6, true) == 3
  {
  }

  /** The same car asked about a down call at floor 2 first goes up to 8. */
  lemma ReversalCost()
    ensures ResponseTime(CartData(3, Up, {8}, {}, {}), 2, false) == 11
  {
  }

  /** The `upLevels.Min` slip: with no up calls but a down call at floor 1,
      the car's lowest level reads as 0 (the default of an empty set), so the
      estimate is 8 where the down call at 1 would give 6. */
  lemma RisingLowestSlip()
    ensures ResponseTime(CartData(5, Up, {}, {}, {1}), 3, true) == 8
  {
    assert SortedMin({}) == 0;
    assert MaxOr({1}, 5) == 1;
  }

  /** One tick of the car's state machine (the second `switch` of the car
      coroutine), as a value: the new position, state and level sets. */
  function Tick(c: CartData): (r: CartData)
    // the position moves one floor in a moving state and never otherwise
    ensures r.pos == (if c.state == Up then c.pos + 1 else if c.state == Down then c.pos - 1 else c.pos)
    // a tick only ever removes levels, and only the floor the car is at
    ensures r.stops <= c.stops && r.ups <= c.ups && r.downs <= c.downs
    ensures c.stops - r.stops <= {r.pos} && c.ups - r.ups <= {r.pos} && c.downs - r.downs <= {r.pos}
    ensures c.state == IdleOpen ==> r == c.(state := Idle)
    ensures c.state == Idle && c.ups != {} && SortedMin(c.ups) == c.pos ==>
              r == c.(state := UpOpen, ups := c.ups - {c.pos})
    ensures c.state == Up && c.pos + 1 in c.ups ==>
              r == CartData(c.pos + 1, UpOpen, c.stops - {c.pos + 1}, c.ups - {c.pos + 1}, c.downs)
    ensures c.state == Down && c.pos - 1 in c.downs ==>
              r == CartData(c.pos - 1, DownOpen, c.stops - {c.pos - 1}, c.ups, c.downs - {c.pos - 1})
    // doors opening at a floor: a removed ride or call is served where the car stands
    ensures r.state == IdleOpen ==> r.stops == {} && r.ups == {} && r.downs == {}
    ensures c.state == Idle ==> r.stops == c.stops
  {
    match c.state
    case Idle =>
      if c.ups != {} then
        var begin := SortedMin(c.ups);
        if begin < c.pos then c.(state := Down)
        else if begin == c.pos then c.(ups := c.ups - {c.pos}, state := UpOpen)
        else c.(state := Up)
      else if c.downs != {} then
        var end := SortedMax(c.downs);
        if end > c.pos then c.(state := Up)
        else if end == c.pos then c.(downs := c.downs - {c.pos}, state := DownOpen)
        else c.(state := Down)
      else c.(state := Idle)
    case Up =>
      var p := c.pos + 1;
      if p in c.ups then
        CartData(p, UpOpen, c.stops - {p}, c.ups - {p}, c.downs)
      else if p in c.stops then
        var stops := c.stops - {p};
        if stops == {} && c.ups == {} && c.downs == {} then
          CartData(p, IdleOpen, stops, c.ups, c.downs)
        else if stops == {} then
          var highest := Max(MaxOr(c.ups, p), MaxOr(c.downs, p));
          if highest > p then CartData(p, UpOpen, stops, c.ups, c.downs)
          else if highest == p then CartData(p, DownOpen, stops, c.ups, c.downs - {p})
          // As written: no state is assigned when highest < pos, so the car keeps rising.
          else CartData(p, Up, stops, c.ups, c.downs)
        else CartData(p, UpOpen, stops, c.ups, c.downs)
      else if p in c.downs && p == SortedMax(c.downs) && c.stops == {} && (c.ups == {} || SortedMax(c.ups) < p) then
        CartData(p, DownOpen, c.stops, c.ups, c.downs - {p})
      else CartData(p, Up, c.stops, c.ups, c.downs)
    case Down =>
      var p := c.pos - 1;
      if p in c.downs then
        CartData(p, DownOpen, c.stops - {p}, c.ups, c.downs - {p})
      else if p in c.stops then
        var stops := c.stops - {p};
        if stops == {} && c.ups == {} && c.downs == {} then
          CartData(p, IdleOpen, stops, c.ups, c.downs)
        else if stops == {} then
          // As written: the "lowest" pending level is computed with Max.
          var lowest := Max(MinOr(c.ups, p), MinOr(c.downs, p));
          if lowest < p then CartData(p, DownOpen, stops, c.ups, c.downs)
          else CartData(p, UpOpen, stops, c.ups - {p}, c.downs)
        else CartData(p, DownOpen, stops, c.ups, c.downs)
      else if p in c.ups && p == SortedMin(c.ups) && c.stops == {} && (c.downs == {} || SortedMin(c.downs) > p) then
        CartData(p, UpOpen, c.stops, c.ups - {p}, c.downs)
      else CartData(p, Down, c.stops, c.ups, c.downs)
    case UpOpen =>
      if c.stops == {} && c.ups == {} && c.downs == {} then c.(state := Idle)
      else if c.stops == {} then
        var highest := Max(MaxOr(c.ups, c.pos), MaxOr(c.downs, c.pos));
        if highest > c.pos then c.(state := Up)
        else if highest == c.pos then c.(downs := c.downs - {c.pos}, state := Down)
        // As written: no state is assigned when highest < pos, so the doors stay open.
        else c
      else c.(state := Up)
    case DownOpen =>
      if c.stops == {} && c.ups == {} && c.downs == {} then c.(state := Idle)
      else if c.stops == {} then
        var lowest := Min(MinOr(c.ups, c.pos), MinOr(c.downs, c.pos));
        if lowest < c.pos then c.(state := Down)
        else c.(ups := c.ups - {c.pos}, state := Up)
      else c.(state := Down)
    case IdleOpen => c.(state := Idle)
  }

  /** Idle at floor 5 with an up call at 5: the doors open at once. */
  lemma IdleServesOwnFloor()
    ensures Tick(CartData(5, Idle, {}, {5}, {})) == CartData(5, UpOpen, {}, {}, {})
  {
  }

  /** The unassigned branch while rising. After its last ride, at a floor
      with no up call, the car stays `Up` exactly when both hall-call sets
      hold calls and every one of them lies below the new floor; it then
      drops the ride without opening and keeps rising. With one set empty its
      "highest" level is the floor itself and the car does act. */
  lemma RisingPastLastRide(c: CartData)
    requires c.state == Up && c.pos + 1 !in c.ups && c.stops == {c.pos + 1}
    ensures Tick(c).state == Up <==>
              (c.ups != {} && c.downs != {} && SortedMax(c.ups) <= c.pos && SortedMax(c.downs) <= c.pos)
    ensures Tick(c).state == Up ==> Tick(c) == CartData(c.pos + 1, Up, {}, c.ups, c.downs)
  {
    var p := c.pos + 1;
    assert c.stops - {p} == {};
  }

  /** The unassigned branch with the doors open going up: the car is left
      exactly as it was precisely when it has no ride, both hall-call sets
      hold calls, and all of them lie below it. */
  lemma UpOpenStuck(c: CartData)
    requires c.state == UpOpen
    ensures Tick(c) == c <==>
              (c.stops == {} && c.ups != {} && c.downs != {} && SortedMax(c.ups) < c.pos && SortedMax(c.downs) < c.pos)
  {
  }

  /** The Max-for-lowest slip while falling. After its last ride, at a floor
      with no down call, the car opens going down only when both hall-call
      sets hold a call below the new floor; otherwise, if any call is
      pending, it opens going up, even with a down call below it. */
  lemma FallingLowestSlip(c: CartData)
    requires c.state == Down && c.pos - 1 !in c.downs && c.stops == {c.pos - 1}
    ensures Tick(c).state == DownOpen <==>
              (c.ups != {} && c.downs != {} && SortedMin(c.ups) < c.pos - 1 && SortedMin(c.downs) < c.pos - 1)
    ensures (c.ups != {} || c.downs != {}) && Tick(c).state != DownOpen ==>
              Tick(c) == CartData(c.pos - 1, UpOpen, {}, c.ups - {c.pos - 1}, c.downs)
  {
    var p := c.pos - 1;
    assert c.stops - {p} == {};
  }

  /** A car as the source declares it: fields updated in place by the
      dispatcher and by the car's own state machine. */
  class Cart {
    var pos: int
    var state: CartState
    var stopLevels: set<int>
    var upLevels: set<int>
    var downLevels: set<int>

    function View(): CartData
      reads this
    {
      CartData(pos, state, stopLevels, upLevels, downLevels)
    }

    /** A new car waits idle at floor 1 with nothing to do. */
    constructor ()
      ensures View() == CartData(1, Idle, {}, {}, {})
    {
      pos := 1;
      state := Idle;
      stopLevels, upLevels, downLevels := {}, {}, {};
    }

    /** `AddLevel(level)`: an in-car request joins the stops only when the car
        is already heading for that floor; otherwise it is dropped. */
    method AddStopLevel(level: int)
      modifies this
      ensures stopLevels == if HeadingFor(old(View()), level) then old(stopLevels) + {level} else old(stopLevels)
      ensures pos == old(pos) && state == old(state)
      ensures upLevels == old(upLevels) && downLevels == old(downLevels)
    {
      if ((state == Up || state == UpOpen) && pos < level) || ((state == Down || state == DownOpen) && pos > level) {
        stopLevels := stopLevels + {level};
      }
    }

    /** `AddLevel(level, up)`: a hall call joins the up or the down calls;
        adding a call already there changes nothing. */
    method AddLevel(level: int, up: bool)
      modifies this
      ensures up ==> upLevels == old(upLevels) + {level} && downLevels == old(downLevels)
      ensures !up ==> downLevels == old(downLevels) + {level} && upLevels == old(upLevels)
      ensures level in (if up then old(upLevels) else old(downLevels)) ==> View() == old(View())
      ensures pos == old(pos) && state == old(state) && stopLevels == old(stopLevels)
    {
      if up {
        upLevels := upLevels + {level};
      } else {
        downLevels := downLevels + {level};
      }
    }

    // One tick of the car state machine, one method per state it starts in.

    /** An idle car sets off towards its lowest up call, or failing that its
        highest down call, opening at once when that call is at its own floor. */
    method StepIdle()
      requires state == Idle
      modifies this
      ensures View() == Tick(old(View()))
    {
      if upLevels != {} {
        var begin := SortedMin(upLevels);
        if begin < pos {
          state := Down;
        } else if begin == pos {
          upLevels := upLevels - {pos};
          state := UpOpen;
        } else {
          state := Up;
        }
      } else if downLevels != {} {
        var end := SortedMax(downLevels);
        if end > pos {
          state := Up;
        } else if end == pos {
          downLevels := downLevels - {pos};
          state := DownOpen;
        } else {
          state := Down;
        }
      } else {
        state := Idle;
      }
    }

    /** A rising car moves up one floor and opens there for an up call, for a
        ride, or for its highest down call when nothing else lies above. */
    method StepUp()
      requires state == Up
      modifies this
      ensures View() == Tick(old(View()))
    {
      pos := pos + 1;
      if pos in upLevels {
        upLevels := upLevels - {pos};
        state := UpOpen;
        if pos in stopLevels {
          stopLevels := stopLevels - {pos};
        }
      } else if pos in stopLevels {
        stopLevels := stopLevels - {pos};
        if stopLevels == {} && upLevels == {} && downLevels == {} {
          state := IdleOpen;
        } else if stopLevels == {} {
          var highest := Max(MaxOr(upLevels, pos), MaxOr(downLevels, pos));
          if highest > pos {
            state := UpOpen;
          } else if highest == pos {
            if pos in downLevels {
              downLevels := downLevels - {pos};
              state := DownOpen;
            } else {
              state := DownOpen;
            }
          }
          // As written: no state is assigned when highest < pos.
        } else {
          state := UpOpen;
        }
      } else if pos in downLevels && pos == SortedMax(downLevels) && stopLevels == {}
                && (upLevels == {} || SortedMax(upLevels) < pos) {
        downLevels := downLevels - {pos};
        state := DownOpen;
      } else {
        state := Up;
      }
    }

    /** A falling car moves down one floor and opens there for a down call, for
        a ride, or for its lowest up call when nothing else lies below. */
    method StepDown()
      requires state == Down
      modifies this
      ensures View() == Tick(old(View()))
    {
      pos := pos - 1;
      if pos in downLevels {
        downLevels := downLevels - {pos};
        state := DownOpen;
        if pos in stopLevels {
          stopLevels := stopLevels - {pos};
        }
      } else if pos in stopLevels {
        stopLevels := stopLevels - {pos};
        if stopLevels == {} && upLevels == {} && downLevels == {} {
          state := IdleOpen;
        } else if stopLevels == {} {
          // As written: the "lowest" pending level is computed with Max.
          var lowest := Max(MinOr(upLevels, pos), MinOr(downLevels, pos));
          if lowest < pos {
            state := DownOpen;
          } else if lowest >= pos {
            if pos in upLevels {
              upLevels := upLevels - {pos};
              state := UpOpen;
            } else {
              state := UpOpen;
            }
          }
        } else {
          state := DownOpen;
        }
      } else if pos in upLevels && pos == SortedMin(upLevels) && stopLevels == {}
                && (downLevels == {} || SortedMin(downLevels) > pos) {
        upLevels := upLevels - {pos};
        state := UpOpen;
      } else {
        state := Down;
      }
    }

    /** Doors open while going up: the car closes and continues up while
        anything lies above, and otherwise turns down. */
    method StepUpOpen()
      requires state == UpOpen
      modifies this
      ensures View() == Tick(old(View()))
    {
      if stopLevels == {} && upLevels == {} && downLevels == {} {
        state := Idle;
      } else if stopLevels == {} {
        var highest := Max(MaxOr(upLevels, pos), MaxOr(downLevels, pos));
        if highest > pos {
          state := Up;
        } else if highest == pos {
          if pos in downLevels {
            downLevels := downLevels - {pos};
            state := Down;
          } else {
            state := Down;
          }
        }
        // As written: no state is assigned when highest < pos.
      } else {
        state := Up;
      }
    }

    /** Doors open while going down: the car closes and continues down while
        anything lies below, and otherwise turns up. */
    method StepDownOpen()
      requires state == DownOpen
      modifies this
      ensures View() == Tick(old(View()))
    {
      if stopLevels == {} && upLevels == {} && downLevels == {} {
        state := Idle;
      } else if stopLevels == {} {
        var lowest := Min(MinOr(upLevels, pos), MinOr(downLevels, pos));
        if lowest < pos {
          state := Down;
        } else if lowest >= pos {
          if pos in upLevels {
            upLevels := upLevels - {pos};
            state := Up;
          } else {
            state := Up;
          }
        }
      } else {
        state := Down;
      }
    }

    /** Doors open at an idle stop: they close and the car waits idle. */
    method StepIdleOpen()
      requires state == IdleOpen
      modifies this
      ensures View() == Tick(old(View()))
    {
      state := Idle;
    }
  }
}
