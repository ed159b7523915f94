/** The shared state of the simulator: the cars, the pending hall-call
    queues and the call-to-car assignment maps, with one step of each
    dispatcher loop, the hall-call buttons and one tick of a car. */
module Elevator {
  import opened Cart

  const CartNum: nat := 4

  /** The sentinel a call carries in its assignment map until a car is chosen. */
  const Unassigned: int := -1

  /** The position of the first least score: the car a stable sort of the
      `(index, score)` pairs by score puts first. */
  method FirstLeast(prior: seq<int>) returns (chosen: int)
    requires |prior| > 0
    ensures 0 <= chosen < |prior|
    ensures forall i :: 0 <= i < |prior| ==> prior[chosen] <= prior[i]
    ensures forall i :: 0 <= i < chosen ==> prior[chosen] < prior[i]
  {
    chosen := 0;
    var i := 1;
    while i < |prior|
      invariant 1 <= i <= |prior|
      invariant 0 <= chosen < i
      invariant forall k :: 0 <= k < i ==> prior[chosen] <= prior[k]
      invariant forall k :: 0 <= k < chosen ==> prior[chosen] < prior[k]
    {
      if prior[i] < prior[chosen] {
        chosen := i;
      }
      i := i + 1;
    }
  }

  class Elevator {
    var carts: seq<Cart>
    var upQueue: seq<int>
    var downQueue: seq<int>
    var upDic: map<int, int>
    var downDic: map<int, int>

    /** A fixed roster of distinct cars. */
    ghost predicate Valid()
      reads this
    {
      |carts| == CartNum &&
      forall i, j :: 0 <= i < j < |carts| ==> carts[i] != carts[j]
    }

    /** The score of car `i` for a call at `level` in direction `up`. */
    function Score(i: int, level: int, up: bool): int
      requires 0 <= i < |carts|
      reads this`carts, carts[i]
    {
      ResponseTime(carts[i].View(), level, up)
    }

    /** The loop that fills `prior`: car by car, in roster order, each car's
        response time for the call. */
    method ScoreCars(level: int, up: bool) returns (prior: seq<int>)
      ensures |prior| == |carts|
      ensures forall i :: 0 <= i < |carts| ==> prior[i] == ResponseTime(carts[i].View(), level, up)
    {
      prior := [];
      for i := 0 to |carts|
        invariant |prior| == i
        invariant forall k :: 0 <= k < i ==> prior[k] == ResponseTime(carts[k].View(), level, up)
      {
        prior := prior + [ResponseTime(carts[i].View(), level, up)];
      }
    }

    /** Four idle cars at floor 1, no calls. */
    constructor ()
      ensures Valid() && fresh(carts)
      ensures forall i :: 0 <= i < |carts| ==> carts[i].View() == CartData(1, Idle, {}, {}, {})
      ensures upQueue == [] && downQueue == [] && upDic == map[] && downDic == map[]
    {
      var roster: seq<Cart> := [];
      var i := 0;
      while i < CartNum
        invariant 0 <= i <= CartNum && |roster| == i
        invariant forall k :: 0 <= k < i ==> fresh(roster[k])
        invariant forall k, m :: 0 <= k < m < i ==> roster[k] != roster[m]
        invariant forall k :: 0 <= k < i ==> roster[k].View() == CartData(1, Idle, {}, {}, {})
      {
        var c := new Cart();
        roster := roster + [c];
        i := i + 1;
      }
      carts := roster;
      upQueue, downQueue := [], [];
      upDic, downDic := map[], map[];
    }

    /** The hall "up" button at `level`: a call already pending (a key of the
        map, assigned or not) is ignored; otherwise the call is recorded as
        unassigned and queued once at the end. */
    method EnqueueUp(level: int)
      modifies this
      ensures level in old(upDic) ==> upDic == old(upDic) && upQueue == old(upQueue)
      ensures level !in old(upDic) ==> upDic == old(upDic)[level := Unassigned] && upQueue == old(upQueue) + [level]
      ensures level in upDic
      ensures carts == old(carts) && downQueue == old(downQueue) && downDic == old(downDic)
    {
      if level !in upDic {
        upDic := upDic[level := Unassigned];
        upQueue := upQueue + [level];
      }
    }

    /** The hall "down" button at `level`, the mirror of `EnqueueUp`. */
    method EnqueueDown(level: int)
      modifies this
      ensures level in old(downDic) ==> downDic == old(downDic) && downQueue == old(downQueue)
      ensures level !in old(downDic) ==> downDic == old(downDic)[level := Unassigned] && downQueue == old(downQueue) + [level]
      ensures level in downDic
      ensures carts == old(carts) && upQueue == old(upQueue) && upDic == old(upDic)
    {
      if level !in downDic {
        downDic := downDic[level := Unassigned];
        downQueue := downQueue + [level];
      }
    }

    /** One pass of the up-call dispatcher: the call at the head of the queue
        goes to the car with the least score for an up call, the assignment
        map records that car, the call leaves the queue and joins the car's
        up calls. With no call waiting nothing happens and -1 is returned. */
    method UpControlStep() returns (chosen: int)
      requires Valid()
      modifies this, carts
      ensures Valid() && carts == old(carts)
      ensures old(upQueue) == [] ==>
                && chosen == -1 && unchanged(this)
                && (forall i :: 0 <= i < |carts| ==> carts[i].View() == old(carts[i].View()))
      ensures old(upQueue) != [] ==>
                var h := old(upQueue)[0];
                && 0 <= chosen < |carts|
                && (forall i :: 0 <= i < |carts| ==>
                      old(Score(chosen, h, true) <= Score(i, h, true)))
                && (forall i :: 0 <= i < chosen ==>
                      old(Score(chosen, h, true) < Score(i, h, true)))
                && upDic == old(upDic)[h := chosen]
                && upQueue == old(upQueue)[1..]
                && carts[chosen].View() == old(carts[chosen].View()).(ups := old(carts[chosen].upLevels) + {h})
                && (forall i :: 0 <= i < |carts| && i != chosen ==> carts[i].View() == old(carts[i].View()))
      ensures downQueue == old(downQueue) && downDic == old(downDic)
    {
      if upQueue == [] {
        return -1;
      }
      var h := upQueue[0];
      var prior := ScoreCars(h, true);
      chosen := FirstLeast(prior);
      upDic := upDic[h := chosen];
      upQueue := upQueue[1..];
      carts[chosen].AddLevel(h, true);
    }

    /** One pass of the down-call dispatcher. As written, the cars are scored
        as if the call went up; the call then joins the chosen car's down
        calls and its assignment is recorded in the down map. */
    method DownControlStep() returns (chosen: int)
      requires Valid()
      modifies this, carts
      ensures Valid() && carts == old(carts)
      ensures old(downQueue) == [] ==>
                && chosen == -1 && unchanged(this)
                && (forall i :: 0 <= i < |carts| ==> carts[i].View() == old(carts[i].View()))
      ensures old(downQueue) != [] ==>
                var h := old(downQueue)[0];
                && 0 <= chosen < |carts|
                && (forall i :: 0 <= i < |carts| ==>
                      old(Score(chosen, h, true) <= Score(i, h, true)))
                && (forall i :: 0 <= i < chosen ==>
                      old(Score(chosen, h, true) < Score(i, h, true)))
                && downDic == old(downDic)[h := chosen]
                && downQueue == old(downQueue)[1..]
                && carts[chosen].View() == old(carts[chosen].View()).(downs := old(carts[chosen].downLevels) + {h})
                && (forall i :: 0 <= i < |carts| && i != chosen ==> carts[i].View() == old(carts[i].View()))
      ensures upQueue == old(upQueue) && upDic == old(upDic)
    {
      if downQueue == [] {
        return -1;
      }
      var h := downQueue[0];
      // As written: the down call is scored with up = true.
      var prior := ScoreCars(h, true);
      chosen := FirstLeast(prior);
      downDic := downDic[h := chosen];
      downQueue := downQueue[1..];
      carts[chosen].AddLevel(h, false);
    }

    /** The in-car button for `level` in car `index`. */
    method RequestStop(index: int, level: int)
      requires Valid() && 0 <= index < |carts|
      modifies carts[index]
      ensures carts[index].View() ==
                var c := old(carts[index].View());
                if HeadingFor(c, level) then c.(stops := c.stops + {level}) else c
    {
      carts[index].AddStopLevel(level);
    }

    /** One tick of car `index`: the car moves to `Tick` of its old state;
        leaving a door-open state going up (down) clears the car's floor from
        the up (down) assignment map, whichever way the car goes next. */
    method CartHandleStep(index: int)
      requires Valid() && 0 <= index < |carts|
      modifies this, carts[index]
      ensures Valid() && carts == old(carts)
      ensures carts[index].View() == Tick(old(carts[index].View()))
      ensures upDic == if old(carts[index].state) == UpOpen then old(upDic) - {old(carts[index].pos)} else old(upDic)
      ensures downDic == if old(carts[index].state) == DownOpen then old(downDic) - {old(carts[index].pos)} else old(downDic)
      ensures upQueue == old(upQueue) && downQueue == old(downQueue)
      ensures forall i :: 0 <= i < |carts| && i != index ==> carts[i].View() == old(carts[i].View())
    {
      var cart := carts[index];
      match cart.state
      case Idle => cart.StepIdle();
      case Up => cart.StepUp();
      case Down => cart.StepDown();
      case UpOpen =>
        cart.StepUpOpen();
        upDic := upDic - {cart.pos};
      case DownOpen =>
        cart.StepDownOpen();
        downDic := downDic - {cart.pos};
      case IdleOpen => cart.StepIdleOpen();
    }
  }
}
