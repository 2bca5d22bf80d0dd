/** One waiting room per session and turn, under every interleaving of its callers. */
module TurnGuard {
  import opened Prelude

  type Key = (string, string)

  /** A guard object: the key it was made for, how many callers are in its room, and who holds its lock. */
  datatype Guard = Guard(key: Key, waiting: int, holder: Option<nat>)

  /** Where one caller of `turn_plan` is suspended. */
  datatype Stage =
    | Waiting     // in the room, not yet holding the lock
    | Holding     // holds the lock, has not asked the store again
    | Classifying // holds the lock, the classifier call is out

  datatype Caller = Caller(key: Key, guard: nat, stage: Stage)

  /** Guards are heap objects: a fresh one has a number never used before. */
  datatype World = World(
    locks: map<Key, nat>,
    heap: seq<Guard>,
    callers: map<nat, Caller>,
    planned: set<Key>,
    calls: multiset<Key>, // the classifier calls made, by turn
    lost: multiset<Key>)  // the callers cancelled while theirs was out, by turn

  // --- the waiting room ----------------------------------------------------

  class TurnLocks {
    var world: World

    constructor ()
      ensures world == EMPTY
    {
      world := EMPTY;
    }

    /** Enter the room for `key`, opening it if nobody is in it. */
    method Enter(c: nat, key: Key)
      requires Consistent(world) && c !in world.callers
      modifies this
      ensures world == Entered(old(world), c, key)
    {
      var w := world;
      var locks, heap := w.locks, w.heap;
      if key !in locks {
        locks := locks[key := |heap|];
        heap := heap + [Guard(key, 0, None)];
      }
      var g := locks[key];
      heap := heap[g := heap[g].(waiting := heap[g].waiting + 1)];
      world := w.(locks := locks, heap := heap, callers := w.callers[c := Caller(key, g, Waiting)]);
    }

    /** Leave the room, by any way out, and close it behind the last one. */
    method Leave(c: nat)
      requires Consistent(world) && c in world.callers
      modifies this
      ensures world == Left(old(world), c)
    {
      var w := world;
      var Caller(key, g, stage) := w.callers[c];
      var heap, locks := w.heap, w.locks;
      if stage != Waiting {
        heap := heap[g := heap[g].(holder := None)];
      }
      heap := heap[g := heap[g].(waiting := heap[g].waiting - 1)];
      if heap[g].waiting <= 0 {
        locks := locks - {key};
      }
      world := w.(heap := heap, locks := locks, callers := w.callers - {c});
    }
  }

  const EMPTY: World := World(map[], [], map[], {}, multiset{}, multiset{})

  function Entered(w: World, c: nat, key: Key): World {
    var room := if key in w.locks then w else w.(locks := w.locks[key := |w.heap|],
                                                 heap := w.heap + [Guard(key, 0, None)]);
    var g := room.locks[key];
    if g < |room.heap|
    then room.(heap := room.heap[g := room.heap[g].(waiting := room.heap[g].waiting + 1)],
                 callers := room.callers[c := Caller(key, g, Waiting)])
    else w
  }

  function Left(w: World, c: nat): World
    requires c in w.callers
  {
    var Caller(key, g, stage) := w.callers[c];
    if g >= |w.heap| then w
    else
      var guard := Guard(w.heap[g].key, w.heap[g].waiting - 1, if stage.Waiting? then w.heap[g].holder else None);
      w.(heap := w.heap[g := guard],
         locks := if guard.waiting <= 0 then w.locks - {key} else w.locks,
         callers := w.callers - {c})
  }

  function Acquired(w: World, c: nat): World
    requires c in w.callers && w.callers[c].guard < |w.heap|
  {
    var g := w.callers[c].guard;
    w.(heap := w.heap[g := w.heap[g].(holder := Some(c))], callers := w.callers[c := w.callers[c].(stage := Holding)])
  }

  // --- steps between awaits ------------------------------------------------

  datatype Step =
    | Arrives(c: nat, key: Key)  // finds no stored plan, and enters the room
    | Acquires(c: nat)           // the lock is free and this caller takes it
    | Asks(c: nat, admitted: bool) // looks again; a plan or a refusal sends it out, else it classifies
    | Records(c: nat)            // the classifier answered, the plan is written, the room is left
    | Drops(c: nat)              // cancelled or failed, wherever it was suspended

  function Next(w: World, step: Step): World {
    match step
    case Arrives(c, key) => if c in w.callers || key in w.planned then w else Entered(w, c, key)
    case Acquires(c) =>
      if c !in w.callers || !w.callers[c].stage.Waiting? || w.callers[c].guard >= |w.heap| then w
      else if w.heap[w.callers[c].guard].holder.Some? then w
      else Acquired(w, c)
    case Asks(c, admitted) =>
      if c !in w.callers || !w.callers[c].stage.Holding? then w
      else if w.callers[c].key in w.planned || !admitted then Left(w, c)
      else w.(callers := w.callers[c := w.callers[c].(stage := Classifying)],
              calls := w.calls + multiset{w.callers[c].key})
    case Records(c) =>
      if c !in w.callers || !w.callers[c].stage.Classifying? then w
      else Left(w.(planned := w.planned + {w.callers[c].key}), c)
    case Drops(c) =>
      if c !in w.callers then w
      else if w.callers[c].stage.Classifying? then Left(w.(lost := w.lost + multiset{w.callers[c].key}), c)
      else Left(w, c)
  }

  function Run(steps: seq<Step>): World {
    if steps == [] then EMPTY else Next(Run(steps[..|steps| - 1]), steps[|steps| - 1])
  }

  // --- the invariant -------------------------------------------------------

  function Inside(w: World, key: Key): set<nat> { set c | c in w.callers && w.callers[c].key == key }

  /** Open rooms have guards of their own. */
  ghost predicate Rooms(w: World) {
    forall key | key in w.locks :: w.locks[key] < |w.heap| && w.heap[w.locks[key]].key == key
  }

  /** A room is open while somebody is inside, and its count is their number. */
  ghost predicate RoomKept(w: World, key: Key)
    requires key in w.locks && w.locks[key] < |w.heap|
  {
    var guard := w.heap[w.locks[key]];
    && guard.waiting == |Inside(w, key)| > 0
    && (guard.holder.Some? ==> guard.holder.value in Inside(w, key))
  }

  /** A caller shares the guard of its room, and is past the lock exactly when it holds it. */
  ghost predicate CallerKept(w: World, c: nat)
    requires Rooms(w) && c in w.callers
  {
    var Caller(key, g, stage) := w.callers[c];
    key in w.locks && g == w.locks[key] && (!stage.Waiting? <==> w.heap[g].holder == Some(c))
  }

  ghost predicate Consistent(w: World) {
    && Rooms(w)
    && (forall key | key in w.locks :: RoomKept(w, key))
    && (forall c | c in w.callers :: CallerKept(w, c))
  }

  /** Somebody's classifier call for this turn is out. */
  ghost predicate BeingClassified(w: World, key: Key) {
    exists c | c in w.callers :: w.callers[c].key == key && w.callers[c].stage.Classifying?
  }

  /** Every call made for a turn was lost with its caller, is out, or led to the turn's plan, and a turn that
      has a plan is not being classified. */
  ghost predicate CallsKept(w: World, key: Key) {
    && !(key in w.planned && BeingClassified(w, key))
    && w.calls[key] == w.lost[key] + (if key in w.planned || BeingClassified(w, key) then 1 else 0)
  }

  ghost predicate Frugal(w: World) {
    forall key: Key :: CallsKept(w, key)
  }

  lemma EnteredInside(w: World, c: nat, key: Key, k: Key)
    requires Consistent(w) && c !in w.callers
    ensures Inside(Entered(w, c, key), k) == if k == key then Inside(w, k) + {c} else Inside(w, k)
    ensures key !in w.locks ==> Inside(w, key) == {}
  {
    forall d | d in w.callers ensures w.callers[d].key in w.locks {
      assert CallerKept(w, d);
    }
  }

  lemma EnteredCaller(w: World, c: nat, key: Key, d: nat)
    requires Rooms(w) && c !in w.callers && (key in w.locks ==> RoomKept(w, key) && c !in Inside(w, key))
    requires d == c || (d in w.callers && CallerKept(w, d))
    ensures Rooms(Entered(w, c, key)) && CallerKept(Entered(w, c, key), d)
  {
    hide Inside;
    var v := Entered(w, c, key);
    assert Rooms(v);
    if d != c {
      assert v.callers[d] == w.callers[d];
      assert v.heap[v.locks[w.callers[d].key]].holder == w.heap[w.locks[w.callers[d].key]].holder;
    } else if key in w.locks {
      assert v.heap[v.locks[key]].holder == w.heap[w.locks[key]].holder;
    }
  }

  lemma EnteredConsistent(w: World, c: nat, key: Key)
    requires Consistent(w) && c !in w.callers
    ensures Consistent(Entered(w, c, key))
  {
    hide RoomKept, CallerKept;
    var v := Entered(w, c, key);
    forall k | k in v.locks ensures v.locks[k] < |v.heap| && RoomKept(v, k) { EnteredRoom(w, c, key, k); }
    forall d | d in v.callers ensures Rooms(v) && CallerKept(v, d) { EnteredCaller(w, c, key, d); }
  }

  lemma EnteredRoom(w: World, c: nat, key: Key, k: Key)
    requires Consistent(w) && c !in w.callers && k in Entered(w, c, key).locks
    ensures var v := Entered(w, c, key); v.locks[k] < |v.heap| && RoomKept(v, k)
  {
    hide CallerKept, Inside;
    EnteredInside(w, c, key, k);
    if k in w.locks {
      assert RoomKept(w, k) && w.heap[w.locks[k]].key == k;
    }
    InsideIsFinite(w, c, k);
  }

  lemma InsideIsFinite(w: World, c: nat, k: Key)
    requires c !in w.callers
    ensures |Inside(w, k) + {c}| == |Inside(w, k)| + 1 && |{c}| == 1
  {
  }

  lemma LeftInside(w: World, c: nat, k: Key)
    requires Consistent(w) && c in w.callers
    ensures Inside(Left(w, c), k) == if k == w.callers[c].key then Inside(w, k) - {c} else Inside(w, k)
    ensures c in Inside(w, w.callers[c].key)
  {
    assert CallerKept(w, c);
  }

  lemma LeftConsistent(w: World, c: nat)
    requires Consistent(w) && c in w.callers
    ensures Consistent(Left(w, c))
  {
    hide RoomKept, CallerKept;
    var v := Left(w, c);
    GuardExists(w, c);
    forall k | k in v.locks ensures v.locks[k] < |v.heap| && RoomKept(v, k) { LeftRoom(w, c, k); }
    assert Rooms(v);
    forall d | d in v.callers ensures CallerKept(v, d) { LeftCaller(w, c, d); }
  }

  lemma LeftRoom(w: World, c: nat, k: Key)
    requires Consistent(w) && c in w.callers && k in Left(w, c).locks
    ensures var v := Left(w, c); v.locks[k] < |v.heap| && v.heap[v.locks[k]].key == k && RoomKept(v, k)
  {
    hide Inside;
    LeftInside(w, c, k);
    assert CallerKept(w, c) && RoomKept(w, k) && w.heap[w.locks[k]].key == k;
    if k == w.callers[c].key {
      assert |Inside(w, k) - {c}| == |Inside(w, k)| - 1;
    }
  }

  lemma LeftCaller(w: World, c: nat, d: nat)
    requires Consistent(w) && c in w.callers && d in w.callers && d != c && Rooms(Left(w, c))
    ensures CallerKept(Left(w, c), d)
  {
    hide Inside;
    var v, key := Left(w, c), w.callers[c].key;
    assert CallerKept(w, c) && CallerKept(w, d) && RoomKept(w, key);
    LeftInside(w, c, key);
    if w.callers[d].key == key {
      InsideKey(w, d);
      assert |Inside(w, key) - {c}| == |Inside(w, key)| - 1;
      assert d in Inside(w, key) - {c};
    } else {
      assert w.heap[w.locks[w.callers[d].key]].key == w.callers[d].key && w.heap[w.locks[key]].key == key;
    }
  }

  lemma InsideKey(w: World, c: nat)
    requires c in w.callers
    ensures c in Inside(w, w.callers[c].key)
  {
  }

  lemma AcquiredCaller(w: World, c: nat, d: nat)
    requires Rooms(w) && c in w.callers && CallerKept(w, c) && w.callers[c].stage.Waiting?
    requires w.heap[w.callers[c].guard].holder.None?
    requires d in w.callers && CallerKept(w, d)
    ensures Rooms(Acquired(w, c)) && CallerKept(Acquired(w, c), d)
  {
    assert Rooms(Acquired(w, c));
  }

  lemma AcquiredRoom(w: World, c: nat, k: Key)
    requires Rooms(w) && c in w.callers && CallerKept(w, c)
    requires k in w.locks && RoomKept(w, k)
    ensures RoomKept(Acquired(w, c), k)
  {
    var v := Acquired(w, c);
    assert v.callers.Keys == w.callers.Keys;
    assert Inside(v, k) == Inside(w, k);
  }

  lemma AcquiredConsistent(w: World, c: nat)
    requires Consistent(w) && c in w.callers && w.callers[c].stage.Waiting?
    requires w.callers[c].guard < |w.heap| && w.heap[w.callers[c].guard].holder.None?
    ensures Consistent(Acquired(w, c))
  {
    hide RoomKept, CallerKept;
    var v := Acquired(w, c);
    assert CallerKept(w, c);
    assert Rooms(v);
    forall k | k in v.locks ensures RoomKept(v, k) { AcquiredRoom(w, c, k); }
    forall d | d in v.callers ensures CallerKept(v, d) { AcquiredCaller(w, c, d); }
  }

  /** Moving on from `Holding` to `Classifying`, and facts about plans, touch no room. */
  lemma SameRooms(w: World, v: World)
    requires Consistent(w) && v.locks == w.locks && v.heap == w.heap && v.callers.Keys == w.callers.Keys
    requires forall c | c in w.callers ::
               && v.callers[c].key == w.callers[c].key && v.callers[c].guard == w.callers[c].guard
               && (v.callers[c].stage.Waiting? <==> w.callers[c].stage.Waiting?)
    ensures Consistent(v)
  {
    forall k | k in v.locks ensures RoomKept(v, k) {
      assert RoomKept(w, k);
      assert Inside(v, k) == Inside(w, k);
    }
    forall d | d in v.callers ensures CallerKept(v, d) { assert CallerKept(w, d); }
  }

  lemma StepConsistent(w: World, step: Step)
    requires Consistent(w)
    ensures Consistent(Next(w, step))
  {
    hide Consistent;
    match step
    case Arrives(c, key) => if c !in w.callers { EnteredConsistent(w, c, key); }
    case Acquires(c) => if Next(w, step) != w { AcquiredConsistent(w, c); }
    case Asks(c, admitted) =>
      if c in w.callers {
        LeftConsistent(w, c);
        if Next(w, step) != Left(w, c) { SameRooms(w, Next(w, step)); }
      }
    case Records(c) =>
      if c in w.callers {
        var told := w.(planned := w.planned + {w.callers[c].key});
        SameRooms(w, told);
        LeftConsistent(told, c);
      }
    case Drops(c) =>
      if c in w.callers {
        var told := w.(lost := w.lost + multiset{w.callers[c].key});
        SameRooms(w, told);
        LeftConsistent(told, c);
        LeftConsistent(w, c);
      }
  }

  /** Two callers past the lock of one turn are one caller. */
  lemma OnePastTheLock(w: World, c: nat, d: nat)
    requires Consistent(w) && c in w.callers && d in w.callers && w.callers[c].key == w.callers[d].key
    requires !w.callers[c].stage.Waiting? && !w.callers[d].stage.Waiting?
    ensures c == d
  {
    assert CallerKept(w, c) && CallerKept(w, d);
  }

  lemma GuardExists(w: World, c: nat)
    requires Consistent(w) && c in w.callers
    ensures w.callers[c].guard < |w.heap|
  {
    assert CallerKept(w, c);
  }

  lemma StepFrugal(w: World, step: Step)
    requires Consistent(w) && Frugal(w)
    ensures Frugal(Next(w, step))
  {
    hide Consistent, CallsKept;
    forall key: Key ensures CallsKept(Next(w, step), key) {
      assert CallsKept(w, key);
      StepKeepsCalls(w, step, key);
    }
  }

  lemma StepKeepsCalls(w: World, step: Step, key: Key)
    requires Consistent(w) && CallsKept(w, key)
    ensures CallsKept(Next(w, step), key)
  {
    hide Consistent, CallsKept;
    forall c | c in w.callers ensures w.callers[c].guard < |w.heap| { GuardExists(w, c); }
    match step
    case Arrives(c, k) => SameCalls(w, Next(w, step), key);
    case Acquires(c) => SameCalls(w, Next(w, step), key);
    case Asks(c, admitted) =>
      if c in w.callers && w.callers[c].stage.Holding? && w.callers[c].key !in w.planned && admitted {
        CallGoesOut(w, c, key);
      } else {
        SameCalls(w, Next(w, step), key);
      }
    case Records(c) =>
      if c in w.callers && w.callers[c].stage.Classifying? {
        CallComesBack(w, c, key);
      }
    case Drops(c) =>
      if c in w.callers && w.callers[c].stage.Classifying? {
        CallIsLost(w, c, key);
      } else {
        SameCalls(w, Next(w, step), key);
      }
  }

  /** Whoever comes, waits, takes the lock or leaves without a call out changes nothing. */
  lemma SameCalls(w: World, v: World, key: Key)
    requires CallsKept(w, key) && v.calls == w.calls && v.lost == w.lost && v.planned == w.planned
    requires forall c | c in w.callers && w.callers[c].stage.Classifying? ::
               c in v.callers && v.callers[c] == w.callers[c]
    requires forall c | c in v.callers && v.callers[c].stage.Classifying? ::
               c in w.callers && v.callers[c] == w.callers[c]
    ensures CallsKept(v, key)
  {
    assert BeingClassified(v, key) == BeingClassified(w, key);
  }

  lemma CallGoesOut(w: World, c: nat, key: Key)
    requires Consistent(w) && CallsKept(w, key)
    requires c in w.callers && w.callers[c].stage.Holding? && w.callers[c].key !in w.planned
    ensures CallsKept(Next(w, Asks(c, true)), key)
  {
    var v := Next(w, Asks(c, true));
    if key == w.callers[c].key {
      forall d | d in w.callers && w.callers[d].key == key && !w.callers[d].stage.Waiting? ensures d == c {
        OnePastTheLock(w, c, d);
      }
      assert v.callers[c].stage.Classifying?;
    } else {
      assert forall d | d in v.callers && v.callers[d].key == key :: v.callers[d] == w.callers[d];
      assert forall d | d in w.callers && w.callers[d].key == key :: v.callers[d] == w.callers[d];
    }
  }

  /** The one caller of its turn past the lock is gone, so nobody classifies that turn any more. */
  lemma GoneClassifier(w: World, v: World, c: nat, key: Key)
    requires Consistent(w) && c in w.callers && w.callers[c].stage.Classifying?
    requires v.callers == w.callers - {c}
    ensures BeingClassified(v, key) <==> BeingClassified(w, key) && key != w.callers[c].key
    ensures BeingClassified(w, w.callers[c].key)
  {
    hide Consistent;
    forall d | d in w.callers && w.callers[d].key == w.callers[c].key && w.callers[d].stage.Classifying?
      ensures d == c
    {
      OnePastTheLock(w, c, d);
    }
    forall d | d in w.callers && d != c ensures d in v.callers && v.callers[d] == w.callers[d] {}
  }

  lemma CallComesBack(w: World, c: nat, key: Key)
    requires Consistent(w) && CallsKept(w, key) && c in w.callers && w.callers[c].stage.Classifying?
    requires w.callers[c].guard < |w.heap|
    ensures CallsKept(Next(w, Records(c)), key)
  {
    hide Consistent, BeingClassified;
    GoneClassifier(w, Next(w, Records(c)), c, key);
  }

  lemma CallIsLost(w: World, c: nat, key: Key)
    requires Consistent(w) && CallsKept(w, key) && c in w.callers && w.callers[c].stage.Classifying?
    requires w.callers[c].guard < |w.heap|
    ensures CallsKept(Next(w, Drops(c)), key)
  {
    hide Consistent, BeingClassified;
    GoneClassifier(w, Next(w, Drops(c)), c, key);
  }

  lemma {:induction false} AlwaysConsistent(steps: seq<Step>)
    ensures Consistent(Run(steps)) && Frugal(Run(steps))
  {
    hide Next;
    if steps != [] {
      AlwaysConsistent(steps[..|steps| - 1]);
      StepConsistent(Run(steps[..|steps| - 1]), steps[|steps| - 1]);
      StepFrugal(Run(steps[..|steps| - 1]), steps[|steps| - 1]);
    }
  }

  /** Under every interleaving: a room is open exactly while somebody is inside, its count is
      their number, they share one guard, and the classifier calls paid for a turn are at most one more than
      the callers that were cancelled while theirs was out. */
  lemma WaitingRoomKept(steps: seq<Step>)
    ensures var w := Run(steps);
            && (forall key :: key in w.locks <==> Inside(w, key) != {})
            && (forall key | key in w.locks ::
                  w.locks[key] < |w.heap| && w.heap[w.locks[key]].waiting == |Inside(w, key)|)
            && (forall c, d | c in w.callers && d in w.callers && w.callers[c].key == w.callers[d].key ::
                  w.callers[c].guard == w.callers[d].guard)
            && (forall key: Key :: w.calls[key] <= w.lost[key] + 1)
  {
    AlwaysConsistent(steps);
    var w := Run(steps);
    forall key: Key ensures w.calls[key] <= w.lost[key] + 1 {
      assert CallsKept(w, key);
    }
    forall c | c in w.callers ensures w.callers[c].key in w.locks && w.callers[c].guard == w.locks[w.callers[c].key] {
      assert CallerKept(w, c);
    }
    forall key ensures key in w.locks <==> Inside(w, key) != {} {
      if key in w.locks { assert RoomKept(w, key); }
    }
    forall key | key in w.locks ensures w.heap[w.locks[key]].waiting == |Inside(w, key)| { assert RoomKept(w, key); }
  }

  /** At most one caller at a time decides a given turn. */
  lemma OneDecides(steps: seq<Step>)
    ensures var w := Run(steps);
            forall c, d | c in w.callers && d in w.callers && w.callers[c].key == w.callers[d].key
                          && !w.callers[c].stage.Waiting? && !w.callers[d].stage.Waiting? :: c == d
  {
    AlwaysConsistent(steps);
    var w := Run(steps);
    forall c, d | c in w.callers && d in w.callers && w.callers[c].key == w.callers[d].key
                  && !w.callers[c].stage.Waiting? && !w.callers[d].stage.Waiting?
      ensures c == d
    {
      OnePastTheLock(w, c, d);
    }
  }

  /** A turn can always get its plan: where it has none and nobody is inside, the next caller, left alone, gets it
      planned with one classifier call and leaves everything else as it was. */
  lemma LoneCallerPlans(w: World, c: nat, key: Key)
    requires Consistent(w) && c !in w.callers && key !in w.planned && Inside(w, key) == {}
    ensures var arrived := Next(w, Arrives(c, key));
            var v := Next(Next(Next(arrived, Acquires(c)), Asks(c, true)), Records(c));
            && v.planned == w.planned + {key} && v.calls == w.calls + multiset{key} && v.lost == w.lost
            && v.callers == w.callers && v.locks == w.locks && w.heap <= v.heap
  {
    OpenRoomIsInhabited(w, key);
    var room := w.(locks := w.locks[key := |w.heap|]);
    var w1 := room.(heap := w.heap + [Guard(key, 1, None)], callers := w.callers[c := Caller(key, |w.heap|, Waiting)]);
    var w2 := w1.(heap := w.heap + [Guard(key, 1, Some(c))], callers := w.callers[c := Caller(key, |w.heap|, Holding)]);
    LoneCallerEnters(w, c, key);
    assert Next(w, Arrives(c, key)) == w1;
    assert Next(w1, Acquires(c)) == w2;
    LoneCallerClassifies(w, c, key);
  }

  lemma OpenRoomIsInhabited(w: World, key: Key)
    requires Consistent(w)
    ensures key in w.locks ==> Inside(w, key) != {}
  {
    if key in w.locks {
      assert RoomKept(w, key);
    }
  }

  lemma LoneCallerEnters(w: World, c: nat, key: Key)
    requires key !in w.locks
    ensures Entered(w, c, key) == w.(locks := w.locks[key := |w.heap|], heap := w.heap + [Guard(key, 1, None)],
                                     callers := w.callers[c := Caller(key, |w.heap|, Waiting)])
  {
    var enlarged := w.heap + [Guard(key, 0, None)];
    assert enlarged[|w.heap| := Guard(key, 1, None)] == w.heap + [Guard(key, 1, None)];
  }

  lemma LoneCallerClassifies(w: World, c: nat, key: Key)
    requires c !in w.callers && key !in w.planned && key !in w.locks
    ensures var held := w.(locks := w.locks[key := |w.heap|], heap := w.heap + [Guard(key, 1, Some(c))],
                           callers := w.callers[c := Caller(key, |w.heap|, Holding)]);
            var v := Next(Next(held, Asks(c, true)), Records(c));
            && v.planned == w.planned + {key} && v.calls == w.calls + multiset{key} && v.lost == w.lost
            && v.callers == w.callers && v.locks == w.locks && w.heap <= v.heap
  {
    var asked := w.(locks := w.locks[key := |w.heap|], heap := w.heap + [Guard(key, 1, Some(c))],
                    callers := w.callers[c := Caller(key, |w.heap|, Classifying)], calls := w.calls + multiset{key});
    var told := asked.(planned := w.planned + {key});
    assert told.heap[|w.heap| := Guard(key, 0, None)] == w.heap + [Guard(key, 0, None)];
    assert told.callers - {c} == w.callers && told.locks - {key} == w.locks;
  }
}
