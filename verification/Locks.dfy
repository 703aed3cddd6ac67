/** Deadlock freedom of the core's locks, for any number of tasks and any interleaving. */
module Locks {
  type TaskId = nat

  /** The locks of one core; a UDP session has its own activity lock. */
  datatype Lock = HandleCache | ClientCell | ConnectorCell | LastActivity(session: nat) | EngineMutex

  /** The nesting order. */
  function Rank(l: Lock): nat {
    match l
    case HandleCache => 0
    case ClientCell => 1
    case ConnectorCell => 1
    case LastActivity(_) => 2
    case EngineMutex => 2
  }

  datatype Op = Take(lock: Lock) | Give(lock: Lock)

  /** The lock sections of the source. A task performs one after another. */
  datatype Section =
    | EngineCall                  // a packet, a poll, a drop, a lifecycle call
    | ActivityTouch(session: nat) // a stamp, or the idle check
    | HandleHit                   // the cached handle is good
    | HandleMiss                  // the client cell is visited under the cache lock
    | ConnectorCall

  function Script(s: Section): seq<Op> {
    match s
    case EngineCall => [Take(EngineMutex), Give(EngineMutex)]
    case ActivityTouch(n) => [Take(LastActivity(n)), Give(LastActivity(n))]
    case HandleHit => [Take(HandleCache), Give(HandleCache)]
    case HandleMiss => [Take(HandleCache), Take(ClientCell), Give(ClientCell), Give(HandleCache)]
    case ConnectorCall => [Take(ConnectorCell), Give(ConnectorCell)]
  }

  /** `todo` is what is left of a task's current section, `held` what it has taken, latest last. */
  datatype Task = Task(todo: seq<Op>, held: seq<Lock>)

  datatype System = System(tasks: map<TaskId, Task>, owner: map<Lock, TaskId>)

  const NO_TASKS := System(map[], map[])

  datatype Move =
    | Spawn(task: TaskId)
    | Begin(task: TaskId, section: Section)
    | Advance(task: TaskId)
    | Cancel(task: TaskId)  // dropped at an await: guards go first, then Drop locks the engine

  predicate Idle(s: System, t: TaskId) {
    t in s.tasks && s.tasks[t].todo == []
  }

  predicate Blocked(s: System, t: TaskId) {
    t in s.tasks && s.tasks[t].todo != [] && s.tasks[t].todo[0].Take? && s.tasks[t].todo[0].lock in s.owner
  }

  predicate CanMove(s: System, m: Move) {
    match m
    case Spawn(t) => t !in s.tasks
    case Begin(t, _) => Idle(s, t)
    case Advance(t) => t in s.tasks && s.tasks[t].todo != [] && !Blocked(s, t)
    case Cancel(t) => t in s.tasks && EngineMutex !in s.tasks[t].held
  }

  function GiveAll(held: seq<Lock>): seq<Op> {
    if held == [] then [] else [Give(held[|held| - 1])] + GiveAll(held[..|held| - 1])
  }

  function Moved(s: System, m: Move): System
    requires CanMove(s, m)
  {
    match m
    case Spawn(t) => s.(tasks := s.tasks[t := Task([], [])])
    case Begin(t, section) => s.(tasks := s.tasks[t := Task(Script(section), s.tasks[t].held)])
    case Advance(t) =>
      var k := s.tasks[t];
      match k.todo[0] {
        case Take(l) => System(s.tasks[t := Task(k.todo[1..], k.held + [l])], s.owner[l := t])
        case Give(l) =>
          System(s.tasks[t := Task(k.todo[1..], if k.held == [] then [] else k.held[..|k.held| - 1])], s.owner - {l})
      }
    case Cancel(t) =>
      s.(tasks := s.tasks[t := Task(GiveAll(s.tasks[t].held) + Script(EngineCall), s.tasks[t].held)])
  }

  function Play(s: System, moves: seq<Move>): (r: System)
    requires Playable(s, moves)
    decreases |moves|
  {
    if moves == [] then s else Play(Moved(s, moves[0]), moves[1..])
  }

  predicate Playable(s: System, moves: seq<Move>)
    decreases |moves|
  {
    moves == [] || (CanMove(s, moves[0]) && Playable(Moved(s, moves[0]), moves[1..]))
  }

  /** The rest of a section, run from `held`, gives back the latest lock each time, takes only
      locks of higher rank than all it holds, and ends holding nothing. */
  predicate Ordered(todo: seq<Op>, held: seq<Lock>)
    decreases |todo|
  {
    if todo == [] then held == []
    else match todo[0]
      case Take(l) => (held != [] ==> Rank(held[|held| - 1]) < Rank(l)) && Ordered(todo[1..], held + [l])
      case Give(l) => held != [] && held[|held| - 1] == l && Ordered(todo[1..], held[..|held| - 1])
  }

  ghost predicate Ascending(held: seq<Lock>) {
    forall i, j | 0 <= i < j < |held| :: Rank(held[i]) < Rank(held[j])
  }

  ghost predicate Fit(k: Task) {
    Ordered(k.todo, k.held) && Ascending(k.held)
  }

  /** What a task holds and what the locks say about their owners is the same. */
  ghost predicate Owns(tasks: map<TaskId, Task>, owner: map<Lock, TaskId>) {
    && (forall t, l | t in tasks && l in tasks[t].held :: l in owner && owner[l] == t)
    && (forall l | l in owner :: owner[l] in tasks && l in tasks[owner[l]].held)
  }

  ghost predicate Orderly(s: System) {
    (forall t | t in s.tasks :: Fit(s.tasks[t])) && Owns(s.tasks, s.owner)
  }

  lemma ScriptsAreOrdered(s: Section)
    ensures Ordered(Script(s), [])
  {
    if s.HandleMiss? {
      var h := [HandleCache];
      assert Ordered([], []);
      assert Script(s)[1..] == [Take(ClientCell), Give(ClientCell), Give(HandleCache)];
      assert (h + [ClientCell])[..1] == h && h[..0] == [];
      assert Ordered([Give(HandleCache)], h);
      assert Ordered([Give(ClientCell), Give(HandleCache)], h + [ClientCell]);
      assert [] + h == h;
      assert Ordered(Script(s)[1..], h);
    } else {
      var l := Script(s)[0].lock;
      assert Script(s)[1..] == [Give(l)] && [] + [l] == [l];
      assert Ordered([Give(l)], [l]);
    }
  }

  /** Which sections take which lock; all but a cache miss take one lock only, and a miss visits
      the client cell while it holds the cache. */
  lemma SectionsOfEachLock(s: Section, session: nat)
    ensures Take(HandleCache) in Script(s) <==> s.HandleHit? || s.HandleMiss?
    ensures Take(ClientCell) in Script(s) <==> s.HandleMiss?
    ensures Take(ConnectorCell) in Script(s) <==> s.ConnectorCall?
    ensures Take(LastActivity(session)) in Script(s) <==> s == ActivityTouch(session)
    ensures Take(EngineMutex) in Script(s) <==> s.EngineCall?
    ensures |Script(s)| == if s.HandleMiss? then 4 else 2
    ensures s.HandleMiss? ==> Script(s)[1] == Take(ClientCell) && Script(s)[3] == Give(HandleCache)
  {
  }

  lemma AscendingPrefix(held: seq<Lock>)
    requires Ascending(held) && held != []
    ensures Ascending(held[..|held| - 1])
  {
  }

  lemma {:induction false} CancelIsOrdered(held: seq<Lock>)
    requires Ascending(held)
    ensures Ordered(GiveAll(held) + Script(EngineCall), held)
    decreases |held|
  {
    hide Ascending;
    if held == [] {
      ScriptsAreOrdered(EngineCall);
      assert GiveAll(held) + Script(EngineCall) == Script(EngineCall);
    } else {
      var rest := held[..|held| - 1];
      AscendingPrefix(held);
      CancelIsOrdered(rest);
      var todo := GiveAll(held) + Script(EngineCall);
      assert todo[1..] == GiveAll(rest) + Script(EngineCall);
    }
  }

  lemma FitAfterTake(k: Task, l: Lock)
    requires Fit(k) && k.todo != [] && k.todo[0] == Take(l)
    ensures Fit(Task(k.todo[1..], k.held + [l]))
  {
    var held := k.held + [l];
    forall i, j | 0 <= i < j < |held| ensures Rank(held[i]) < Rank(held[j]) {
      if j == |k.held| && i < j - 1 { assert Rank(k.held[i]) < Rank(k.held[j - 1]); }
    }
  }

  lemma FitAfterGive(k: Task, l: Lock)
    requires Fit(k) && k.todo != [] && k.todo[0] == Give(l)
    ensures k.held != [] && k.held == k.held[..|k.held| - 1] + [l] && l !in k.held[..|k.held| - 1]
    ensures Fit(Task(k.todo[1..], k.held[..|k.held| - 1]))
  {
    var n := |k.held| - 1;
    assert forall i | 0 <= i < n :: Rank(k.held[i]) < Rank(k.held[n]);
  }

  lemma OwnsAfterTake(tasks: map<TaskId, Task>, owner: map<Lock, TaskId>, t: TaskId, l: Lock, todo: seq<Op>)
    requires Owns(tasks, owner) && t in tasks && l !in owner
    ensures Owns(tasks[t := Task(todo, tasks[t].held + [l])], owner[l := t])
  {
  }

  lemma OwnsAfterGive(tasks: map<TaskId, Task>, owner: map<Lock, TaskId>, t: TaskId,
                        l: Lock, todo: seq<Op>, held: seq<Lock>)
    requires Owns(tasks, owner) && t in tasks && tasks[t].held == held + [l] && l !in held
    ensures Owns(tasks[t := Task(todo, held)], owner - {l})
  {
    assert tasks[t].held[|held|] == l;
    assert forall x :: x in tasks[t].held <==> x in held || x == l;
    assert l in owner && owner[l] == t;
  }

  lemma OwnsAfterPlan(tasks: map<TaskId, Task>, owner: map<Lock, TaskId>, t: TaskId, todo: seq<Op>)
    requires Owns(tasks, owner)
    ensures Owns(tasks[t := Task(todo, if t in tasks then tasks[t].held else [])], owner)
  {
  }

  lemma MoveKeepsOrder(s: System, m: Move)
    requires Orderly(s) && CanMove(s, m)
    ensures Orderly(Moved(s, m))
  {
    hide Owns, Fit, Ordered;
    match m
    case Spawn(t) =>
      OwnsAfterPlan(s.tasks, s.owner, t, []);
      NothingLeftIsFit();
    case Begin(t, section) =>
      IdleHoldsNothing(s.tasks[t]);
      ScriptIsFit(section);
      OwnsAfterPlan(s.tasks, s.owner, t, Script(section));
    case Advance(t) =>
      var k := s.tasks[t];
      match k.todo[0] {
        case Take(l) =>
          FitAfterTake(k, l);
          OwnsAfterTake(s.tasks, s.owner, t, l, k.todo[1..]);
        case Give(l) =>
          FitAfterGive(k, l);
          OwnsAfterGive(s.tasks, s.owner, t, l, k.todo[1..], k.held[..|k.held| - 1]);
      }
    case Cancel(t) =>
      CancelIsFit(s.tasks[t]);
      OwnsAfterPlan(s.tasks, s.owner, t, GiveAll(s.tasks[t].held) + Script(EngineCall));
  }

  lemma NothingLeftIsFit()
    ensures Fit(Task([], []))
  {
  }

  lemma IdleHoldsNothing(k: Task)
    requires Fit(k) && k.todo == []
    ensures k.held == []
  {
  }

  lemma ScriptIsFit(section: Section)
    ensures Fit(Task(Script(section), []))
  {
    ScriptsAreOrdered(section);
  }

  lemma CancelIsFit(k: Task)
    requires Fit(k)
    ensures Fit(Task(GiveAll(k.held) + Script(EngineCall), k.held))
  {
    CancelIsOrdered(k.held);
  }

  lemma {:induction false} PlayKeepsOrder(s: System, moves: seq<Move>)
    requires Orderly(s) && Playable(s, moves)
    ensures Orderly(Play(s, moves))
    decreases |moves|
  {
    if moves != [] {
      MoveKeepsOrder(s, moves[0]);
      PlayKeepsOrder(Moved(s, moves[0]), moves[1..]);
    }
  }

  lemma TakesGoUp(k: Task, l: Lock)
    requires Fit(k) && k.todo != [] && k.todo[0] == Take(l)
    ensures forall x | x in k.held :: Rank(x) < Rank(l)
  {
    forall x | x in k.held ensures Rank(x) < Rank(l) {
      var i :| 0 <= i < |k.held| && k.held[i] == x;
      var last := |k.held| - 1;
      if i < last { assert Rank(k.held[i]) < Rank(k.held[last]); }
    }
  }

  /** Waiting always leads upwards: a blocked task waits for a lock of higher rank than every
      lock it holds, and is not its own obstacle. */
  lemma WaitsLeadUp(s: System, t: TaskId)
    requires Orderly(s) && Blocked(s, t)
    ensures var l := s.tasks[t].todo[0].lock;
            && s.owner[l] in s.tasks && l in s.tasks[s.owner[l]].held && s.owner[l] != t
            && forall k | k in s.tasks[t].held :: Rank(k) < Rank(l)
  {
    hide Fit;
    TakesGoUp(s.tasks[t], s.tasks[t].todo[0].lock);
  }

  /** Following the waits from any unfinished task reaches one that can go on. */
  lemma {:induction false} SomeoneCanGoOn(s: System, t: TaskId) returns (u: TaskId)
    requires Orderly(s) && t in s.tasks && s.tasks[t].todo != []
    ensures CanMove(s, Advance(u))
    decreases if Blocked(s, t) then 3 - Rank(s.tasks[t].todo[0].lock) else 0
  {
    if !Blocked(s, t) {
      u := t;
    } else {
      WaitsLeadUp(s, t);
      var l := s.tasks[t].todo[0].lock;
      var o := s.owner[l];
      assert Fit(s.tasks[o]) && s.tasks[o].todo != [];
      if Blocked(s, o) { WaitsLeadUp(s, o); }
      u := SomeoneCanGoOn(s, o);
    }
  }

  /** No deadlock: in every state reached by any number of tasks in any interleaving,
      cancellations included, if some task is inside a section then some task can go on. */
  lemma NoDeadlock(moves: seq<Move>, t: TaskId)
    requires Playable(NO_TASKS, moves)
    requires t in Play(NO_TASKS, moves).tasks && Play(NO_TASKS, moves).tasks[t].todo != []
    ensures exists u :: CanMove(Play(NO_TASKS, moves), Advance(u))
  {
    PlayKeepsOrder(NO_TASKS, moves);
    var u := SomeoneCanGoOn(Play(NO_TASKS, moves), t);
  }

  /** The moves of a task that begins a section and takes n of its steps. */
  function Moves(t: TaskId, section: Section, n: nat): seq<Move> {
    [Begin(t, section)] + seq(n, _ => Advance(t))
  }

  /** What a task holds after these steps. */
  function HeldAfter(held: seq<Lock>, ops: seq<Op>): seq<Lock>
    decreases |ops|
  {
    if ops == [] then held
    else match ops[0]
      case Take(l) => HeldAfter(held + [l], ops[1..])
      case Give(_) => HeldAfter(if held == [] then [] else held[..|held| - 1], ops[1..])
  }

  lemma {:induction false} AdvancesRun(s: System, t: TaskId, n: nat)
    requires Orderly(s) && t in s.tasks && n <= |s.tasks[t].todo|
    requires forall i | 0 <= i < n && s.tasks[t].todo[i].Take? ::
               s.tasks[t].todo[i].lock !in s.owner || s.owner[s.tasks[t].todo[i].lock] == t
    ensures var moves := seq(n, _ => Advance(t));
            && Playable(s, moves) && t in Play(s, moves).tasks
            && Play(s, moves).tasks[t] ==
                 Task(s.tasks[t].todo[n..], HeldAfter(s.tasks[t].held, s.tasks[t].todo[..n]))
    decreases n
  {
    hide Orderly, Fit, Owns, Ordered;
    var moves := seq(n, _ => Advance(t));
    var k := s.tasks[t];
    if n == 0 {
      assert moves == [] && k.todo[..0] == [] && k.todo[0..] == k.todo;
    } else {
      if k.todo[0].Take? { NotOwnObstacle(s, t); }
      var d := Moved(s, Advance(t));
      MoveKeepsOrder(s, Advance(t));
      assert moves[0] == Advance(t) && moves[1..] == seq(n - 1, _ => Advance(t));
      assert d.tasks[t].todo == k.todo[1..];
      assert k.todo[1..][n - 1..] == k.todo[n..] && k.todo[..n][1..] == k.todo[1..][..n - 1];
      AdvancesRun(d, t, n - 1);
    }
  }

  lemma NotOwnObstacle(s: System, t: TaskId)
    requires Orderly(s) && t in s.tasks && s.tasks[t].todo != [] && s.tasks[t].todo[0].Take?
    requires s.tasks[t].todo[0].lock in s.owner ==> s.owner[s.tasks[t].todo[0].lock] == t
    ensures !Blocked(s, t)
  {
    if Blocked(s, t) { WaitsLeadUp(s, t); }
  }

  /** A section whose locks are free runs through: after n steps the task has done exactly the
      first n operations of its script and holds what they took, and at the end nothing. */
  lemma UncontendedSectionRuns(moves: seq<Move>, t: TaskId, section: Section, n: nat)
    requires Playable(NO_TASKS, moves) && Idle(Play(NO_TASKS, moves), t) && n <= |Script(section)|
    requires forall l | Take(l) in Script(section) :: l !in Play(NO_TASKS, moves).owner
    ensures var s := Play(NO_TASKS, moves);
            && Playable(s, Moves(t, section, n)) && t in Play(s, Moves(t, section, n)).tasks
            && Play(s, Moves(t, section, n)).tasks[t] == Task(Script(section)[n..], HeldAfter([], Script(section)[..n]))
    ensures HeldAfter([], Script(section)) == []
  {
    hide Orderly, Script;
    PlayKeepsOrder(NO_TASKS, moves);
    var s := Play(NO_TASKS, moves);
    var d := Moved(s, Begin(t, section));
    MoveKeepsOrder(s, Begin(t, section));
    IdleTaskHoldsNothing(s, t);
    assert Moves(t, section, n)[1..] == seq(n, _ => Advance(t));
    forall i | 0 <= i < n && Script(section)[i].Take? ensures Script(section)[i].lock !in d.owner {
      assert Take(Script(section)[i].lock) in Script(section);
    }
    AdvancesRun(d, t, n);
    ScriptsAreOrdered(section);
    OrderedEndsEmpty(Script(section), []);
  }

  /** Any number of tasks may come, and each may be cancelled wherever it is, but inside an
      engine section. A cancelled task gives back all it holds; when the engine mutex is free
      it then runs its drop to the end and is left with nothing. */
  lemma TasksComeAndGo(moves: seq<Move>, t: TaskId)
    requires Playable(NO_TASKS, moves)
    ensures var s := Play(NO_TASKS, moves);
            && (t !in s.tasks ==> CanMove(s, Spawn(t)) && Idle(Moved(s, Spawn(t)), t))
            && (t in s.tasks && EngineMutex !in s.tasks[t].held ==>
                  && CanMove(s, Cancel(t))
                  && var d := Moved(s, Cancel(t));
                  && |d.tasks[t].todo| == |s.tasks[t].held| + 2
                  && (EngineMutex !in s.owner ==>
                        var drop := seq(|d.tasks[t].todo|, _ => Advance(t));
                        && Playable(d, drop) && t in Play(d, drop).tasks
                        && Play(d, drop).tasks[t] == Task([], [])))
  {
    hide Orderly, Fit, Owns, Ordered;
    PlayKeepsOrder(NO_TASKS, moves);
    var s := Play(NO_TASKS, moves);
    if t in s.tasks && EngineMutex !in s.tasks[t].held {
      var held := s.tasks[t].held;
      var d := Moved(s, Cancel(t));
      var todo := d.tasks[t].todo;
      MoveKeepsOrder(s, Cancel(t));
      GivesEachBack(held);
      if EngineMutex !in s.owner {
        OrderlyTaskIsOrdered(d, t);
        OrderedEndsEmpty(todo, held);
        assert todo[..|todo|] == todo;
        AdvancesRun(d, t, |todo|);
      }
    }
  }

  lemma {:induction false} GivesEachBack(held: seq<Lock>)
    ensures |GiveAll(held)| == |held| && forall i | 0 <= i < |held| :: GiveAll(held)[i] == Give(held[|held| - 1 - i])
    decreases |held|
  {
    if held != [] { GivesEachBack(held[..|held| - 1]); }
  }

  lemma OrderlyTaskIsOrdered(s: System, t: TaskId)
    requires Orderly(s) && t in s.tasks
    ensures Ordered(s.tasks[t].todo, s.tasks[t].held)
  {
  }

  lemma IdleTaskHoldsNothing(s: System, t: TaskId)
    requires Orderly(s) && Idle(s, t)
    ensures s.tasks[t].held == []
  {
    IdleHoldsNothing(s.tasks[t]);
  }

  lemma {:induction false} OrderedEndsEmpty(todo: seq<Op>, held: seq<Lock>)
    requires Ordered(todo, held)
    ensures HeldAfter(held, todo) == []
    decreases |todo|
  {
    if todo != [] {
      match todo[0]
      case Take(l) => OrderedEndsEmpty(todo[1..], held + [l]);
      case Give(_) => OrderedEndsEmpty(todo[1..], held[..|held| - 1]);
    }
  }

  /** The engine mutex and the activity locks are leaves: whoever holds one waits for nothing. */
  lemma LeafHoldersNeverWait(moves: seq<Move>, t: TaskId, l: Lock)
    requires Playable(NO_TASKS, moves) && t in Play(NO_TASKS, moves).tasks
    requires l in Play(NO_TASKS, moves).tasks[t].held && (l.EngineMutex? || l.LastActivity?)
    ensures !Blocked(Play(NO_TASKS, moves), t)
  {
    PlayKeepsOrder(NO_TASKS, moves);
    var s := Play(NO_TASKS, moves);
    if Blocked(s, t) {
      WaitsLeadUp(s, t);
    }
  }
}
