/** The commands of the board run through the unit of work: concurrency adds no behaviour to that of runs. */
module Serialized {
  import opened Wrappers
  import opened Domain
  import opened Store
  import opened Commands
  import opened Effects
  import opened Runs
  import PromiseChain
  import UnitOfWork

  /** One command as the body of a transaction: it throws when the command is refused. */
  ghost function AsTask(t: Timed): UnitOfWork.Task<(), Db> {
    UnitOfWork.Task((), [(u, db) =>
      if WellFormed(db) && Execute(t.x, db, t.c).Success? then UnitOfWork.Ok((), Execute(t.x, db, t.c).value)
      else UnitOfWork.Throws])
  }

  ghost predicate AreCommands(tasks: seq<UnitOfWork.Task<(), Db>>, calls: seq<Timed>) {
    |tasks| == |calls| && forall k :: 0 <= k < |calls| ==> tasks[k] == AsTask(calls[k])
  }

  ghost function Picked(calls: seq<Timed>, order: seq<nat>): (steps: seq<Timed>)
    requires forall i :: 0 <= i < |order| ==> order[i] < |calls|
    ensures |steps| == |order|
  {
    seq(|order|, i requires 0 <= i < |order| => calls[order[i]])
  }

  lemma TaskIsStep(t: Timed, db: Db)
    requires WellFormed(db)
    ensures |AsTask(t).stmts| == 1
    ensures UnitOfWork.RunTo(AsTask(t), 1, db).Ok? ==> UnitOfWork.RunTo(AsTask(t), 1, db).db == Step(t.x, db, t.c)
  {
    assert UnitOfWork.RunTo(AsTask(t), 0, db) == UnitOfWork.Ok((), db);
  }

  lemma StatesEnd(start: Db, steps: seq<Timed>)
    requires WellFormed(start) && steps != []
    ensures var n := |steps| - 1;
            var before := States(start, steps[..n])[n];
            WellFormed(before) && States(start, steps)[n + 1] == Step(steps[n].x, before, steps[n].c)
  {
  }

  /** The picked calls, run one at a time, lead from `start` to `db`. */
  ghost predicate RunsTo(calls: seq<Timed>, order: seq<nat>, start: Db, db: Db) {
    && WellFormed(start) && WellFormed(db) && (forall i :: 0 <= i < |order| ==> order[i] < |calls|)
    && States(start, Picked(calls, order))[|order|] == db
  }

  lemma {:induction false} SerialIsRun(tasks: seq<UnitOfWork.Task<(), Db>>, calls: seq<Timed>, order: seq<nat>, start: Db)
    requires WellFormed(start) && AreCommands(tasks, calls)
    requires UnitOfWork.Serial(tasks, order, start).Some?
    ensures RunsTo(calls, order, start, UnitOfWork.Serial(tasks, order, start).value)
    decreases |order|
  {
    if order != [] {
      var n := |order| - 1;
      UnitOfWork.SerialEnds(tasks, order, start);
      SerialIsRun(tasks, calls, order[..n], start);
      var before := UnitOfWork.Serial(tasks, order[..n], start).value;
      LastIsStep(tasks, calls, order, start, before);
      OneMoreStep(calls, order[..n], order[n], start, before);
      assert order[..n] + [order[n]] == order;
    }
  }

  lemma LastIsStep(tasks: seq<UnitOfWork.Task<(), Db>>, calls: seq<Timed>, order: seq<nat>, start: Db, before: Db)
    requires AreCommands(tasks, calls) && order != [] && UnitOfWork.Serial(tasks, order, start).Some?
    requires UnitOfWork.Serial(tasks, order[..|order| - 1], start) == Some(before) && WellFormed(before)
    ensures var k := order[|order| - 1];
            k < |calls| && UnitOfWork.Serial(tasks, order, start) == Some(Step(calls[k].x, before, calls[k].c))
  {
    UnitOfWork.SerialEnds(tasks, order, start);
    TaskIsStep(calls[order[|order| - 1]], before);
  }

  lemma OneMoreStep(calls: seq<Timed>, front: seq<nat>, k: nat, start: Db, db: Db)
    requires RunsTo(calls, front, start, db) && k < |calls|
    ensures RunsTo(calls, front + [k], start, Step(calls[k].x, db, calls[k].c))
  {
    PickedFront(calls, front, k);
    StatesEnd(start, Picked(calls, front + [k]));
    Runs.StepKeeps(calls[k].x, db, calls[k].c);
  }

  lemma PickedFront(calls: seq<Timed>, front: seq<nat>, last: nat)
    requires last < |calls| && forall i :: 0 <= i < |front| ==> front[i] < |calls|
    ensures forall i :: 0 <= i < |front| + 1 ==> (front + [last])[i] < |calls|
    ensures Picked(calls, front + [last])[..|front|] == Picked(calls, front)
  {
  }

  /**
   * Whatever the interleaving, the committed tables are the last state of a run: the successful commands, one at a
   * time, in the order in which they were called. So all that is proved about runs holds for concurrent callers.
   */
  lemma CommittedIsARun(ms: seq<UnitOfWork.Machine<(), Db>>, moves: seq<UnitOfWork.Move<(), Db>>, start: Db, i: nat,
                        calls: seq<Timed>)
    requires UnitOfWork.Behaviour(ms, moves, start) && i <= |moves| && WellFormed(start)
    requires AreCommands(ms[i].tasks, calls)
    ensures forall j :: 0 <= j < |ms[i].commits| ==> ms[i].commits[j] < |calls|
    ensures var steps := Picked(calls, ms[i].commits);
            IsRun(States(start, steps), steps) && States(start, steps)[|steps|] == ms[i].committed
    ensures forall j, k :: 0 <= j < k < |ms[i].commits| ==> ms[i].commits[j] < ms[i].commits[k]
  {
    UnitOfWork.SerialEquivalence(ms, moves, start, i);
    SerialIsRun(ms[i].tasks, calls, ms[i].commits, start);
  }

  // ---- Nobody is forgotten ----

  lemma TaskGoesThroughIff(t: Timed, db: Db)
    requires WellFormed(db)
    ensures UnitOfWork.RunTo(AsTask(t), 1, db).Ok? <==> Execute(t.x, db, t.c).Success?
  {
    assert UnitOfWork.RunTo(AsTask(t), 0, db) == UnitOfWork.Ok((), db);
  }

  lemma StatesGrow(start: Db, calls: seq<Timed>, n: nat)
    requires WellFormed(start) && n < |calls|
    ensures WellFormed(States(start, calls[..n])[n])
    ensures States(start, calls[..n + 1])[n + 1] == Step(calls[n].x, States(start, calls[..n])[n], calls[n].c)
  {
    assert calls[..n + 1][..n] == calls[..n];
    StatesEnd(start, calls[..n + 1]);
  }

  lemma EarlierOneMore(commits: seq<nat>, n: nat)
    requires UnitOfWork.Ascending(commits)
    ensures UnitOfWork.Earlier(commits, n + 1) ==
              UnitOfWork.Earlier(commits, n) + (if n in commits then [n] else [])
    decreases |commits|
  {
    if commits != [] {
      var last, front := commits[|commits| - 1], commits[..|commits| - 1];
      assert commits == front + [last];
      if last > n {
        EarlierOneMore(front, n);
      } else if last == n {
        UnitOfWork.AllEarlier(front, n);
        assert UnitOfWork.Earlier(commits, n) == front;
      }
    }
  }

  /** Up to call `n`, the commits have made of the first tables what all calls, in their order, make of them. */
  lemma {:induction false} EarlierIsEveryCall(m: UnitOfWork.Machine<(), Db>, start: Db, calls: seq<Timed>, n: nat)
    requires WellFormed(start) && AreCommands(m.tasks, calls) && UnitOfWork.Ascending(m.commits)
    requires UnitOfWork.Fair(m, start, 0) && n <= |calls| && PromiseChain.AllSettled(m.writers, n)
    ensures UnitOfWork.Serial(m.tasks, UnitOfWork.Earlier(m.commits, n), start) == Some(States(start, calls[..n])[n])
  {
    if n == 0 {
      NothingBefore(m.commits);
    } else {
      EarlierIsEveryCall(m, start, calls, n - 1);
      EarlierOneMore(m.commits, n - 1);
      StatesGrow(start, calls, n - 1);
      OneMoreCall(m, start, calls, n - 1, States(start, calls[..n - 1])[n - 1]);
    }
  }

  lemma {:induction false} NothingBefore(commits: seq<nat>)
    ensures UnitOfWork.Earlier(commits, 0) == []
  {
    if commits != [] {
      NothingBefore(commits[..|commits| - 1]);
    }
  }

  lemma OneMoreCall(m: UnitOfWork.Machine<(), Db>, start: Db, calls: seq<Timed>, n: nat, before: Db)
    requires AreCommands(m.tasks, calls) && UnitOfWork.Fair(m, start, 0) && n < |calls|
    requires m.writers.stages[n] == PromiseChain.Settled && WellFormed(before)
    requires UnitOfWork.Serial(m.tasks, UnitOfWork.Earlier(m.commits, n), start) == Some(before)
    ensures n in m.commits <==> Execute(calls[n].x, before, calls[n].c).Success?
    ensures UnitOfWork.Serial(m.tasks, UnitOfWork.Earlier(m.commits, n) + (if n in m.commits then [n] else []), start)
            == Some(Step(calls[n].x, before, calls[n].c))
  {
    var front := UnitOfWork.Earlier(m.commits, n);
    TaskGoesThroughIff(calls[n], before);
    assert UnitOfWork.GoesThrough(m, start, n) <==> Execute(calls[n].x, before, calls[n].c).Success?;
    if n in m.commits {
      TaskIsStep(calls[n], before);
      assert (front + [n])[..|front|] == front;
    } else {
      assert front + [] == front;
    }
  }

  /** The command succeeds on the tables that all calls before it lead to. */
  ghost predicate SucceedsInTurn(start: Db, calls: seq<Timed>, k: nat)
    requires WellFormed(start) && k < |calls|
  {
    Execute(calls[k].x, States(start, calls[..k])[k], calls[k].c).Success?
  }

  lemma CommitsInTurn(m: UnitOfWork.Machine<(), Db>, start: Db, calls: seq<Timed>, n: nat, k: nat)
    requires WellFormed(start) && AreCommands(m.tasks, calls) && UnitOfWork.Ascending(m.commits)
    requires UnitOfWork.Fair(m, start, 0) && PromiseChain.AllSettled(m.writers, n) && k < n <= |calls|
    ensures k in m.commits <==> SucceedsInTurn(start, calls, k)
  {
    StatesGrow(start, calls, k);
    EarlierIsEveryCall(m, start, calls, k);
    OneMoreCall(m, start, calls, k, States(start, calls[..k])[k]);
  }

  lemma EndsWithEveryCall(m: UnitOfWork.Machine<(), Db>, start: Db, calls: seq<Timed>)
    requires WellFormed(start) && AreCommands(m.tasks, calls) && UnitOfWork.Ascending(m.commits)
    requires UnitOfWork.Fair(m, start, 0) && PromiseChain.AllSettled(m.writers, |calls|)
    requires UnitOfWork.Serial(m.tasks, m.commits, start) == Some(m.committed)
    requires forall i :: 0 <= i < |m.commits| ==> m.commits[i] < |calls|
    ensures m.committed == States(start, calls)[|calls|]
  {
    EarlierIsEveryCall(m, start, calls, |calls|);
    assert calls[..|calls|] == calls;
    UnitOfWork.AllEarlier(m.commits, |calls|);
  }

  /**
   * If the database refuses nobody, then once every caller is done the tables are those that all the calls, one at a
   * time in their order, lead to, and exactly the callers whose command succeeds there have committed.
   */
  lemma EveryCallCounts(ms: seq<UnitOfWork.Machine<(), Db>>, moves: seq<UnitOfWork.Move<(), Db>>, start: Db, i: nat,
                        calls: seq<Timed>)
    requires UnitOfWork.Behaviour(ms, moves, start) && i <= |moves| && WellFormed(start) && AreCommands(ms[i].tasks, calls)
    requires forall j :: 0 <= j < i ==> UnitOfWork.Granted(moves[j])
    requires PromiseChain.AllSettled(ms[i].writers, |calls|)
    ensures ms[i].committed == States(start, calls)[|calls|]
    ensures forall k :: 0 <= k < |calls| ==> (k in ms[i].commits <==> SucceedsInTurn(start, calls, k))
  {
    UnitOfWork.BehaviourKeeps(ms, moves, start, i);
    UnitOfWork.CommitsIffItGoesThrough(ms, moves, start, i);
    CommittedCalls(ms[i], start);
    EndsWithEveryCall(ms[i], start, calls);
    forall k | 0 <= k < |calls|
      ensures k in ms[i].commits <==> SucceedsInTurn(start, calls, k)
    {
      CommitsInTurn(ms[i], start, calls, |calls|, k);
    }
  }

  lemma CommittedCalls(m: UnitOfWork.Machine<(), Db>, start: Db)
    requires UnitOfWork.Inv(m, start)
    ensures UnitOfWork.Ascending(m.commits) && UnitOfWork.Serial(m.tasks, m.commits, start) == Some(m.committed)
    ensures forall i :: 0 <= i < |m.commits| ==> m.commits[i] < |m.tasks|
  {
    assert forall i :: 0 <= i < |m.commits| ==> m.commits[i] in m.commits;
  }

  /** Of any number of concurrent writers that state the same version of a card, at most one gets to rewrite or discard it. */
  lemma OneWriterPerVersion(ms: seq<UnitOfWork.Machine<(), Db>>, moves: seq<UnitOfWork.Move<(), Db>>, start: Db, i: nat,
                            calls: seq<Timed>, j: nat, k: nat, c: CardId)
    requires UnitOfWork.Behaviour(ms, moves, start) && i <= |moves| && WellFormed(start)
    requires AreCommands(ms[i].tasks, calls)
    requires j < k < |ms[i].commits| && forall l :: 0 <= l < |ms[i].commits| ==> ms[i].commits[l] < |calls|
    requires var steps := Picked(calls, ms[i].commits);
             var dbs := States(start, steps);
             StaysPresent(dbs, j, k, c) && Consumes(dbs, steps, j, c) && Consumes(dbs, steps, k, c)
    ensures Expected(calls[ms[i].commits[j]].c).value < Expected(calls[ms[i].commits[k]].c).value
  {
    var steps := Picked(calls, ms[i].commits);
    CommittedIsARun(ms, moves, start, i, calls);
    VersionConsumedOnce(States(start, steps), steps, j, k, c);
  }
}
