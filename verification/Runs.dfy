/** Runs: any number of commands, one transaction after another, each with its own actor, clock and policy. */
module Runs {
  import opened Wrappers
  import opened Domain
  import opened Store
  import opened Commands
  import opened Integrity
  import opened Records
  import opened Trails
  import opened Shapes
  import opened Effects
  import opened Tracking

  datatype Timed = Timed(x: Ctx, c: Command)

  /** `dbs[k + 1]` are the tables that command `k` leaves; a failed command leaves them as they were. */
  ghost predicate Linked(dbs: seq<Db>, steps: seq<Timed>, k: nat)
    requires |dbs| == |steps| + 1 && k < |steps|
  {
    WellFormed(dbs[k]) && WellFormed(dbs[k + 1]) && dbs[k + 1] == Step(steps[k].x, dbs[k], steps[k].c)
  }

  ghost predicate IsRun(dbs: seq<Db>, steps: seq<Timed>) {
    |dbs| == |steps| + 1 && forall k {:trigger Linked(dbs, steps, k)} :: 0 <= k < |steps| ==> Linked(dbs, steps, k)
  }

  /** The states that the steps lead through. They are well formed if the first one is. */
  ghost function States(db: Db, steps: seq<Timed>): (dbs: seq<Db>)
    requires WellFormed(db)
    ensures IsRun(dbs, steps) && dbs[0] == db && WellFormed(dbs[|steps|])
    decreases |steps|
  {
    if steps == [] then [db]
    else
      var front, last := States(db, steps[..|steps| - 1]), steps[|steps| - 1];
      StepKeeps(last.x, front[|steps| - 1], last.c);
      RunGrows(front, steps[..|steps| - 1], last, Step(last.x, front[|steps| - 1], last.c));
      assert steps[..|steps| - 1] + [last] == steps;
      front + [Step(last.x, front[|steps| - 1], last.c)]
  }

  lemma StepKeeps(x: Ctx, db: Db, c: Command)
    requires WellFormed(db)
    ensures WellFormed(Step(x, db, c))
  {
    ExecuteKeeps(x, db, c);
  }

  lemma RunGrows(dbs: seq<Db>, steps: seq<Timed>, t: Timed, db: Db)
    requires IsRun(dbs, steps) && WellFormed(dbs[|steps|]) && WellFormed(db)
    requires db == Step(t.x, dbs[|steps|], t.c)
    ensures IsRun(dbs + [db], steps + [t])
  {
    forall k | 0 <= k < |steps + [t]|
      ensures Linked(dbs + [db], steps + [t], k)
    {
      if k < |steps| {
        assert Linked(dbs, steps, k);
      }
    }
  }

  // ---- Candidates of the nightly archival ----

  /** What the candidate query returns: live cards in a done lane of a live board. */
  predicate InLiveDone(db: Db, c: CardId) {
    && c in db.cards && db.cards[c].archivedAt.None?
    && db.cards[c].lane in db.lanes && db.lanes[db.cards[c].lane].key == Done && db.cards[c].board in db.live
  }

  lemma KeyEverLink(dbs: seq<Db>, steps: seq<Timed>, k: nat)
    requires IsRun(dbs, steps) && k < |steps|
    ensures KeyEverGrows(dbs[k], dbs[k + 1])
  {
    assert Linked(dbs, steps, k);
    if Execute(steps[k].x, dbs[k], steps[k].c).Success? {
      CommandEffect(steps[k].x, dbs[k], steps[k].c);
    }
  }

  lemma {:induction false} KeyEverOverRun(dbs: seq<Db>, steps: seq<Timed>, i: nat, j: nat)
    requires IsRun(dbs, steps) && i <= j <= |steps|
    ensures KeyEverGrows(dbs[i], dbs[j])
    decreases j
  {
    if i < j {
      KeyEverOverRun(dbs, steps, i, j - 1);
      KeyEverLink(dbs, steps, j - 1);
    }
  }

  /** Step `k` archives a candidate that was read in state `i`. */
  ghost predicate ReadAt(dbs: seq<Db>, steps: seq<Timed>, i: nat, k: nat)
    requires i <= k < |steps| < |dbs|
  {
    && steps[k].c.DoArchiveOne? && InLiveDone(dbs[i], steps[k].c.id)
    && dbs[i].cards[steps[k].c.id].lane == steps[k].c.lane
  }

  /** Whatever happens between the read and the archiving transaction, the transaction only touches done cards. */
  lemma CandidatesStayFromDone(dbs: seq<Db>, steps: seq<Timed>, i: nat, k: nat)
    requires IsRun(dbs, steps) && i <= k < |steps| && ReadAt(dbs, steps, i, k)
    ensures FromDone(dbs[k], steps[k].c)
  {
    assert Linked(dbs, steps, i);
    KeyEverOverRun(dbs, steps, i, k);
  }

  /** Every archival transaction of the run handles a candidate that was read before, in whatever state. */
  ghost predicate CandidatesWereRead(dbs: seq<Db>, steps: seq<Timed>)
    requires |dbs| == |steps| + 1
  {
    forall k :: 0 <= k < |steps| && steps[k].c.DoArchiveOne? ==> exists i :: 0 <= i <= k && ReadAt(dbs, steps, i, k)
  }

  lemma CandidatesAreFromDone(dbs: seq<Db>, steps: seq<Timed>)
    requires IsRun(dbs, steps) && CandidatesWereRead(dbs, steps)
    ensures AllFromDone(dbs, steps)
  {
    forall k | 0 <= k < |steps|
      ensures FromDone(dbs[k], steps[k].c)
    {
      if steps[k].c.DoArchiveOne? {
        var i :| 0 <= i <= k && ReadAt(dbs, steps, i, k);
        CandidatesStayFromDone(dbs, steps, i, k);
      }
    }
  }

  // ---- The record invariants ----

  /** Every nightly archival step of the run works on a candidate of a done lane. */
  ghost predicate AllFromDone(dbs: seq<Db>, steps: seq<Timed>)
    requires |dbs| == |steps| + 1
  {
    forall k :: 0 <= k < |steps| ==> FromDone(dbs[k], steps[k].c)
  }

  /** No step of the run drops a card into a first column that carries behaviour. */
  ghost predicate AllEntrySafe(dbs: seq<Db>, steps: seq<Timed>)
    requires |dbs| == |steps| + 1
  {
    forall k {:trigger SafeAt(dbs, steps, k)} :: 0 <= k < |steps| ==> SafeAt(dbs, steps, k)
  }

  ghost predicate SafeAt(dbs: seq<Db>, steps: seq<Timed>, k: nat)
    requires |dbs| == |steps| + 1 && k < |steps|
  {
    WellFormed(dbs[k]) && EntrySafe(steps[k].x, dbs[k], steps[k].c)
  }

  lemma TracedLink(dbs: seq<Db>, steps: seq<Timed>, k: nat)
    requires IsRun(dbs, steps) && k < |steps|
    requires AllTraced(dbs[k]) && FromDone(dbs[k], steps[k].c)
    ensures AllTraced(dbs[k + 1])
  {
    assert Linked(dbs, steps, k);
    StepTraced(steps[k].x, dbs[k], steps[k].c);
  }

  lemma {:induction false} RunTraced(dbs: seq<Db>, steps: seq<Timed>, i: nat)
    requires IsRun(dbs, steps) && AllTraced(dbs[0]) && AllFromDone(dbs, steps) && i <= |steps|
    ensures AllTraced(dbs[i])
  {
    if i > 0 {
      RunTraced(dbs, steps, i - 1);
      TracedLink(dbs, steps, i - 1);
    }
  }

  lemma TrackedLink(dbs: seq<Db>, steps: seq<Timed>, k: nat)
    requires IsRun(dbs, steps) && k < |steps| && AllTracked(dbs[k])
    ensures AllTracked(dbs[k + 1])
  {
    assert Linked(dbs, steps, k);
    StepTracked(steps[k].x, dbs[k], steps[k].c);
  }

  lemma {:induction false} RunTracked(dbs: seq<Db>, steps: seq<Timed>, i: nat)
    requires IsRun(dbs, steps) && AllTracked(dbs[0]) && i <= |steps|
    ensures AllTracked(dbs[i])
  {
    if i > 0 {
      RunTracked(dbs, steps, i - 1);
      TrackedLink(dbs, steps, i - 1);
    }
  }

  lemma ShapedLink(dbs: seq<Db>, steps: seq<Timed>, k: nat)
    requires IsRun(dbs, steps) && k < |steps|
    requires AllShaped(dbs[k]) && FromDone(dbs[k], steps[k].c)
    ensures AllShaped(dbs[k + 1]) <==> SafeAt(dbs, steps, k)
  {
    assert Linked(dbs, steps, k);
    StepShapedIff(steps[k].x, dbs[k], steps[k].c);
  }

  lemma {:induction false} RunShaped(dbs: seq<Db>, steps: seq<Timed>, i: nat)
    requires IsRun(dbs, steps) && AllShaped(dbs[0]) && AllFromDone(dbs, steps) && AllEntrySafe(dbs, steps) && i <= |steps|
    ensures AllShaped(dbs[i])
  {
    if i > 0 {
      RunShaped(dbs, steps, i - 1);
      assert SafeAt(dbs, steps, i - 1);
      ShapedLink(dbs, steps, i - 1);
    }
  }

  ghost predicate ShapedThroughout(dbs: seq<Db>) {
    forall i :: 0 <= i < |dbs| ==> AllShaped(dbs[i])
  }

  /** A run keeps the record rule in all its states if and only if no step drops a card into such a column. */
  lemma RunShapedIff(dbs: seq<Db>, steps: seq<Timed>)
    requires IsRun(dbs, steps) && AllShaped(dbs[0]) && CandidatesWereRead(dbs, steps)
    ensures ShapedThroughout(dbs) <==> AllEntrySafe(dbs, steps)
  {
    CandidatesAreFromDone(dbs, steps);
    if AllEntrySafe(dbs, steps) {
      forall i | 0 <= i < |dbs|
        ensures AllShaped(dbs[i])
      {
        RunShaped(dbs, steps, i);
      }
    } else {
      var k :| 0 <= k < |steps| && !SafeAt(dbs, steps, k);
      if ShapedThroughout(dbs) {
        ShapedLink(dbs, steps, k);
      }
    }
  }

  /**
   * From tables without cards, whatever the actors do: every card of every state is explained by its trail, agrees with
   * what the trail tells of reason, date and location, and carries only what fits its lane.
   */
  lemma EveryReachableCard(dbs: seq<Db>, steps: seq<Timed>, i: nat, c: CardId)
    requires IsRun(dbs, steps) && dbs[0].cards == map[] && CandidatesWereRead(dbs, steps) && i <= |steps|
    requires c in dbs[i].cards
    ensures Present(dbs[i], c) && Traced(RecordOf(dbs[i], c))
    ensures Tracked(dbs[i].cards[c], dbs[i].log[c])
    ensures AllEntrySafe(dbs, steps) ==> Shaped(RecordOf(dbs[i], c))
  {
    CandidatesAreFromDone(dbs, steps);
    RunTraced(dbs, steps, i);
    RunTracked(dbs, steps, i);
    if AllEntrySafe(dbs, steps) {
      RunShaped(dbs, steps, i);
    }
  }

  // ---- Versions ----

  /** The command states a version, is about the card, and rewrites its row or discards it. */
  ghost predicate Consumes(dbs: seq<Db>, steps: seq<Timed>, k: nat, c: CardId)
    requires |dbs| == |steps| + 1 && k < |steps|
  {
    && Target(steps[k].c) == Some(c) && Expected(steps[k].c).Some?
    && c in dbs[k].cards && (c in dbs[k + 1].cards ==> dbs[k + 1].cards[c] != dbs[k].cards[c])
  }

  ghost predicate StaysPresent(dbs: seq<Db>, i: nat, j: nat, c: CardId)
    requires i <= j < |dbs|
  {
    forall k :: i <= k <= j ==> c in dbs[k].cards
  }

  lemma VersionLink(dbs: seq<Db>, steps: seq<Timed>, k: nat, c: CardId)
    requires IsRun(dbs, steps) && k < |steps|
    requires c in dbs[k].cards && c in dbs[k + 1].cards
    ensures dbs[k].cards[c].version <= dbs[k + 1].cards[c].version
    ensures Consumes(dbs, steps, k, c) ==>
              && Expected(steps[k].c) == Some(dbs[k].cards[c].version)
              && dbs[k + 1].cards[c].version == dbs[k].cards[c].version + 1
  {
    assert Linked(dbs, steps, k);
    StepSurvives(steps[k].x, dbs[k], steps[k].c, c);
  }

  lemma {:induction false} VersionsOnlyGrow(dbs: seq<Db>, steps: seq<Timed>, i: nat, j: nat, c: CardId)
    requires IsRun(dbs, steps) && i <= j <= |steps| && StaysPresent(dbs, i, j, c)
    ensures dbs[i].cards[c].version <= dbs[j].cards[c].version
    decreases j
  {
    if i < j {
      VersionsOnlyGrow(dbs, steps, i, j - 1, c);
      VersionLink(dbs, steps, j - 1, c);
    }
  }

  /** What goes is discarded, and a discard finds the version it states. */
  lemma GoneAtVersion(dbs: seq<Db>, steps: seq<Timed>, k: nat, c: CardId)
    requires IsRun(dbs, steps) && k < |steps| && c in dbs[k].cards && c !in dbs[k + 1].cards
    ensures steps[k].c.DoDiscard? && Expected(steps[k].c) == Some(dbs[k].cards[c].version)
  {
    assert Linked(dbs, steps, k);
    CommandEffect(steps[k].x, dbs[k], steps[k].c);
    DiscardFinds(steps[k].x, dbs[k], steps[k].c, c);
  }

  lemma DiscardFinds(x: Ctx, db: Db, cmd: Command, c: CardId)
    requires WellFormed(db) && Execute(x, db, cmd).Success? && cmd.DoDiscard? && cmd.id == c
    ensures c in db.cards && Expected(cmd) == Some(db.cards[c].version)
  {
  }

  /** Each version of a card is consumed at most once: later writes, and a discard, state strictly later versions. */
  lemma VersionConsumedOnce(dbs: seq<Db>, steps: seq<Timed>, i: nat, j: nat, c: CardId)
    requires IsRun(dbs, steps) && i < j < |steps| && StaysPresent(dbs, i, j, c)
    requires Consumes(dbs, steps, i, c) && Consumes(dbs, steps, j, c)
    ensures Expected(steps[i].c).value < Expected(steps[j].c).value
  {
    VersionLink(dbs, steps, i, c);
    VersionsOnlyGrow(dbs, steps, i + 1, j, c);
    if c in dbs[j + 1].cards {
      VersionLink(dbs, steps, j, c);
    } else {
      GoneAtVersion(dbs, steps, j, c);
    }
  }

  // ---- Chronology ----

  ghost predicate InOrder(log: seq<Event>) {
    forall i, j :: 0 <= i < j < |log| ==> log[i].at <= log[j].at && log[i].id < log[j].id
  }

  ghost predicate TrailsInOrder(db: Db, now: Time) {
    forall c :: c in db.log ==>
      InOrder(db.log[c]) && forall i :: 0 <= i < |db.log[c]| ==> db.log[c][i].at <= now && db.log[c][i].id < db.nextEvent
  }

  lemma EffectInOrder(x: Ctx, db: Db, db': Db, cmd: Command)
    requires Effect(x, db, db', cmd) && TrailsInOrder(db, x.now)
    ensures TrailsInOrder(db', x.now)
  {
    if Target(cmd).Some? && !cmd.DoDiscard? && db' != db {
      AppendInOrder(db, db', Target(cmd).value, x.now);
    }
  }

  lemma AppendInOrder(db: Db, db': Db, id: CardId, now: Time)
    requires Appends(db, db', id, now) && TrailsInOrder(db, now)
    ensures TrailsInOrder(db', now)
  {
  }

  lemma OrderLink(dbs: seq<Db>, steps: seq<Timed>, k: nat)
    requires IsRun(dbs, steps) && k < |steps| && TrailsInOrder(dbs[k], steps[k].x.now)
    ensures TrailsInOrder(dbs[k + 1], steps[k].x.now)
  {
    assert Linked(dbs, steps, k);
    var x, db, cmd := steps[k].x, dbs[k], steps[k].c;
    if Execute(x, db, cmd).Success? {
      CommandEffect(x, db, cmd);
      EffectInOrder(x, db, Execute(x, db, cmd).value, cmd);
    }
  }

  /** As long as the clock does not go back, every trail of every state is in order. */
  lemma {:induction false} RunInOrder(dbs: seq<Db>, steps: seq<Timed>, i: nat, now: Time)
    requires IsRun(dbs, steps) && dbs[0].log == map[] && i <= |steps|
    requires forall j, k :: 0 <= j < k < |steps| ==> steps[j].x.now <= steps[k].x.now
    requires forall j :: 0 <= j < i ==> steps[j].x.now <= now
    ensures TrailsInOrder(dbs[i], now)
    decreases i
  {
    if i > 0 {
      RunInOrder(dbs, steps, i - 1, steps[i - 1].x.now);
      OrderLink(dbs, steps, i - 1);
      assert steps[i - 1].x.now <= now;
    }
  }

  predicate Newer(e: Event, f: Event) {
    e.at > f.at || (e.at == f.at && e.id > f.id)
  }

  /** With ordered trails, the last appended match is the newest one by time and id: what the query sorts by. */
  lemma {:induction false} LatestIsNewest(log: seq<Event>, wanted: Body -> bool)
    requires InOrder(log)
    ensures var e := Latest(log, wanted);
            && (e.None? ==> forall f :: f in log ==> !wanted(f.body))
            && (e.Some? ==> e.value in log && wanted(e.value.body)
                            && forall f :: f in log && wanted(f.body) && f != e.value ==> Newer(e.value, f))
    decreases |log|
  {
    if log != [] {
      var n := |log| - 1;
      LatestIsNewest(log[..n], wanted);
      forall f | f in log
        ensures f == log[n] || (f in log[..n] && Newer(log[n], f))
      {
        var i :| 0 <= i < |log| && log[i] == f;
        if i < n {
          assert log[..n][i] == f;
        }
      }
    }
  }
}
