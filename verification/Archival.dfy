/** The nightly archival: which event dates a card's arrival in done, and which cards one whole run archives. */
module Archival {
  import opened Wrappers
  import opened Domain
  import opened Audit
  import opened Store
  import opened Commands
  import opened Integrity
  import opened Records
  import opened Runs

  // ---- The newest arrival event against a scan of the whole trail ----

  /** When the replayed card last came into done. */
  function LastEntry(bornIn: LaneKey, log: seq<Event>): Option<Time>
    requires |log| > 0 && log[0].body.Created?
  {
    var n := |log| - 1;
    if n == 0 then (if bornIn == Done then Some(log[0].at) else None)
    else if Replay(bornIn, log).lane == Done && Replay(bornIn, log[..n]).lane != Done then Some(log[n].at)
    else LastEntry(bornIn, log[..n])
  }

  predicate ArrivesInDone(b: Body) {
    b.CardCancelled? || (b.StatusChanged? && b.toLane == Done)
  }

  /**
   * The newest cancellation or lane change of a card in done is its arrival. Without one the card was born in done and
   * has never left.
   */
  lemma {:induction false} NewestArrivalIsLastEntry(bornIn: LaneKey, log: seq<Event>)
    requires Coherent(bornIn, log) && Replay(bornIn, log).lane == Done
    ensures LastEntry(bornIn, log).Some?
    ensures match LastArrival(log)
            case Some(e) => ArrivesInDone(e.body) && e.at == LastEntry(bornIn, log).value
            case None => bornIn == Done && LastEntry(bornIn, log).value == log[0].at
    decreases |log|
  {
    var n := |log| - 1;
    if n > 0 {
      assert log == log[..n] + [log[n]];
      if Replay(bornIn, log[..n]).lane == Done {
        NewestArrivalIsLastEntry(bornIn, log[..n]);
      }
    } else {
      assert log[..0] == [];
      assert log[0].body.Created? && !IS_ARRIVAL(log[0].body);
      assert Latest(log[..0], IS_ARRIVAL).None?;
      assert Latest(log, IS_ARRIVAL) == Latest(log[..0], IS_ARRIVAL);
    }
  }

  /** The trail holds an event that the lookup can find. */
  predicate HasArrival(log: seq<Event>) {
    LastArrival(log).Some?
  }

  /**
   * For a card in done the one-row lookup gives the arrival if and only if there is an arrival event, or the fallback
   * to the row's last update happens to be the time of its creation.
   */
  lemma EnteredDoneAtIff(r: Record, updatedAt: Time)
    requires Traced(r) && r.key == Done
    ensures LastEntry(r.bornIn, r.log).Some?
    ensures Some(EnteredDoneAt(r.log, updatedAt)) == LastEntry(r.bornIn, r.log)
            <==> HasArrival(r.log) || updatedAt == r.log[0].at
  {
    NewestArrivalIsLastEntry(r.bornIn, r.log);
  }

  /** Only a card born in done can be without an arrival event; for all others the fallback is dead. */
  lemma FallbackIsDead(r: Record, updatedAt: Time)
    requires Traced(r) && r.key == Done && r.bornIn != Done
    ensures HasArrival(r.log) && Some(EnteredDoneAt(r.log, updatedAt)) == LastEntry(r.bornIn, r.log)
  {
    NewestArrivalIsLastEntry(r.bornIn, r.log);
  }

  // ---- One whole run ----

  /** A candidate as it was read, and the clock of the transaction that handles it. */
  datatype Candidate = Candidate(id: CardId, lane: LaneId, at: Time)

  function ArchiveNext(db: Db, next: Candidate, cutoff: Time): (r: Db)
    requires WellFormed(db)
    ensures WellFormed(r)
  {
    ArchiveOneKeeps(next.at, db, next.id, next.lane, cutoff);
    ArchiveOne(next.at, db, next.id, next.lane, cutoff).value
  }

  function ArchiveAll(db: Db, candidates: seq<Candidate>, cutoff: Time): (r: Db)
    requires WellFormed(db)
    ensures WellFormed(r)
    decreases |candidates|
  {
    if candidates == [] then db
    else ArchiveNext(ArchiveAll(db, candidates[..|candidates| - 1], cutoff), candidates[|candidates| - 1], cutoff)
  }

  ghost predicate AreCandidates(db: Db, candidates: seq<Candidate>) {
    && (forall i :: 0 <= i < |candidates| ==>
          InLiveDone(db, candidates[i].id) && candidates[i].lane == db.cards[candidates[i].id].lane)
    && (forall i, j :: 0 <= i < j < |candidates| ==> candidates[i].id != candidates[j].id)
  }

  predicate Listed(candidates: seq<Candidate>, c: CardId) {
    exists i :: 0 <= i < |candidates| && candidates[i].id == c
  }

  predicate Late(db: Db, c: CardId, cutoff: Time) {
    c in db.cards && c in db.log && EnteredDoneAt(db.log[c], db.cards[c].updatedAt) <= cutoff
  }

  /** The card's row and trail before and after: archived by one event, or untouched. */
  ghost predicate Handled(db: Db, db': Db, c: CardId, archived: bool) {
    && c in db.cards && c in db'.cards && c in db.log && c in db'.log
    && if archived then
         && db'.cards[c] == ArchivedRow(db.cards[c], db'.cards[c].updatedAt)
         && |db'.log[c]| == |db.log[c]| + 1 && db'.log[c][..|db.log[c]|] == db.log[c]
         && db'.log[c][|db.log[c]|].body == CardArchived
       else db'.cards[c] == db.cards[c] && db'.log[c] == db.log[c]
  }

  ghost predicate AllHandled(db: Db, db': Db, candidates: seq<Candidate>, cutoff: Time) {
    && db'.live == db.live && db'.lanes == db.lanes && db'.cards.Keys == db.cards.Keys
    && forall c :: c in db.cards ==> Handled(db, db', c, Listed(candidates, c) && Late(db, c, cutoff))
  }

  lemma ArchiveOneHandles(db: Db, next: Candidate, cutoff: Time)
    requires WellFormed(db) && next.id in db.cards && db.cards[next.id].archivedAt.None?
    requires db.cards[next.id].lane == next.lane && db.cards[next.id].board in db.live
    ensures OnlyThisOne(db, ArchiveNext(db, next, cutoff), next.id, cutoff)
  {
    ArchiveOneKeeps(next.at, db, next.id, next.lane, cutoff);
    var db' := ArchiveNext(db, next, cutoff);
    if Late(db, next.id, cutoff) {
      SavedIsHandled(db, db', next.id, next.at, cutoff);
    }
  }

  ghost predicate OnlyThisOne(db: Db, db': Db, id: CardId, cutoff: Time) {
    && db'.live == db.live && db'.lanes == db.lanes && db'.cards.Keys == db.cards.Keys
    && Handled(db, db', id, Late(db, id, cutoff))
    && forall c :: c in db.cards && c != id ==> Handled(db, db', c, false)
  }

  lemma SavedIsHandled(db: Db, db': Db, id: CardId, now: Time, cutoff: Time)
    requires id in db.cards && db.cards[id].id == id && db.log.Keys == db.cards.Keys && Late(db, id, cutoff)
    requires Save(db, ArchivedRow(db.cards[id], now), now, [CardArchived]) == Success(db')
    ensures OnlyThisOne(db, db', id, cutoff)
  {
  }

  lemma {:induction false} ArchiveAllHandles(db: Db, candidates: seq<Candidate>, cutoff: Time)
    requires WellFormed(db) && AreCandidates(db, candidates)
    ensures AllHandled(db, ArchiveAll(db, candidates, cutoff), candidates, cutoff)
    decreases |candidates|
  {
    if candidates == [] {
      NothingHandled(db, cutoff);
    } else {
      var n := |candidates| - 1;
      FewerCandidates(db, candidates, n);
      ArchiveAllHandles(db, candidates[..n], cutoff);
      LastHandled(db, ArchiveAll(db, candidates[..n], cutoff), candidates, cutoff);
    }
  }

  lemma NothingHandled(db: Db, cutoff: Time)
    requires db.log.Keys == db.cards.Keys
    ensures AllHandled(db, db, [], cutoff)
  {
  }

  lemma FewerCandidates(db: Db, candidates: seq<Candidate>, n: nat)
    requires AreCandidates(db, candidates) && n <= |candidates|
    ensures AreCandidates(db, candidates[..n])
  {
  }

  lemma LastHandled(db: Db, before: Db, candidates: seq<Candidate>, cutoff: Time)
    requires WellFormed(before) && candidates != [] && AreCandidates(db, candidates)
    requires AllHandled(db, before, candidates[..|candidates| - 1], cutoff)
    ensures AllHandled(db, ArchiveNext(before, candidates[|candidates| - 1], cutoff), candidates, cutoff)
  {
    var next := candidates[|candidates| - 1];
    NotYet(db, before, candidates, |candidates| - 1, cutoff);
    ArchiveOneHandles(before, next, cutoff);
    OneMoreHandled(db, before, ArchiveNext(before, next, cutoff), candidates, cutoff);
  }

  lemma NotYet(db: Db, before: Db, candidates: seq<Candidate>, n: nat, cutoff: Time)
    requires n < |candidates| && AreCandidates(db, candidates) && AllHandled(db, before, candidates[..n], cutoff)
    ensures Handled(db, before, candidates[n].id, false)
  {
    assert !Listed(candidates[..n], candidates[n].id);
  }

  lemma OneMoreHandled(db: Db, before: Db, after: Db, candidates: seq<Candidate>, cutoff: Time)
    requires candidates != [] && AreCandidates(db, candidates)
    requires AllHandled(db, before, candidates[..|candidates| - 1], cutoff)
    requires OnlyThisOne(before, after, candidates[|candidates| - 1].id, cutoff)
    ensures AllHandled(db, after, candidates, cutoff)
  {
    var n := |candidates| - 1;
    forall c | c in db.cards
      ensures Handled(db, after, c, Listed(candidates, c) && Late(db, c, cutoff))
    {
      assert Handled(db, before, c, Listed(candidates[..n], c) && Late(db, c, cutoff));
      ListedOneMore(candidates, c);
      if c == candidates[n].id {
        NotYet(db, before, candidates, n, cutoff);
      }
    }
  }

  lemma ListedOneMore(candidates: seq<Candidate>, c: CardId)
    requires candidates != []
    ensures var n := |candidates| - 1;
            Listed(candidates, c) <==> Listed(candidates[..n], c) || candidates[n].id == c
  {
    var n := |candidates| - 1;
    if Listed(candidates, c) {
      var i :| 0 <= i < |candidates| && candidates[i].id == c;
      assert i < n ==> candidates[..n][i].id == c;
    }
    if Listed(candidates[..n], c) {
      var i :| 0 <= i < n && candidates[..n][i].id == c;
      assert candidates[i].id == c;
    }
  }

  /** Undisturbed, a run archives exactly the live done cards whose trail shows an arrival by the cutoff. */
  lemma RunArchivesExactly(db: Db, candidates: seq<Candidate>, cutoff: Time, c: CardId)
    requires WellFormed(db) && AllTraced(db)
    requires AreCandidates(db, candidates) && forall d :: InLiveDone(db, d) ==> Listed(candidates, d)
    requires c in db.cards && (InLiveDone(db, c) ==> HasArrival(db.log[c]) || db.cards[c].updatedAt == db.log[c][0].at)
    ensures var r := RecordOf(db, c);
            Handled(db, ArchiveAll(db, candidates, cutoff), c,
                    InLiveDone(db, c) && LastEntry(r.bornIn, r.log).Some? && LastEntry(r.bornIn, r.log).value <= cutoff)
  {
    ArchiveAllHandles(db, candidates, cutoff);
    if InLiveDone(db, c) {
      EnteredDoneAtIff(RecordOf(db, c), db.cards[c].updatedAt);
    }
    assert Listed(candidates, c) ==> InLiveDone(db, c);
  }

  lemma NoneStillLate(db: Db, db': Db, candidates: seq<Candidate>, c: CardId, cutoff: Time)
    requires AllHandled(db, db', candidates, cutoff) && forall d :: InLiveDone(db, d) ==> Listed(candidates, d)
    requires InLiveDone(db', c)
    ensures !Late(db', c, cutoff)
  {
    assert Handled(db, db', c, Listed(candidates, c) && Late(db, c, cutoff));
  }

  lemma {:induction false} NoneLateNoneArchived(db: Db, candidates: seq<Candidate>, cutoff: Time)
    requires WellFormed(db) && forall i :: 0 <= i < |candidates| ==> !Late(db, candidates[i].id, cutoff)
    ensures ArchiveAll(db, candidates, cutoff) == db
    decreases |candidates|
  {
    if candidates != [] {
      var n := |candidates| - 1;
      NoneLateNoneArchived(db, candidates[..n], cutoff);
      NotLateNotArchived(db, candidates[n], cutoff);
    }
  }

  lemma NotLateNotArchived(db: Db, next: Candidate, cutoff: Time)
    requires WellFormed(db) && !Late(db, next.id, cutoff)
    ensures ArchiveNext(db, next, cutoff) == db
  {
  }

  /** A second run with the same cutoff has nothing left to archive. */
  lemma SecondRunArchivesNothing(db: Db, candidates: seq<Candidate>, again: seq<Candidate>, cutoff: Time)
    requires WellFormed(db) && AreCandidates(db, candidates) && forall d :: InLiveDone(db, d) ==> Listed(candidates, d)
    requires AreCandidates(ArchiveAll(db, candidates, cutoff), again)
    ensures ArchiveAll(ArchiveAll(db, candidates, cutoff), again, cutoff) == ArchiveAll(db, candidates, cutoff)
  {
    var db' := ArchiveAll(db, candidates, cutoff);
    ArchiveAllHandles(db, candidates, cutoff);
    forall i | 0 <= i < |again|
      ensures !Late(db', again[i].id, cutoff)
    {
      NoneStillLate(db, db', candidates, again[i].id, cutoff);
    }
    NoneLateNoneArchived(db', again, cutoff);
  }
}
