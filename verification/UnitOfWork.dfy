/**
 * A promise chain: every caller appends itself behind the promise that is in the field when it calls. Nothing here
 * says that callers take turns; that follows from the links.
 */
module PromiseChain {
  import opened Wrappers

  datatype Stage = Queued | Active | Settled

  /** `after[k]` is the link that call `k` waits for; `tail` is the field every call reads and replaces. */
  datatype Chain = Chain(stages: seq<Stage>, after: seq<Option<nat>>, tail: Option<nat>)

  const EMPTY := Chain([], [], None)

  function Call(c: Chain): Chain {
    Chain(c.stages + [Queued], c.after + [c.tail], Some(|c.stages|))
  }

  predicate CanStart(c: Chain, k: nat) {
    && k < |c.stages| && k < |c.after| && c.stages[k] == Queued
    && (c.after[k].Some? ==> c.after[k].value < |c.stages| && c.stages[c.after[k].value] == Settled)
  }

  predicate IsActive(c: Chain, k: nat) {
    k < |c.stages| && c.stages[k] == Active
  }

  function Set(c: Chain, k: nat, s: Stage): Chain
    requires k < |c.stages|
  {
    c.(stages := c.stages[k := s])
  }

  /** A field that holds a settled promise may be cleared: the next caller then waits for nothing. */
  predicate CanForget(c: Chain) {
    c.tail.Some? && c.tail.value < |c.stages| && c.stages[c.tail.value] == Settled
  }

  function Forget(c: Chain): Chain {
    c.(tail := None)
  }

  ghost predicate AllSettled(c: Chain, n: nat) {
    n <= |c.stages| && forall i :: 0 <= i < n ==> c.stages[i] == Settled
  }

  ghost predicate Linked(c: Chain) {
    && |c.after| == |c.stages|
    && (if c.tail.None? then AllSettled(c, |c.stages|) else c.tail.value + 1 == |c.stages|)
    && forall k :: 0 <= k < |c.after| ==> if c.after[k].None? then AllSettled(c, k) else c.after[k].value + 1 == k
  }

  /** Behind a call that has not settled everyone still waits. */
  ghost predicate InTurn(c: Chain) {
    forall i, j :: 0 <= i < j < |c.stages| && c.stages[i] != Settled ==> c.stages[j] == Queued
  }

  ghost predicate Inv(c: Chain) {
    Linked(c) && InTurn(c)
  }

  lemma CallKeeps(c: Chain)
    requires Inv(c)
    ensures Inv(Call(c))
  {
  }

  lemma ForgetKeeps(c: Chain)
    requires Inv(c) && CanForget(c)
    ensures Inv(Forget(c))
  {
  }

  /** Callers start in call order: whoever may start finds everyone before it settled. */
  lemma StartsInCallOrder(c: Chain, k: nat)
    requires Inv(c) && CanStart(c, k)
    ensures forall i :: 0 <= i < k ==> c.stages[i] == Settled
    ensures forall i :: k < i < |c.stages| ==> c.stages[i] == Queued
  {
  }

  lemma StartKeeps(c: Chain, k: nat, s: Stage)
    requires Inv(c) && CanStart(c, k) && s != Queued
    ensures Inv(Set(c, k, s))
    ensures forall i :: IsActive(Set(c, k, s), i) <==> i == k && s == Active
  {
    StartsInCallOrder(c, k);
  }

  lemma SettleKeeps(c: Chain, k: nat)
    requires Inv(c) && IsActive(c, k)
    ensures Inv(Set(c, k, Settled))
    ensures forall i :: !IsActive(Set(c, k, Settled), i)
  {
    OnlyOneActive(c, k);
  }

  lemma OnlyOneActive(c: Chain, k: nat)
    requires Inv(c) && IsActive(c, k)
    ensures forall i :: IsActive(c, i) ==> i == k
  {
  }

  /** The chain never wedges: as long as a call is unsettled, one is active or may start. */
  lemma NeverStuck(c: Chain, n: nat)
    requires Inv(c) && n < |c.stages| && c.stages[n] != Settled
    ensures exists k: nat :: k <= n && (IsActive(c, k) || CanStart(c, k))
    decreases n
  {
    if n > 0 && c.stages[n - 1] != Settled {
      NeverStuck(c, n - 1);
    } else {
      assert IsActive(c, n) || CanStart(c, n);
    }
  }

  // ---- What a nested call would do ----

  datatype Turn = Calls | Starts(k: nat) | Settles(k: nat) | Forgets

  predicate MayTurn(c: Chain, t: Turn) {
    match t
    case Calls => true
    case Starts(k) => CanStart(c, k)
    case Settles(k) => IsActive(c, k)
    case Forgets => CanForget(c)
  }

  function DoTurn(c: Chain, t: Turn): Chain
    requires MayTurn(c, t)
  {
    match t
    case Calls => Call(c)
    case Starts(k) => Set(c, k, Active)
    case Settles(k) => Set(c, k, Settled)
    case Forgets => Forget(c)
  }

  lemma TurnKeeps(c: Chain, t: Turn)
    requires Inv(c) && MayTurn(c, t)
    ensures Inv(DoTurn(c, t))
  {
    match t
    case Calls => CallKeeps(c);
    case Starts(k) => StartKeeps(c, k, Active);
    case Settles(k) => SettleKeeps(c, k);
    case Forgets => ForgetKeeps(c);
  }

  ghost predicate IsHistory(cs: seq<Chain>, turns: seq<Turn>) {
    && |cs| == |turns| + 1 && Inv(cs[0])
    && forall i :: 0 <= i < |turns| ==> MayTurn(cs[i], turns[i]) && cs[i + 1] == DoTurn(cs[i], turns[i])
  }

  /** Call `k` awaits call `n`: it settles only when that one has. */
  ghost predicate Awaits(cs: seq<Chain>, turns: seq<Turn>, k: nat, n: nat)
    requires |cs| == |turns| + 1
  {
    forall i :: 0 <= i < |turns| && turns[i] == Settles(k) ==> n < |cs[i].stages| && cs[i].stages[n] == Settled
  }

  /** A task that awaits a call behind its own never settles, and nobody behind it ever starts, whatever happens. */
  lemma {:induction false} NestedCallWedges(cs: seq<Chain>, turns: seq<Turn>, k: nat, n: nat, i: nat)
    requires IsHistory(cs, turns) && IsActive(cs[0], k) && k < n && Awaits(cs, turns, k, n) && i <= |turns|
    ensures Inv(cs[i]) && IsActive(cs[i], k)
    ensures forall j :: k < j < |cs[i].stages| ==> cs[i].stages[j] == Queued && !CanStart(cs[i], j)
  {
    if i > 0 {
      NestedCallWedges(cs, turns, k, n, i - 1);
      TurnKeeps(cs[i - 1], turns[i - 1]);
    }
    forall j | k < j < |cs[i].stages|
      ensures cs[i].stages[j] == Queued && !CanStart(cs[i], j)
    {
      if CanStart(cs[i], j) { StartsInCallOrder(cs[i], j); }
    }
  }
}

/**
 * The unit of work as interleaved steps: any number of callers, one write connection, one read connection that all
 * readers share. Statements act on whatever transaction their connection has open, or, without one, on the database
 * itself.
 */
module UnitOfWork {
  import opened Wrappers
  import opened PromiseChain

  /** A statement goes through, throws, or throws with the transaction already aborted by the database. */
  datatype Effect<L, D> = Ok(locals: L, db: D) | Throws | Aborts

  /** What a caller passes in: statements over its local variables and the database. */
  datatype Task<!L, !D> = Task(init: L, stmts: seq<(L, D) -> Effect<L, D>>)

  datatype Progress<L> = Running(pc: nat, locals: L) | Unwinding

  /** A read transaction: its first statement fixes the state, which `at` commits had led to. */
  datatype ReadTx<D> = Unfixed | Fixed(db: D, at: nat)

  datatype ReadStage = Reading | Closing

  datatype ReadResult = Reads | ReadThrows | ReadAborts

  /** What one reader has seen, a state per statement, and how many tasks had committed when it began. */
  datatype Reader<D> = Reader(began: nat, seen: seq<D>)

  datatype Machine<!L, !D> = Machine(
    committed: D,
    connection: Option<D>,
    writers: Chain,
    tasks: seq<Task<L, D>>,
    running: map<nat, Progress<L>>,
    commits: seq<nat>,
    results: map<nat, L>,
    readers: Chain,
    readConnection: Option<ReadTx<D>>,
    reading: map<nat, ReadStage>,
    views: map<nat, Reader<D>>)

  datatype Move<!L, !D> =
    | Enqueue(task: Task<L, D>)
    | RejectNested
    | Begin(k: nat, ok: bool)
    | Statement(k: nat)
    | Commit(k: nat, ok: bool)
    | Rollback(k: nat)
    | EnqueueRead
    | BeginRead(k: nat, ok: bool)
    | ReadStatement(k: nat, result: ReadResult)
    | CommitRead(k: nat, ok: bool)
    | RollbackRead(k: nat)

  function Initial<L, D>(db: D): Machine<L, D> {
    Machine(db, None, EMPTY, [], map[], [], map[], EMPTY, None, map[], map[])
  }

  predicate Enabled<L, D>(m: Machine<L, D>, a: Move<L, D>) {
    match a
    case Enqueue(_) => true
    case RejectNested => true
    case Begin(k, _) => CanStart(m.writers, k) && k < |m.tasks|
    case Statement(k) => k in m.running && m.running[k].Running? && k < |m.tasks| && m.running[k].pc < |m.tasks[k].stmts|
                         && k < |m.writers.stages|
    case Commit(k, _) => k in m.running && m.running[k].Running? && k < |m.tasks| && m.running[k].pc >= |m.tasks[k].stmts|
                         && k < |m.writers.stages|
    case Rollback(k) => k in m.running && m.running[k].Unwinding? && k < |m.writers.stages|
    case EnqueueRead => true
    case BeginRead(k, _) => CanStart(m.readers, k)
    case ReadStatement(k, _) => k in m.reading && m.reading[k] == Reading && k in m.views
    case CommitRead(k, _) => k in m.reading && m.reading[k] == Reading && k < |m.readers.stages|
    case RollbackRead(k) => k in m.reading && m.reading[k] == Closing && k < |m.readers.stages|
  }

  /** BEGIN IMMEDIATE fails when the lock is not granted, and always when a transaction is open. */
  function DoBegin<L, D>(m: Machine<L, D>, k: nat, ok: bool): Machine<L, D>
    requires Enabled(m, Move.Begin(k, ok))
  {
    if ok && m.connection.None? then
      m.(connection := Some(m.committed), writers := Set(m.writers, k, Active),
         running := m.running[k := Running(0, m.tasks[k].init)])
    else m.(writers := Set(m.writers, k, Settled))
  }

  function DoStatement<L, D>(m: Machine<L, D>, k: nat): Machine<L, D>
    requires Enabled(m, Move.Statement(k))
  {
    var p := m.running[k];
    var db := if m.connection.Some? then m.connection.value else m.committed;
    match m.tasks[k].stmts[p.pc](p.locals, db)
    case Ok(locals, db') =>
      // Without a transaction the statement commits by itself.
      var m' := m.(running := m.running[k := Running(p.pc + 1, locals)]);
      if m.connection.Some? then m'.(connection := Some(db')) else m'.(committed := db')
    case Throws => m.(running := m.running[k := Unwinding])
    case Aborts => m.(running := m.running[k := Unwinding], connection := None)
  }

  /** A caller gets what its statements left in its locals once its COMMIT has gone through, and an error otherwise. */
  function DoCommit<L, D>(m: Machine<L, D>, k: nat, ok: bool): Machine<L, D>
    requires Enabled(m, Move.Commit(k, ok))
  {
    if ok && m.connection.Some? then
      m.(committed := m.connection.value, connection := None, writers := Set(m.writers, k, Settled),
         running := m.running - {k}, commits := m.commits + [k], results := m.results[k := m.running[k].locals])
    else m.(running := m.running[k := Unwinding])
  }

  /** All readers share one connection, so a BEGIN fails as well when another reader's transaction is open on it. */
  function DoBeginRead<L, D>(m: Machine<L, D>, k: nat, ok: bool): Machine<L, D>
    requires Enabled(m, Move.BeginRead(k, ok))
  {
    if ok && m.readConnection.None? then
      m.(readConnection := Some(Unfixed), readers := Set(m.readers, k, Active), reading := m.reading[k := Reading],
         views := m.views[k := Reader(|m.commits|, [])])
    else m.(readers := Set(m.readers, k, Settled))
  }

  /** The state that a statement on the read connection sees: without a transaction the committed one of the moment. */
  function Seen<L, D>(m: Machine<L, D>): D {
    if m.readConnection.Some? && m.readConnection.value.Fixed? then m.readConnection.value.db else m.committed
  }

  function DoRead<L, D>(m: Machine<L, D>, k: nat, result: ReadResult): Machine<L, D>
    requires Enabled(m, Move.ReadStatement(k, result))
  {
    match result
    case Reads =>
      var m' := m.(views := m.views[k := m.views[k].(seen := m.views[k].seen + [Seen(m)])]);
      if m.readConnection == Some(Unfixed) then m'.(readConnection := Some(Fixed(m.committed, |m.commits|))) else m'
    case ReadThrows => m.(reading := m.reading[k := Closing])
    case ReadAborts => m.(reading := m.reading[k := Closing], readConnection := None)
  }

  /** COMMIT throws when it is refused, and always when no transaction is open. */
  function DoCommitRead<L, D>(m: Machine<L, D>, k: nat, ok: bool): Machine<L, D>
    requires Enabled(m, Move.CommitRead(k, ok))
  {
    if ok && m.readConnection.Some? then
      m.(readConnection := None, readers := Set(m.readers, k, Settled), reading := m.reading - {k})
    else m.(reading := m.reading[k := Closing])
  }

  function Do<L, D>(m: Machine<L, D>, a: Move<L, D>): Machine<L, D>
    requires Enabled(m, a)
  {
    match a
    case Enqueue(task) => m.(writers := Call(m.writers), tasks := m.tasks + [task])
    case RejectNested => m
    case Begin(k, ok) => DoBegin(m, k, ok)
    case Statement(k) => DoStatement(m, k)
    case Commit(k, ok) => DoCommit(m, k, ok)
    case Rollback(k) => m.(connection := None, writers := Set(m.writers, k, Settled), running := m.running - {k})
    case EnqueueRead => m.(readers := Call(m.readers))
    case BeginRead(k, ok) => DoBeginRead(m, k, ok)
    case ReadStatement(k, result) => DoRead(m, k, result)
    case CommitRead(k, ok) => DoCommitRead(m, k, ok)
    // Whatever transaction is open on the connection goes.
    case RollbackRead(k) =>
      m.(readConnection := None, readers := Set(m.readers, k, Settled), reading := m.reading - {k})
  }

  // ---- One task by itself ----

  function RunTo<L, D>(t: Task<L, D>, n: nat, db: D): Effect<L, D>
    requires n <= |t.stmts|
  {
    if n == 0 then Ok(t.init, db)
    else
      match RunTo(t, n - 1, db)
      case Ok(locals, db') => t.stmts[n - 1](locals, db')
      case Throws => Throws
      case Aborts => Aborts
  }

  /** The tasks of `order` one at a time, each of them to its end; `None` if one of them does not get there. */
  function Serial<L, D>(tasks: seq<Task<L, D>>, order: seq<nat>, db: D): Option<D> {
    if order == [] then Some(db)
    else
      var before, k := Serial(tasks, order[..|order| - 1], db), order[|order| - 1];
      if before.None? || k >= |tasks| then None
      else
        match RunTo(tasks[k], |tasks[k].stmts|, before.value)
        case Ok(_, db') => Some(db')
        case Throws => None
        case Aborts => None
  }

  lemma SerialEnds<L, D>(tasks: seq<Task<L, D>>, order: seq<nat>, db: D)
    requires order != [] && Serial(tasks, order, db).Some?
    ensures var before, k := Serial(tasks, order[..|order| - 1], db), order[|order| - 1];
            && before.Some? && k < |tasks| && RunTo(tasks[k], |tasks[k].stmts|, before.value).Ok?
            && Serial(tasks, order, db) == Some(RunTo(tasks[k], |tasks[k].stmts|, before.value).db)
  {
  }

  // ---- The invariant ----

  ghost predicate Ascending(s: seq<nat>) {
    forall i, j :: 0 <= i < j < |s| ==> s[i] < s[j]
  }

  /** The open transaction holds what its owner's statements so far make of the committed database. */
  ghost predicate OwnWork<L, D>(m: Machine<L, D>, k: nat) {
    k in m.running && k < |m.tasks| && (m.running[k].Running? ==>
      && m.running[k].pc <= |m.tasks[k].stmts| && m.connection.Some?
      && RunTo(m.tasks[k], m.running[k].pc, m.committed) == Ok(m.running[k].locals, m.connection.value))
  }

  ghost predicate WritersFit<L, D>(m: Machine<L, D>) {
    && PromiseChain.Inv(m.writers) && |m.tasks| == |m.writers.stages|
    && (forall k :: k in m.running <==> IsActive(m.writers, k))
    && (forall k :: k in m.running ==> OwnWork(m, k))
    && (m.connection.Some? ==> m.running.Keys != {})
  }

  ghost predicate CommitsFit<L, D>(m: Machine<L, D>, start: D) {
    && Ascending(m.commits)
    && (forall k :: k in m.commits ==> k < |m.writers.stages| && m.writers.stages[k] == Settled)
    && Serial(m.tasks, m.commits, start) == Some(m.committed)
  }

  /** The first `at` commits lead to all that reader `k` saw, and the reader began no later than they were done. */
  ghost predicate SawPrefix<L, D>(m: Machine<L, D>, start: D, k: nat, at: nat)
    requires k in m.views
  {
    && m.views[k].began <= at <= |m.commits|
    && forall i :: 0 <= i < |m.views[k].seen| ==> Serial(m.tasks, m.commits[..at], start) == Some(m.views[k].seen[i])
  }

  ghost predicate SawOneState<L, D>(m: Machine<L, D>, start: D, k: nat)
    requires k in m.views
  {
    exists at :: SawPrefix(m, start, k, at)
  }

  /** The open transaction belongs to reader `k`, and all that the reader saw is the state it is fixed to. */
  ghost predicate OwnRead<L, D>(m: Machine<L, D>, start: D, k: nat) {
    && k in m.views && m.views[k].began <= |m.commits| && m.readConnection.Some?
    && match m.readConnection.value
       case Unfixed => m.views[k].seen == []
       case Fixed(db, at) =>
         && m.views[k].seen != [] && m.views[k].began <= at <= |m.commits| && Serial(m.tasks, m.commits[..at], start) == Some(db)
         && forall i :: 0 <= i < |m.views[k].seen| ==> m.views[k].seen[i] == db
  }

  ghost predicate ReadersFit<L, D>(m: Machine<L, D>, start: D) {
    && PromiseChain.Inv(m.readers)
    && (forall k :: k in m.reading <==> IsActive(m.readers, k))
    && (forall k :: k in m.reading && m.reading[k] == Reading ==> OwnRead(m, start, k))
    && (m.readConnection.Some? ==> m.reading.Keys != {})
    && (forall k :: k in m.views ==> k < |m.readers.stages| && m.readers.stages[k] != Queued && SawOneState(m, start, k))
  }

  ghost predicate Inv<L, D>(m: Machine<L, D>, start: D) {
    WritersFit(m) && CommitsFit(m, start) && ReadersFit(m, start)
  }

  // ---- Every step keeps it ----

  lemma {:induction false} MoreTasksSameSerial<L, D>(tasks: seq<Task<L, D>>, more: seq<Task<L, D>>, order: seq<nat>, db: D)
    requires tasks <= more && forall k :: k in order ==> k < |tasks|
    ensures Serial(more, order, db) == Serial(tasks, order, db)
    decreases |order|
  {
    if order != [] {
      var front := order[..|order| - 1];
      assert forall k :: k in front ==> k in order;
      MoreTasksSameSerial(tasks, more, front, db);
      assert order[|order| - 1] in order;
    }
  }

  /** Later calls and commits do not change what a prefix of the commits led to. */
  lemma PrefixKept<L, D>(m: Machine<L, D>, m': Machine<L, D>, start: D, at: nat)
    requires m.tasks <= m'.tasks && m.commits <= m'.commits && at <= |m.commits|
    requires forall k :: k in m.commits ==> k < |m.tasks|
    ensures Serial(m'.tasks, m'.commits[..at], start) == Serial(m.tasks, m.commits[..at], start)
  {
    assert m'.commits[..at] == m.commits[..at];
    assert forall k :: k in m.commits[..at] ==> k in m.commits;
    MoreTasksSameSerial(m.tasks, m'.tasks, m.commits[..at], start);
  }

  lemma SawStillOneState<L, D>(m: Machine<L, D>, m': Machine<L, D>, start: D, k: nat)
    requires m.tasks <= m'.tasks && m.commits <= m'.commits && forall j :: j in m.commits ==> j < |m.tasks|
    requires k in m.views && k in m'.views && m'.views[k] == m.views[k] && SawOneState(m, start, k)
    ensures SawOneState(m', start, k)
  {
    var at :| SawPrefix(m, start, k, at);
    PrefixKept(m, m', start, at);
    assert SawPrefix(m', start, k, at);
  }

  lemma StillOwnRead<L, D>(m: Machine<L, D>, m': Machine<L, D>, start: D, k: nat)
    requires m.tasks <= m'.tasks && m.commits <= m'.commits && forall j :: j in m.commits ==> j < |m.tasks|
    requires m'.views == m.views && m'.readConnection == m.readConnection && OwnRead(m, start, k)
    ensures OwnRead(m', start, k)
  {
    if m.readConnection.value.Fixed? {
      PrefixKept(m, m', start, m.readConnection.value.at);
    }
  }

  /** What writers do is nothing to the readers. */
  lemma ReadersStillFit<L, D>(m: Machine<L, D>, m': Machine<L, D>, start: D)
    requires ReadersFit(m, start) && m.tasks <= m'.tasks && m.commits <= m'.commits
    requires forall k :: k in m.commits ==> k < |m.tasks|
    requires m'.readers == m.readers && m'.reading == m.reading && m'.views == m.views && m'.readConnection == m.readConnection
    ensures ReadersFit(m', start)
  {
    forall k | k in m.views
      ensures SawOneState(m', start, k)
    {
      SawStillOneState(m, m', start, k);
    }
    forall k | k in m.reading && m.reading[k] == Reading
      ensures OwnRead(m', start, k)
    {
      StillOwnRead(m, m', start, k);
    }
  }

  lemma ReadersKeep<L, D>(m: Machine<L, D>, m': Machine<L, D>, start: D)
    requires CommitsFit(m, start) && ReadersFit(m, start) && |m.tasks| == |m.writers.stages|
    requires m.tasks <= m'.tasks && m.commits <= m'.commits
    requires m'.readers == m.readers && m'.reading == m.reading && m'.views == m.views && m'.readConnection == m.readConnection
    ensures ReadersFit(m', start)
  {
    ReadersStillFit(m, m', start);
  }

  lemma EnqueueKeeps<L, D>(m: Machine<L, D>, task: Task<L, D>, start: D)
    requires Inv(m, start)
    ensures Inv(Do(m, Move.Enqueue(task)), start)
  {
    var m' := Do(m, Move.Enqueue(task));
    CallKeeps(m.writers);
    MoreTasksSameSerial(m.tasks, m'.tasks, m.commits, start);
    ReadersStillFit(m, m', start);
    forall k | k in m'.running
      ensures OwnWork(m', k)
    {
      assert OwnWork(m, k);
      assert m'.tasks[k] == m.tasks[k];
    }
  }

  lemma BeginKeeps<L, D>(m: Machine<L, D>, k: nat, ok: bool, start: D)
    requires Inv(m, start) && Enabled(m, Move.Begin(k, ok))
    ensures Inv(DoBegin(m, k, ok), start)
    ensures m.connection.None?
  {
    ReadersStillFit(m, DoBegin(m, k, ok), start);
    StartsInCallOrder(m.writers, k);
    StartKeeps(m.writers, k, Active);
    StartKeeps(m.writers, k, Settled);
    assert m.running.Keys == {};
  }

  lemma StatementIsOwnWork<L, D>(m: Machine<L, D>, k: nat)
    requires WritersFit(m) && Enabled(m, Move.Statement(k))
    ensures WritersFit(DoStatement(m, k))
    ensures var m' := DoStatement(m, k);
            && m'.committed == m.committed && m'.commits == m.commits && m'.tasks == m.tasks && m'.writers == m.writers
            && m'.readers == m.readers && m'.reading == m.reading && m'.views == m.views && m'.readConnection == m.readConnection
  {
    OnlyOneActive(m.writers, k);
    assert OwnWork(m, k);
    assert OwnWork(DoStatement(m, k), k);
  }

  lemma StatementKeeps<L, D>(m: Machine<L, D>, k: nat, start: D)
    requires Inv(m, start) && Enabled(m, Move.Statement(k))
    ensures Inv(DoStatement(m, k), start)
  {
    StatementIsOwnWork(m, k);
    ReadersKeep(m, DoStatement(m, k), start);
  }

  lemma CommitKeeps<L, D>(m: Machine<L, D>, k: nat, ok: bool, start: D)
    requires Inv(m, start) && Enabled(m, Move.Commit(k, ok))
    ensures Inv(DoCommit(m, k, ok), start)
  {
    assert OwnWork(m, k);
    OnlyOneActive(m.writers, k);
    ReadersStillFit(m, DoCommit(m, k, ok), start);
    if ok {
      SettleKeeps(m.writers, k);
      CommitExtends(m, k, start);
    }
  }

  lemma CommitExtends<L, D>(m: Machine<L, D>, k: nat, start: D)
    requires Inv(m, start) && Enabled(m, Move.Commit(k, true)) && OwnWork(m, k)
    ensures CommitsFit(DoCommit(m, k, true), start)
  {
    EarlierCommits(m, k, start);
    assert (m.commits + [k])[..|m.commits|] == m.commits;
  }

  /** Whoever has committed called before the one that commits now. */
  lemma EarlierCommits<L, D>(m: Machine<L, D>, k: nat, start: D)
    requires WritersFit(m) && CommitsFit(m, start) && IsActive(m.writers, k)
    ensures forall i :: 0 <= i < |m.commits| ==> m.commits[i] < k
    ensures Ascending(m.commits + [k])
  {
    forall i | 0 <= i < |m.commits|
      ensures m.commits[i] < k
    {
      assert m.commits[i] in m.commits;
    }
  }

  lemma RollbackKeeps<L, D>(m: Machine<L, D>, k: nat, start: D)
    requires Inv(m, start) && Enabled(m, Move.Rollback(k))
    ensures Inv(Do(m, Move.Rollback(k)), start)
  {
    OnlyOneActive(m.writers, k);
    SettleKeeps(m.writers, k);
    ReadersStillFit(m, Do(m, Move.Rollback(k)), start);
  }

  lemma OthersReads<L, D>(m: Machine<L, D>, m': Machine<L, D>, start: D, k: nat)
    requires WritersFit(m) && CommitsFit(m, start) && ReadersFit(m, start)
    requires m'.tasks == m.tasks && m'.commits == m.commits
    requires forall j :: j in m'.views && j != k ==> j in m.views && m'.views[j] == m.views[j]
    ensures forall j :: j in m'.views && j != k ==> SawOneState(m', start, j)
  {
    forall j | j in m'.views && j != k
      ensures SawOneState(m', start, j)
    {
      SawStillOneState(m, m', start, j);
    }
  }

  lemma EnqueueReadKeeps<L, D>(m: Machine<L, D>, start: D)
    requires Inv(m, start)
    ensures ReadersFit(Do(m, Move.EnqueueRead), start)
  {
    var m' := Do(m, Move.EnqueueRead);
    CallKeeps(m.readers);
    OthersReads(m, m', start, |m.readers.stages|);
  }

  /** A reader that gets its turn finds the shared connection closed: none is ever refused because of another. */
  lemma BeginReadKeeps<L, D>(m: Machine<L, D>, k: nat, ok: bool, start: D)
    requires Inv(m, start) && Enabled(m, Move.BeginRead(k, ok))
    ensures ReadersFit(DoBeginRead(m, k, ok), start)
    ensures m.readConnection.None?
  {
    NobodyReads(m, k, start);
    if ok {
      GrantedReadKeeps(m, k, start);
    } else {
      RefusedReadKeeps(m, k, start);
    }
  }

  lemma NobodyReads<L, D>(m: Machine<L, D>, k: nat, start: D)
    requires ReadersFit(m, start) && CanStart(m.readers, k)
    ensures m.reading.Keys == {} && m.readConnection.None? && k !in m.views
  {
    StartsInCallOrder(m.readers, k);
  }

  lemma GrantedReadKeeps<L, D>(m: Machine<L, D>, k: nat, start: D)
    requires Inv(m, start) && CanStart(m.readers, k)
    ensures ReadersFit(DoBeginRead(m, k, true), start)
  {
    var m' := DoBeginRead(m, k, true);
    NobodyReads(m, k, start);
    StartKeeps(m.readers, k, Active);
    OthersReads(m, m', start, k);
    assert SawPrefix(m', start, k, |m.commits|);
  }

  lemma RefusedReadKeeps<L, D>(m: Machine<L, D>, k: nat, start: D)
    requires Inv(m, start) && CanStart(m.readers, k)
    ensures ReadersFit(DoBeginRead(m, k, false), start)
  {
    NobodyReads(m, k, start);
    StartKeeps(m.readers, k, Settled);
    OthersReads(m, DoBeginRead(m, k, false), start, k);
  }

  lemma StatementReads<L, D>(m: Machine<L, D>, k: nat, start: D)
    requires Inv(m, start) && Enabled(m, Move.ReadStatement(k, Reads))
    ensures OwnRead(DoRead(m, k, Reads), start, k) && SawOneState(DoRead(m, k, Reads), start, k)
  {
    var m' := DoRead(m, k, Reads);
    assert OwnRead(m, start, k);
    assert m.commits[..|m.commits|] == m.commits;
    assert SawPrefix(m', start, k, m'.readConnection.value.at);
  }

  lemma ReadKeeps<L, D>(m: Machine<L, D>, k: nat, result: ReadResult, start: D)
    requires Inv(m, start) && Enabled(m, Move.ReadStatement(k, result))
    ensures ReadersFit(DoRead(m, k, result), start)
  {
    OnlyOneActive(m.readers, k);
    OthersReads(m, DoRead(m, k, result), start, k);
    if result == Reads {
      StatementReads(m, k, start);
    } else {
      SawStillOneState(m, DoRead(m, k, result), start, k);
    }
  }

  /** The end of a read, by COMMIT or by ROLLBACK, closes the connection; a failed COMMIT leaves it to a ROLLBACK. */
  lemma ReadEndKeeps<L, D>(m: Machine<L, D>, a: Move<L, D>, start: D)
    requires Inv(m, start) && Enabled(m, a) && (a.CommitRead? || a.RollbackRead?)
    ensures ReadersFit(Do(m, a), start)
  {
    OnlyOneActive(m.readers, a.k);
    SettleKeeps(m.readers, a.k);
    OthersReads(m, Do(m, a), start, |m.readers.stages|);
  }

  predicate IsReaderStep<L, D>(a: Move<L, D>) {
    a.EnqueueRead? || a.BeginRead? || a.ReadStatement? || a.CommitRead? || a.RollbackRead?
  }

  lemma ReaderStepKeeps<L, D>(m: Machine<L, D>, a: Move<L, D>, start: D)
    requires Inv(m, start) && Enabled(m, a) && IsReaderStep(a)
    ensures ReadersFit(Do(m, a), start)
  {
    match a
    case EnqueueRead => EnqueueReadKeeps(m, start);
    case BeginRead(k, ok) => BeginReadKeeps(m, k, ok, start);
    case ReadStatement(k, result) => ReadKeeps(m, k, result, start);
    case CommitRead(_, _) => ReadEndKeeps(m, a, start);
    case RollbackRead(_) => ReadEndKeeps(m, a, start);
  }

  ghost predicate SameWriters<L, D>(m: Machine<L, D>, m': Machine<L, D>) {
    && m'.committed == m.committed && m'.connection == m.connection && m'.writers == m.writers && m'.tasks == m.tasks
    && m'.running == m.running && m'.commits == m.commits && m'.results == m.results
  }

  lemma ReadersTouchNoWriter<L, D>(m: Machine<L, D>, a: Move<L, D>)
    requires Enabled(m, a) && IsReaderStep(a)
    ensures SameWriters(m, Do(m, a))
  {
  }

  lemma WritersStillFit<L, D>(m: Machine<L, D>, m': Machine<L, D>, start: D)
    requires WritersFit(m) && CommitsFit(m, start) && SameWriters(m, m')
    ensures WritersFit(m') && CommitsFit(m', start)
  {
    forall k | k in m.running
      ensures OwnWork(m', k)
    {
      assert OwnWork(m, k);
    }
  }

  lemma StepKeeps<L, D>(m: Machine<L, D>, a: Move<L, D>, start: D)
    requires Inv(m, start) && Enabled(m, a)
    ensures Inv(Do(m, a), start)
  {
    match a
    case Enqueue(task) => EnqueueKeeps(m, task, start);
    case RejectNested =>
    case Begin(k, ok) => BeginKeeps(m, k, ok, start);
    case Statement(k) => StatementKeeps(m, k, start);
    case Commit(k, ok) => CommitKeeps(m, k, ok, start);
    case Rollback(k) => RollbackKeeps(m, k, start);
    case _ =>
      ReaderStepKeeps(m, a, start);
      ReadersTouchNoWriter(m, a);
      WritersStillFit(m, Do(m, a), start);
  }

  // ---- What holds in every state ----

  ghost predicate Behaviour<L, D>(ms: seq<Machine<L, D>>, moves: seq<Move<L, D>>, start: D) {
    && |ms| == |moves| + 1 && ms[0] == Initial(start)
    && forall i :: 0 <= i < |moves| ==> Enabled(ms[i], moves[i]) && ms[i + 1] == Do(ms[i], moves[i])
  }

  lemma {:induction false} BehaviourKeeps<L, D>(ms: seq<Machine<L, D>>, moves: seq<Move<L, D>>, start: D, i: nat)
    requires Behaviour(ms, moves, start) && i <= |moves|
    ensures Inv(ms[i], start)
  {
    if i > 0 {
      BehaviourKeeps(ms, moves, start, i - 1);
      StepKeeps(ms[i - 1], moves[i - 1], start);
    }
  }

  // ---- What the callers get ----

  /** The `i`-th successful caller gets what its task returns when run by itself after the ones committed before. */
  ghost predicate Returns<L, D>(m: Machine<L, D>, start: D, i: nat)
    requires i < |m.commits|
  {
    var k, before := m.commits[i], Serial(m.tasks, m.commits[..i], start);
    && k in m.results && k < |m.tasks| && before.Some?
    && var run := RunTo(m.tasks[k], |m.tasks[k].stmts|, before.value);
    run.Ok? && run.locals == m.results[k]
  }

  ghost predicate AllReturn<L, D>(m: Machine<L, D>, start: D) {
    forall i :: 0 <= i < |m.commits| ==> Returns(m, start, i)
  }

  lemma StillReturns<L, D>(m: Machine<L, D>, m': Machine<L, D>, start: D, i: nat)
    requires i < |m.commits| && Returns(m, start, i) && m.tasks <= m'.tasks && m.commits <= m'.commits
    requires forall k :: k in m.commits ==> k < |m.tasks|
    requires m.commits[i] in m'.results && m'.results[m.commits[i]] == m.results[m.commits[i]]
    ensures Returns(m', start, i)
  {
    PrefixKept(m, m', start, i);
    assert m'.tasks[m.commits[i]] == m.tasks[m.commits[i]];
  }

  lemma CommitReturns<L, D>(m: Machine<L, D>, k: nat, start: D)
    requires Inv(m, start) && AllReturn(m, start) && Enabled(m, Move.Commit(k, true))
    ensures AllReturn(DoCommit(m, k, true), start)
  {
    var m' := DoCommit(m, k, true);
    assert OwnWork(m, k);
    EarlierCommits(m, k, start);
    forall i | 0 <= i < |m'.commits|
      ensures Returns(m', start, i)
    {
      if i < |m.commits| {
        StillReturns(m, m', start, i);
      } else {
        assert m'.commits[..i] == m.commits;
      }
    }
  }

  lemma OthersGetNothing<L, D>(m: Machine<L, D>, a: Move<L, D>)
    requires Enabled(m, a) && !(a.Commit? && a.ok) && !IsReaderStep(a)
    ensures Do(m, a).commits == m.commits && Do(m, a).results == m.results && m.tasks <= Do(m, a).tasks
  {
  }

  lemma StepReturns<L, D>(m: Machine<L, D>, a: Move<L, D>, start: D)
    requires Inv(m, start) && AllReturn(m, start) && Enabled(m, a)
    ensures AllReturn(Do(m, a), start)
  {
    if a.Commit? && a.ok {
      CommitReturns(m, a.k, start);
    } else {
      if IsReaderStep(a) { ReadersTouchNoWriter(m, a); } else { OthersGetNothing(m, a); }
      ReturnsKept(m, Do(m, a), start);
    }
  }

  lemma ReturnsKept<L, D>(m: Machine<L, D>, m': Machine<L, D>, start: D)
    requires WritersFit(m) && CommitsFit(m, start) && AllReturn(m, start)
    requires m'.commits == m.commits && m'.results == m.results && m.tasks <= m'.tasks
    ensures AllReturn(m', start)
  {
    forall i | 0 <= i < |m'.commits|
      ensures Returns(m', start, i)
    {
      assert Returns(m, start, i);
      StillReturns(m, m', start, i);
    }
  }

  lemma {:induction false} BehaviourReturns<L, D>(ms: seq<Machine<L, D>>, moves: seq<Move<L, D>>, start: D, i: nat)
    requires Behaviour(ms, moves, start) && i <= |moves|
    ensures AllReturn(ms[i], start)
  {
    if i > 0 {
      BehaviourReturns(ms, moves, start, i - 1);
      BehaviourKeeps(ms, moves, start, i - 1);
      StepReturns(ms[i - 1], moves[i - 1], start);
    }
  }

  /**
   * Under any interleaving the database is what the committed tasks make of the first one, one at a time and in the
   * order of their calls, and each of their callers gets what its task returns in that order. At most one task holds a
   * transaction, and no statement runs outside of one.
   */
  lemma SerialEquivalence<L, D>(ms: seq<Machine<L, D>>, moves: seq<Move<L, D>>, start: D, i: nat)
    requires Behaviour(ms, moves, start) && i <= |moves|
    ensures Serial(ms[i].tasks, ms[i].commits, start) == Some(ms[i].committed)
    ensures forall j, k :: 0 <= j < k < |ms[i].commits| ==> ms[i].commits[j] < ms[i].commits[k]
    ensures forall j :: 0 <= j < |ms[i].commits| ==> Returns(ms[i], start, j)
    ensures forall j, k :: j in ms[i].running && k in ms[i].running ==> j == k
    ensures forall k :: k in ms[i].running && ms[i].running[k].Running? ==> ms[i].connection.Some?
    ensures ms[i].running == map[] ==> ms[i].connection.None?
  {
    BehaviourKeeps(ms, moves, start, i);
    BehaviourReturns(ms, moves, start, i);
    forall j, k | j in ms[i].running && k in ms[i].running
      ensures j == k
    {
      OnlyOneActive(ms[i].writers, j);
    }
    forall k | k in ms[i].running && ms[i].running[k].Running?
      ensures ms[i].connection.Some?
    {
      assert OwnWork(ms[i], k);
    }
  }

  /**
   * All that one reader ever saw, finished or not, is a single state: the one that some prefix of the commits leads to,
   * which holds all that had committed when the reader began. None of its statements runs outside of its transaction.
   */
  lemma ReadsAreConsistent<L, D>(ms: seq<Machine<L, D>>, moves: seq<Move<L, D>>, start: D, i: nat, k: nat)
    requires Behaviour(ms, moves, start) && i <= |moves| && k in ms[i].views
    ensures exists at :: SawPrefix(ms[i], start, k, at)
    ensures forall j :: j in ms[i].reading && k in ms[i].reading ==> j == k
    ensures k in ms[i].reading && ms[i].reading[k] == Reading ==> ms[i].readConnection.Some?
  {
    BehaviourKeeps(ms, moves, start, i);
    assert SawOneState(ms[i], start, k);
    if k in ms[i].reading {
      OnlyOneActive(ms[i].readers, k);
    }
  }

  // ---- What each step of a writer does, in every state that can be reached ----

  /** A granted BEGIN opens a transaction over the committed database and lets the caller run; a refused one ends it. */
  lemma BeginOpens<L, D>(m: Machine<L, D>, k: nat, ok: bool, start: D)
    requires Inv(m, start) && Enabled(m, Move.Begin(k, ok))
    ensures var m' := DoBegin(m, k, ok);
            && m'.committed == m.committed && m'.commits == m.commits && m'.results == m.results && m'.tasks == m.tasks
            && if ok then
                 && m'.connection == Some(m.committed) && m'.writers.stages == m.writers.stages[k := Active]
                 && m'.running == map[k := Running(0, m.tasks[k].init)]
               else m'.connection.None? && m'.writers.stages == m.writers.stages[k := Settled] && m'.running == map[]
  {
    BeginKeeps(m, k, ok, start);
    StartsInCallOrder(m.writers, k);
    assert m.running.Keys == {};
    assert m.running == map[];
  }

  /** A statement acts on the open transaction, on nothing else; one that fails sends its caller to ROLLBACK. */
  lemma StatementActs<L, D>(m: Machine<L, D>, k: nat, start: D)
    requires Inv(m, start) && Enabled(m, Move.Statement(k))
    ensures m.connection.Some?
    ensures var m', p := DoStatement(m, k), m.running[k];
            && m'.committed == m.committed && m'.commits == m.commits && m'.results == m.results && m'.writers == m.writers
            && match m.tasks[k].stmts[p.pc](p.locals, m.connection.value)
               case Ok(locals, db) => m'.connection == Some(db) && m'.running == m.running[k := Running(p.pc + 1, locals)]
               case Throws => m'.connection == m.connection && m'.running == m.running[k := Unwinding]
               case Aborts => m'.connection.None? && m'.running == m.running[k := Unwinding]
  {
    assert OwnWork(m, k);
  }

  /** A granted COMMIT makes the transaction's database the committed one, and the caller gets its result. */
  lemma CommitLands<L, D>(m: Machine<L, D>, k: nat, start: D)
    requires Inv(m, start) && Enabled(m, Move.Commit(k, true))
    ensures m.connection.Some?
    ensures var m' := DoCommit(m, k, true);
            && m'.committed == m.connection.value && m'.connection.None? && m'.commits == m.commits + [k]
            && m'.results == m.results[k := m.running[k].locals] && m'.writers.stages == m.writers.stages[k := Settled]
            && m'.running == map[] && m'.tasks == m.tasks
  {
    assert OwnWork(m, k);
    OnlyOneRuns(m, k);
  }

  /** A refused COMMIT and the ROLLBACK after it leave the committed database and the callers' results as they were. */
  lemma RollbackUndoes<L, D>(m: Machine<L, D>, k: nat, start: D)
    requires Inv(m, start)
    ensures Enabled(m, Move.Commit(k, false)) ==>
              DoCommit(m, k, false) == m.(running := map[k := Unwinding]) && Enabled(DoCommit(m, k, false), Move.Rollback(k))
    ensures Enabled(m, Move.Rollback(k)) ==>
              Do(m, Move.Rollback(k)) == m.(connection := None, writers := Set(m.writers, k, Settled), running := map[])
  {
    if k in m.running {
      OnlyOneRuns(m, k);
    }
  }

  lemma OnlyOneRuns<L, D>(m: Machine<L, D>, k: nat)
    requires WritersFit(m) && k in m.running
    ensures m.running == map[k := m.running[k]] && m.running - {k} == map[]
  {
    OnlyOneActive(m.writers, k);
  }

  // ---- And of a reader ----

  /** A granted BEGIN opens the shared connection's transaction for a reader that has seen nothing yet. */
  lemma BeginReadOpens<L, D>(m: Machine<L, D>, k: nat, ok: bool, start: D)
    requires Inv(m, start) && Enabled(m, Move.BeginRead(k, ok))
    ensures var m' := DoBeginRead(m, k, ok);
            if ok then
              && m'.readConnection == Some(Unfixed) && m'.reading == map[k := Reading]
              && m'.views == m.views[k := Reader(|m.commits|, [])] && m'.readers.stages == m.readers.stages[k := Active]
            else m'.reading == map[] && m'.views == m.views && m'.readers.stages == m.readers.stages[k := Settled]
  {
    NobodyReads(m, k, start);
    assert m.reading == map[];
  }

  /** Its first statement sees what is committed then, every later one the same again, whatever commits in between. */
  lemma ReadSees<L, D>(m: Machine<L, D>, k: nat, start: D)
    requires Inv(m, start) && Enabled(m, Move.ReadStatement(k, Reads))
    ensures var seen := m.views[k].seen;
            DoRead(m, k, Reads).views == m.views[k := m.views[k].(seen := seen + [if seen == [] then m.committed else seen[0]])]
    ensures DoRead(m, k, Reads).reading == m.reading
  {
    assert OwnRead(m, start, k);
  }

  /** A granted COMMIT of a reader ends it; a refused one leaves it to ROLLBACK, which ends it too. */
  lemma ReadEnds<L, D>(m: Machine<L, D>, k: nat, start: D)
    requires Inv(m, start)
    ensures forall a :: Enabled(m, a) && (a == Move.CommitRead(k, true) || a == Move.RollbackRead(k)) ==>
              Do(m, a) == m.(readConnection := None, readers := Set(m.readers, k, Settled), reading := map[])
    ensures Enabled(m, Move.CommitRead(k, false)) ==>
              Do(m, Move.CommitRead(k, false)) == m.(reading := map[k := Closing])
  {
    if k in m.reading {
      OnlyOneActive(m.readers, k);
      assert m.reading == map[k := m.reading[k]] && m.reading - {k} == map[];
      if m.reading[k] == Reading {
        assert OwnRead(m, start, k);
      }
    }
  }

  // ---- Who gets through ----

  /** The tasks that committed among those called before `k`. */
  function Earlier(commits: seq<nat>, k: nat): seq<nat> {
    if commits == [] then []
    else if commits[|commits| - 1] < k then commits
    else Earlier(commits[..|commits| - 1], k)
  }

  /** Run by itself at its turn, after the earlier tasks that committed, the task gets to its end. */
  ghost predicate GoesThrough<L, D>(m: Machine<L, D>, start: D, k: nat)
    requires k < |m.tasks|
  {
    var before := Serial(m.tasks, Earlier(m.commits, k), start);
    before.Some? && RunTo(m.tasks[k], |m.tasks[k].stmts|, before.value).Ok?
  }

  /** From call `q` on whoever is done has committed exactly if its task goes through; an unwinding one does not. */
  ghost predicate Fair<L, D>(m: Machine<L, D>, start: D, q: nat) {
    && |m.tasks| == |m.writers.stages|
    && (forall k :: q <= k < |m.tasks| && m.writers.stages[k] == Settled ==> (k in m.commits <==> GoesThrough(m, start, k)))
    && (forall k :: k in m.running && q <= k < |m.tasks| && m.running[k].Unwinding? ==>
          !RunTo(m.tasks[k], |m.tasks[k].stmts|, m.committed).Ok?)
  }

  /** The step is not a BEGIN or COMMIT of a writer that the database refuses. */
  predicate Granted<L, D>(a: Move<L, D>) {
    (a.Begin? ==> a.ok) && (a.Commit? ==> a.ok)
  }

  lemma {:induction false} FailedStaysFailed<L, D>(t: Task<L, D>, n: nat, end: nat, db: D)
    requires n <= end <= |t.stmts| && !RunTo(t, n, db).Ok?
    ensures !RunTo(t, end, db).Ok?
    decreases end
  {
    if n < end {
      FailedStaysFailed(t, n, end - 1, db);
    }
  }

  lemma AllEarlier(commits: seq<nat>, k: nat)
    requires Ascending(commits) && forall i :: 0 <= i < |commits| ==> commits[i] < k
    ensures Earlier(commits, k) == commits
  {
  }

  lemma EarlierKept(commits: seq<nat>, last: nat, k: nat)
    requires k <= last
    ensures Earlier(commits + [last], k) == Earlier(commits, k)
  {
    assert (commits + [last])[..|commits|] == commits;
  }

  lemma {:induction false} EarlierAreCommits(commits: seq<nat>, k: nat)
    ensures forall i :: i in Earlier(commits, k) ==> i in commits
  {
    if commits != [] && commits[|commits| - 1] >= k {
      EarlierAreCommits(commits[..|commits| - 1], k);
    }
  }

  lemma StillGoesThrough<L, D>(m: Machine<L, D>, m': Machine<L, D>, start: D, k: nat)
    requires k < |m.tasks| && m.tasks <= m'.tasks && forall j :: j in m.commits ==> j < |m.tasks|
    requires m'.commits == m.commits || exists last :: k <= last && m'.commits == m.commits + [last]
    ensures GoesThrough(m', start, k) <==> GoesThrough(m, start, k)
  {
    if last :| k <= last && m'.commits == m.commits + [last] {
      EarlierKept(m.commits, last, k);
    }
    EarlierAreCommits(m.commits, k);
    MoreTasksSameSerial(m.tasks, m'.tasks, Earlier(m.commits, k), start);
  }

  /** At its turn all that has committed was called before. */
  lemma TurnIsNow<L, D>(m: Machine<L, D>, k: nat, start: D)
    requires WritersFit(m) && CommitsFit(m, start) && IsActive(m.writers, k)
    ensures Earlier(m.commits, k) == m.commits && k !in m.commits
    ensures GoesThrough(m, start, k) <==> RunTo(m.tasks[k], |m.tasks[k].stmts|, m.committed).Ok?
  {
    EarlierCommits(m, k, start);
    AllEarlier(m.commits, k);
  }

  lemma SettledStaysFair<L, D>(m: Machine<L, D>, m': Machine<L, D>, start: D, q: nat, k: nat)
    requires Inv(m, start) && Fair(m, start, q) && q <= k < |m.tasks| && m.writers.stages[k] == Settled
    requires m.tasks <= m'.tasks
    requires m'.commits == m.commits || exists last :: k < last && m'.commits == m.commits + [last]
    ensures k in m'.commits <==> GoesThrough(m', start, k)
  {
    StillGoesThrough(m, m', start, k);
  }

  lemma CommitIsFair<L, D>(m: Machine<L, D>, k: nat, start: D, q: nat)
    requires Inv(m, start) && Fair(m, start, q) && Enabled(m, Move.Commit(k, true))
    ensures Fair(DoCommit(m, k, true), start, q)
  {
    var m' := DoCommit(m, k, true);
    CommitLands(m, k, start);
    TurnIsNow(m, k, start);
    assert OwnWork(m, k);
    forall j | q <= j < |m'.tasks| && m'.writers.stages[j] == Settled
      ensures j in m'.commits <==> GoesThrough(m', start, j)
    {
      if j == k {
        StillGoesThrough(m, m', start, k);
      } else {
        assert j < k;
        SettledStaysFair(m, m', start, q, j);
      }
    }
  }

  lemma RollbackIsFair<L, D>(m: Machine<L, D>, k: nat, start: D, q: nat)
    requires Inv(m, start) && Fair(m, start, q) && Enabled(m, Move.Rollback(k))
    ensures Fair(Do(m, Move.Rollback(k)), start, q)
  {
    var m' := Do(m, Move.Rollback(k));
    RollbackUndoes(m, k, start);
    TurnIsNow(m, k, start);
    forall j | q <= j < |m'.tasks| && m'.writers.stages[j] == Settled
      ensures j in m'.commits <==> GoesThrough(m', start, j)
    {
      StillGoesThrough(m, m', start, j);
      if j != k {
        SettledStaysFair(m, m', start, q, j);
      }
    }
  }

  lemma StatementIsFair<L, D>(m: Machine<L, D>, k: nat, start: D, q: nat)
    requires Inv(m, start) && Fair(m, start, q) && Enabled(m, Move.Statement(k))
    ensures Fair(DoStatement(m, k), start, q)
  {
    var m' := DoStatement(m, k);
    StatementActs(m, k, start);
    StatementIsOwnWork(m, k);
    OnlyOneRuns(m, k);
    assert OwnWork(m, k);
    if m'.running[k].Unwinding? {
      FailedStaysFailed(m.tasks[k], m.running[k].pc + 1, |m.tasks[k].stmts|, m.committed);
    }
    SettledFair(m, m', start, q);
  }

  lemma SettledFair<L, D>(m: Machine<L, D>, m': Machine<L, D>, start: D, q: nat)
    requires Inv(m, start) && Fair(m, start, q) && m.tasks <= m'.tasks && m'.commits == m.commits
    ensures forall k :: q <= k < |m.tasks| && m.writers.stages[k] == Settled ==> (k in m'.commits <==> GoesThrough(m', start, k))
  {
    forall k | q <= k < |m.tasks| && m.writers.stages[k] == Settled
      ensures k in m'.commits <==> GoesThrough(m', start, k)
    {
      SettledStaysFair(m, m', start, q, k);
    }
  }

  /** As long as nothing is refused, fairness is kept: callers come, begin, run, commit and roll back. */
  lemma StepIsFair<L, D>(m: Machine<L, D>, a: Move<L, D>, start: D, q: nat)
    requires Inv(m, start) && Fair(m, start, q) && Enabled(m, a) && Granted(a)
    ensures Fair(Do(m, a), start, q)
  {
    match a
    case Commit(k, _) => CommitIsFair(m, k, start, q);
    case Rollback(k) => RollbackIsFair(m, k, start, q);
    case Statement(k) => StatementIsFair(m, k, start, q);
    case Begin(k, _) =>
      BeginOpens(m, k, true, start);
      SettledFair(m, Do(m, a), start, q);
    case Enqueue(_) => SettledFair(m, Do(m, a), start, q);
    case RejectNested =>
    case _ => ReadersTouchNoWriter(m, a); SettledFair(m, Do(m, a), start, q);
  }

  /**
   * In every behaviour in which the database refuses no writer, whoever is done has committed if and only if its task,
   * run by itself after the earlier ones that committed, gets to its end.
   */
  lemma {:induction false} CommitsIffItGoesThrough<L, D>(ms: seq<Machine<L, D>>, moves: seq<Move<L, D>>, start: D, i: nat)
    requires Behaviour(ms, moves, start) && i <= |moves| && forall j :: 0 <= j < i ==> Granted(moves[j])
    ensures Fair(ms[i], start, 0)
  {
    if i > 0 {
      CommitsIffItGoesThrough(ms, moves, start, i - 1);
      BehaviourKeeps(ms, moves, start, i - 1);
      StepIsFair(ms[i - 1], moves[i - 1], start, 0);
    }
  }

  // ---- Nothing wedges the queue ----

  /** How many steps task `k` can still take. */
  function Weight<L, D>(m: Machine<L, D>, k: nat): nat
    requires k < |m.tasks|
  {
    if k in m.running then
      match m.running[k]
      case Running(pc, _) => if pc <= |m.tasks[k].stmts| then |m.tasks[k].stmts| - pc + 2 else 2
      case Unwinding => 1
    else if k < |m.writers.stages| && m.writers.stages[k] == Queued then |m.tasks[k].stmts| + 3
    else 0
  }

  function Left<L, D>(m: Machine<L, D>, n: nat): nat
    requires n <= |m.tasks|
  {
    if n == 0 then 0 else Left(m, n - 1) + Weight(m, n - 1)
  }

  predicate IsWriterStep<L, D>(a: Move<L, D>, k: nat) {
    match a
    case Begin(j, _) => j == k
    case Statement(j) => j == k
    case Commit(j, _) => j == k
    case Rollback(j) => j == k
    case _ => false
  }

  /** The step is progress for one task and nothing to the others. */
  ghost predicate Advances<L, D>(m: Machine<L, D>, m': Machine<L, D>, k: nat) {
    && m'.tasks == m.tasks && k < |m.tasks| && Weight(m', k) < Weight(m, k)
    && forall j :: 0 <= j < |m.tasks| && j != k ==> Weight(m', j) == Weight(m, j)
  }

  lemma BeginAdvances<L, D>(m: Machine<L, D>, k: nat, ok: bool)
    requires WritersFit(m) && Enabled(m, Move.Begin(k, ok))
    ensures Advances(m, DoBegin(m, k, ok), k)
  {
  }

  lemma StatementAdvances<L, D>(m: Machine<L, D>, k: nat)
    requires WritersFit(m) && Enabled(m, Move.Statement(k))
    ensures Advances(m, DoStatement(m, k), k)
  {
  }

  lemma EndAdvances<L, D>(m: Machine<L, D>, a: Move<L, D>, k: nat)
    requires WritersFit(m) && Enabled(m, a) && IsWriterStep(a, k) && (a.Commit? || a.Rollback?)
    ensures Advances(m, Do(m, a), k)
  {
    assert OwnWork(m, k);
  }

  lemma WriterStepIsProgress<L, D>(m: Machine<L, D>, a: Move<L, D>, k: nat)
    requires WritersFit(m) && Enabled(m, a) && IsWriterStep(a, k)
    ensures Advances(m, Do(m, a), k)
  {
    match a
    case Begin(_, ok) => BeginAdvances(m, k, ok);
    case Statement(_) => StatementAdvances(m, k);
    case Commit(_, _) => EndAdvances(m, a, k);
    case Rollback(_) => EndAdvances(m, a, k);
  }

  lemma {:induction false} LessLeft<L, D>(m: Machine<L, D>, m': Machine<L, D>, k: nat, n: nat)
    requires Advances(m, m', k) && n <= |m.tasks|
    ensures if k < n then Left(m', n) < Left(m, n) else Left(m', n) == Left(m, n)
  {
    if n > 0 {
      LessLeft(m, m', k, n - 1);
    }
  }

  /** Some writer can always take a step while one is unsettled, whatever became of the tasks before it. */
  lemma WriterCanStep<L, D>(m: Machine<L, D>, n: nat, start: D) returns (a: Move<L, D>, k: nat)
    requires Inv(m, start) && n < |m.tasks| && m.writers.stages[n] != Settled
    ensures Enabled(m, a) && IsWriterStep(a, k) && IsGrantedStep(a)
  {
    NeverStuck(m.writers, n);
    k :| k <= n && (IsActive(m.writers, k) || CanStart(m.writers, k));
    if CanStart(m.writers, k) {
      a := Move.Begin(k, true);
    } else {
      assert OwnWork(m, k);
      match m.running[k]
      case Unwinding => a := Move.Rollback(k);
      case Running(pc, _) => a := if pc < |m.tasks[k].stmts| then Move.Statement(k) else Move.Commit(k, true);
    }
  }

  ghost predicate Leads<L, D>(m: Machine<L, D>, moves: seq<Move<L, D>>, m': Machine<L, D>)
    decreases |moves|
  {
    if moves == [] then m' == m else Enabled(m, moves[0]) && Leads(Do(m, moves[0]), moves[1..], m')
  }

  predicate IsGrantedStep<L, D>(a: Move<L, D>) {
    Granted(a) && (a.Begin? || a.Statement? || a.Commit? || a.Rollback?)
  }

  /** The first call from which on all callers still wait. */
  lemma FirstQueued<L, D>(m: Machine<L, D>, start: D, n: nat) returns (q: nat)
    requires Inv(m, start) && n <= |m.tasks| && forall k :: n <= k < |m.tasks| ==> m.writers.stages[k] == Queued
    ensures q <= n && forall k :: q <= k < |m.tasks| ==> m.writers.stages[k] == Queued
    ensures forall k :: 0 <= k < q ==> m.writers.stages[k] != Queued
    decreases n
  {
    if n > 0 && m.writers.stages[n - 1] == Queued {
      q := FirstQueued(m, start, n - 1);
    } else {
      q := n;
    }
  }

  /**
   * From every reachable state, whatever was refused before, the writers' queue can be emptied, in no more steps than
   * there is work left; and if nothing is refused meanwhile, a caller that was waiting commits if and only if its task
   * goes through at its turn.
   */
  lemma QueueDrains<L, D>(m: Machine<L, D>, start: D) returns (moves: seq<Move<L, D>>, m': Machine<L, D>)
    requires Inv(m, start)
    ensures Leads(m, moves, m') && |moves| <= Left(m, |m.tasks|) && forall i :: 0 <= i < |moves| ==> IsGrantedStep(moves[i])
    ensures m'.tasks == m.tasks && forall k :: 0 <= k < |m'.writers.stages| ==> m'.writers.stages[k] == Settled
    ensures Inv(m', start)
    ensures forall k :: 0 <= k < |m.tasks| && m.writers.stages[k] == Queued ==> (k in m'.commits <==> GoesThrough(m', start, k))
  {
    var q := FirstQueued(m, start, |m.tasks|);
    moves, m' := DrainsFairly(m, start, q);
  }

  lemma {:induction false} DrainsFairly<L, D>(m: Machine<L, D>, start: D, q: nat)
    returns (moves: seq<Move<L, D>>, m': Machine<L, D>)
    requires Inv(m, start) && Fair(m, start, q)
    ensures Leads(m, moves, m') && |moves| <= Left(m, |m.tasks|) && forall i :: 0 <= i < |moves| ==> IsGrantedStep(moves[i])
    ensures m'.tasks == m.tasks && forall k :: 0 <= k < |m'.writers.stages| ==> m'.writers.stages[k] == Settled
    ensures Inv(m', start) && Fair(m', start, q)
    decreases Left(m, |m.tasks|)
  {
    if n :| 0 <= n < |m.tasks| && m.writers.stages[n] != Settled {
      var a, k := WriterCanStep(m, n, start);
      WriterStepIsProgress(m, a, k);
      LessLeft(m, Do(m, a), k, |m.tasks|);
      StepKeeps(m, a, start);
      StepIsFair(m, a, start, q);
      var rest;
      rest, m' := DrainsFairly(Do(m, a), start, q);
      moves := [a] + rest;
    } else {
      moves, m' := [], m;
    }
  }

  // ---- Nor the queue of readers ----

  function Steps(s: Stage): nat {
    match s
    case Queued => 2
    case Active => 1
    case Settled => 0
  }

  function Unsettled(stages: seq<Stage>): nat {
    if stages == [] then 0 else Unsettled(stages[..|stages| - 1]) + Steps(stages[|stages| - 1])
  }

  lemma {:induction false} FewerUnsettled(stages: seq<Stage>, k: nat, s: Stage)
    requires k < |stages| && Steps(s) < Steps(stages[k])
    ensures Unsettled(stages[k := s]) < Unsettled(stages)
    decreases |stages|
  {
    var n := |stages| - 1;
    if k < n {
      FewerUnsettled(stages[..n], k, s);
      assert stages[k := s][..n] == stages[..n][k := s];
    } else {
      assert stages[k := s][..n] == stages[..n];
    }
  }

  /** Some reader can always begin or end while one is unsettled, whatever became of the readers before it. */
  lemma ReaderCanStep<L, D>(m: Machine<L, D>, n: nat, start: D) returns (a: Move<L, D>)
    requires Inv(m, start) && n < |m.readers.stages| && m.readers.stages[n] != Settled
    ensures Enabled(m, a) && IsReaderStep(a) && Unsettled(Do(m, a).readers.stages) < Unsettled(m.readers.stages)
  {
    NeverStuck(m.readers, n);
    var k: nat :| k <= n && (IsActive(m.readers, k) || CanStart(m.readers, k));
    if CanStart(m.readers, k) {
      a := Move.BeginRead(k, true);
      BeginReadKeeps(m, k, true, start);
      FewerUnsettled(m.readers.stages, k, Active);
    } else {
      a := if m.reading[k] == Reading then Move.CommitRead(k, true) else Move.RollbackRead(k);
      assert m.reading[k] == Reading ==> OwnRead(m, start, k);
      FewerUnsettled(m.readers.stages, k, Settled);
    }
  }

  /** The readers' queue can be emptied as well, in no more than two steps per reader, and without a writer's help. */
  lemma {:induction false} ReadQueueDrains<L, D>(m: Machine<L, D>, start: D) returns (moves: seq<Move<L, D>>, m': Machine<L, D>)
    requires Inv(m, start)
    ensures Leads(m, moves, m') && |moves| <= Unsettled(m.readers.stages)
    ensures forall i :: 0 <= i < |moves| ==> IsReaderStep(moves[i])
    ensures forall k :: 0 <= k < |m'.readers.stages| ==> m'.readers.stages[k] == Settled
    decreases Unsettled(m.readers.stages)
  {
    if n :| 0 <= n < |m.readers.stages| && m.readers.stages[n] != Settled {
      var a := ReaderCanStep(m, n, start);
      StepKeeps(m, a, start);
      var rest;
      rest, m' := ReadQueueDrains(Do(m, a), start);
      moves := [a] + rest;
    } else {
      moves, m' := [], m;
    }
  }
}
