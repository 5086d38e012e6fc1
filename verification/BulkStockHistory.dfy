/**
  Bulk Stock over whole runs. A `World` lets commands interleave at every await, with other
  writers in between; a `System` runs them through the command coordinator.
 */
module BulkStockHistory {
  import opened Wrappers
  import opened BulkStockLedger
  import opened BulkStockCommands
  import opened BulkStockService
  import Q = CommandCoordinator
  import S = Sequencing

  /** A submitted command, where it stands, and what its turns have heard. */
  datatype Task = Task(cmd: Command, pc: Pc, heard: seq<Answer>)

  // ---- one turn keeps every ledger rule, whatever ran since the turn before -------------------

  /** What a command knows of the ledger while it waits; later rows cannot make it false. */
  ghost predicate LocalOk(cmd: Command, pc: Pc, ms: seq<Movement>) {
    && PcFits(cmd, pc)
    && match pc
       case AskCompensated(ctx, o) => o in ms && o.id == cmd.target && o.shop == ctx.shop && o.day == Some(ctx.day)
       case AskItems(ctx, undoing) =>
         undoing.Some? ==>
           var (o, at) := undoing.value;
           && o in ms && o.id == cmd.target && o.shop == ctx.shop && o.day == Some(ctx.day)
           && InUndoWindow(o.createdAt, at)
       case AskCommit(ctx, c) => CommitSound(cmd, ctx, c, ms)
       case Replied(reply) =>
         reply.Done? ==>
           && !cmd.Session? && cmd.commandId == Some(reply.movement.id) && reply.movement in ms && Matches(cmd, reply.movement)
           && reply.undoUntil == UndoUntil(cmd, reply.movement.createdAt)
       case _ => true
  }

  /** The movement is what this command records: same kind, and same item or target. */
  predicate Matches(cmd: Command, m: Movement) {
    match cmd
    case FinishOne(item, _) => m.item == item && m.kind.UnitFinished?
    case AddStock(item, _, _) => m.item == item && m.kind.StockReceived?
    case Undo(target, _) => m.compensates == Some(target) && IsUndo(m.kind)
    case Session => false
  }

  lemma LaterRowsKeepLocalOk(cmd: Command, pc: Pc, ms: seq<Movement>, more: seq<Movement>)
    requires LocalOk(cmd, pc, ms) && ms <= more
    ensures LocalOk(cmd, pc, more)
  {
    assert forall m :: m in ms ==> m in more;
  }

  lemma TurnKeepsOk(cmd: Command, pc: Pc, db: Db, a: Answer)
    requires DbOk(db) && LocalOk(cmd, pc, db.movements)
    ensures
      var (pc', db') := Turn(cmd, pc, db, a);
      && DbOk(db') && db.movements <= db'.movements && LocalOk(cmd, pc', db'.movements)
      && (db'.movements == db.movements || (pc.AskCommit? && Commits(db, pc.commit)
                                            && db' == Record(db, pc.commit.movement, pc.commit.auditId, pc.commit.outboxId)))
  {
    match pc
    case AskItems(_, _) => DraftTurnKeepsOk(cmd, pc, db, a);
    case AskCommit(_, _) => CommitTurnKeepsOk(cmd, pc, db, a);
    case AskExisting(_) => ReplayLookupKeepsOk(cmd, pc, db, a);
    case AskOriginal(_) => OriginalLookupKeepsOk(cmd, pc, db, a);
    case AskCompensated(_, _) => WindowTurnKeepsOk(cmd, pc, db, a);
    case _ =>
  }

  lemma ReplayLookupKeepsOk(cmd: Command, pc: Pc, db: Db, a: Answer)
    requires LocalOk(cmd, pc, db.movements) && pc.AskExisting?
    ensures Turn(cmd, pc, db, a).1 == db && LocalOk(cmd, Turn(cmd, pc, db, a).0, db.movements)
  {
  }

  lemma OriginalLookupKeepsOk(cmd: Command, pc: Pc, db: Db, a: Answer)
    requires LocalOk(cmd, pc, db.movements) && pc.AskOriginal?
    ensures Turn(cmd, pc, db, a).1 == db && LocalOk(cmd, Turn(cmd, pc, db, a).0, db.movements)
  {
  }

  lemma WindowTurnKeepsOk(cmd: Command, pc: Pc, db: Db, a: Answer)
    requires LocalOk(cmd, pc, db.movements) && pc.AskCompensated?
    ensures Turn(cmd, pc, db, a).1 == db && LocalOk(cmd, Turn(cmd, pc, db, a).0, db.movements)
  {
  }

  lemma DraftTurnKeepsOk(cmd: Command, pc: Pc, db: Db, a: Answer)
    requires LocalOk(cmd, pc, db.movements) && pc.AskItems?
    ensures Turn(cmd, pc, db, a).1 == db && LocalOk(cmd, Turn(cmd, pc, db, a).0, db.movements)
  {
    var ctx, undoing := pc.ctx, pc.undoing;
    var draft := Draft(cmd, ctx, undoing, a.now);
    if draft.Some? {
      var target := if undoing.Some? then Some(undoing.value.0.id) else None;
      DraftIsSound(cmd, ctx, undoing, a.now,
                   Commit(ctx.day, ctx.worker, ctx.shop, draft.value, target, a.auditId, a.outboxId), db.movements);
    }
  }

  lemma CommittedRowIsMeant(cmd: Command, ctx: Context, c: Commit, before: seq<Movement>)
    requires CommitSound(cmd, ctx, c, before)
    ensures Matches(cmd, c.movement) && cmd.commandId == Some(c.movement.id)
    ensures LocalOk(cmd, Replied(Done(c.movement, UndoUntil(cmd, c.movement.createdAt))), before + [c.movement])
  {
    var ms := before + [c.movement];
    assert c.movement == ms[|ms| - 1];
  }

  lemma CommitTurnKeepsOk(cmd: Command, pc: Pc, db: Db, a: Answer)
    requires DbOk(db) && LocalOk(cmd, pc, db.movements) && pc.AskCommit?
    ensures
      var (pc', db') := Turn(cmd, pc, db, a);
      && DbOk(db') && db.movements <= db'.movements && LocalOk(cmd, pc', db'.movements)
      && (db' == db || (Commits(db, pc.commit) && db' == Record(db, pc.commit.movement, pc.commit.auditId, pc.commit.outboxId)))
  {
    var c := pc.commit;
    if Commits(db, c) {
      CommitKeepsDbOk(cmd, pc.ctx, db, c);
      CommittedRowIsMeant(cmd, pc.ctx, c, db.movements);
    }
  }

  /** A committed movement carries the shop, day and operator that are current as it commits. */
  lemma CommitAttribution(cmd: Command, pc: Pc, db: Db, a: Answer)
    requires DbOk(db) && LocalOk(cmd, pc, db.movements) && Turn(cmd, pc, db, a).1.movements != db.movements
    ensures
      var after := Turn(cmd, pc, db, a).1;
      var m := after.movements[|db.movements|];
      && after == Record(db, m, after.audits[|db.audits|].id, after.outbox[|db.outbox|].id)
      && m.shop in db.tables.openDay && m.day == Some(db.tables.openDay[m.shop])
      && m.day.value in db.tables.openSession && m.worker == Some(db.tables.openSession[m.day.value])
      && CurrentItem(db.tables, m.shop, m.item)
  {
    TurnKeepsOk(cmd, pc, db, a);
  }

  // ---- a command that nothing interrupts ------------------------------------------------------

  /** No turn but the last one has given the reply. */
  ghost predicate NoTurnAfterReply(cmd: Command, heard: seq<Answer>, db: Db) {
    heard != [] ==> !Replay(cmd, heard[..|heard| - 1], db).0.Replied?
  }

  lemma EarlierTurns(cmd: Command, heard: seq<Answer>, db: Db)
    requires heard != [] && NoTurnAfterReply(cmd, heard, db)
    ensures NoTurnAfterReply(cmd, heard[..|heard| - 1], db)
  {
    var shorter := heard[..|heard| - 1];
    if shorter != [] && Replay(cmd, shorter[..|shorter| - 1], db).0.Replied? { RepliedStays(cmd, shorter, db); }
  }

  lemma LastTurn(cmd: Command, heard: seq<Answer>, db: Db, a: Answer)
    ensures var before := Replay(cmd, heard, db); Replay(cmd, heard + [a], db) == Turn(cmd, before.0, before.1, a)
  {
    assert (heard + [a])[..|heard|] == heard;
  }

  /** Alone, the command stands where the one-piece command would have brought it: at its end, with the same reply and ledger. */
  ghost predicate AloneOnTrack(cmd: Command, heard: seq<Answer>, db: Db)
    requires !cmd.Session?
  {
    match Replay(cmd, heard, db)
    case (pc, at) => OnTrack(cmd, db, heard, pc, at)
  }

  /**
    A command whose turns nothing interrupts ends as the one-piece command does: same reply, same
    ledger. In particular the guards of `commitMovement` never refuse it.
   */
  lemma {:induction false} AloneIsAtomic(cmd: Command, heard: seq<Answer>, db: Db)
    requires !cmd.Session? && DbOk(db) && NoFaults(heard) && NoTurnAfterReply(cmd, heard, db)
    ensures AloneOnTrack(cmd, heard, db)
  {
    if heard == [] {
      NoTurnAlone(cmd, db);
    } else {
      var shorter, last := heard[..|heard| - 1], heard[|heard| - 1];
      EarlierTurns(cmd, heard, db);
      AloneIsAtomic(cmd, shorter, db);
      assert last in heard && heard == shorter + [last];
      NextTurnAlone(cmd, shorter, db, last);
    }
  }

  lemma NoTurnAlone(cmd: Command, db: Db)
    requires !cmd.Session?
    ensures AloneOnTrack(cmd, [], db)
  {
  }

  lemma NextTurnAlone(cmd: Command, heard: seq<Answer>, db: Db, a: Answer)
    requires !cmd.Session? && DbOk(db) && !a.fault && !Replay(cmd, heard, db).0.Replied? && AloneOnTrack(cmd, heard, db)
    ensures AloneOnTrack(cmd, heard + [a], db)
  {
    var (pc, at) := Replay(cmd, heard, db);
    TurnStaysOnTrack(cmd, db, heard, pc, at, a);
    LastTurn(cmd, heard, db, a);
  }

  // ---- free interleaving ---------------------------------------------------------------------

  datatype World = World(tasks: seq<Task>, db: Db)

  /** `Foreign` is an order or administration row; it never compensates a worker's movement. */
  datatype Happening = Spawn(cmd: Command) | TaskTurn(i: nat, a: Answer) | Foreign(m: Movement) | TablesChange(t: Tables)

  ghost predicate Possible(w: World, e: Happening) {
    match e
    case Spawn(_) => true
    case TaskTurn(i, _) => i < |w.tasks| && PcFits(w.tasks[i].cmd, w.tasks[i].pc)
    case Foreign(m) => !IsWorkers(m.kind) && RowOk(m, w.db.movements)
    case TablesChange(_) => true
  }

  ghost function After(w: World, e: Happening): World
    requires Possible(w, e)
  {
    match e
    case Spawn(cmd) => w.(tasks := w.tasks + [Task(cmd, Initial(cmd), [])])
    case TaskTurn(i, a) =>
      var task := w.tasks[i];
      var (pc, db) := Turn(task.cmd, task.pc, w.db, a);
      World(w.tasks[i := Task(task.cmd, pc, task.heard + [a])], db)
    case Foreign(m) => w.(db := w.db.(movements := w.db.movements + [m]))
    case TablesChange(t) => w.(db := w.db.(tables := t))
  }

  ghost predicate WorldOk(w: World) {
    DbOk(w.db) && forall i :: 0 <= i < |w.tasks| ==> LocalOk(w.tasks[i].cmd, w.tasks[i].pc, w.db.movements)
  }

  lemma EventKeepsDbOk(w: World, e: Happening)
    requires WorldOk(w) && Possible(w, e)
    ensures DbOk(After(w, e).db) && w.db.movements <= After(w, e).db.movements
    ensures e.TaskTurn? ==> LocalOk(w.tasks[e.i].cmd, After(w, e).tasks[e.i].pc, After(w, e).db.movements)
  {
    match e {
      case TaskTurn(i, a) => TurnKeepsOk(w.tasks[i].cmd, w.tasks[i].pc, w.db, a);
      case Foreign(m) => AppendRow(w.db.movements, m);
      case _ =>
    }
  }

  lemma EventKeepsWorldOk(w: World, e: Happening)
    requires WorldOk(w) && Possible(w, e)
    ensures WorldOk(After(w, e)) && w.db.movements <= After(w, e).db.movements
  {
    var w' := After(w, e);
    EventKeepsDbOk(w, e);
    forall i | 0 <= i < |w'.tasks| ensures LocalOk(w'.tasks[i].cmd, w'.tasks[i].pc, w'.db.movements) {
      if i < |w.tasks| && w'.tasks[i] == w.tasks[i] {
        LaterRowsKeepLocalOk(w.tasks[i].cmd, w.tasks[i].pc, w.db.movements, w'.db.movements);
      }
    }
  }

  ghost predicate Leads(w: World, history: seq<Happening>, w': World)
    decreases |history|
  {
    if history == [] then w == w'
    else Possible(w, history[0]) && Leads(After(w, history[0]), history[1..], w')
  }

  /** Over every history the ledger rules hold, rows are only added, and no task ever disappears. */
  lemma {:induction false} HistorySafety(w: World, history: seq<Happening>, w': World)
    requires WorldOk(w) && Leads(w, history, w')
    ensures WorldOk(w') && w.db.movements <= w'.db.movements && |w.tasks| <= |w'.tasks|
    ensures forall i :: 0 <= i < |w.tasks| ==> w'.tasks[i].cmd == w.tasks[i].cmd
    ensures forall i :: 0 <= i < |w.tasks| && w.tasks[i].pc.Replied? ==> w'.tasks[i].pc == w.tasks[i].pc
    decreases |history|
  {
    if history != [] {
      EventKeepsWorldOk(w, history[0]);
      HistorySafety(After(w, history[0]), history[1..], w');
    }
  }

  function EmptyLedger(t: Tables): World {
    World([], Db(t, [], [], []))
  }

  /**
    Every ledger that any interleaving of commands, other writers and session changes can reach:
    undo rows pair off with recorded rows of the same item, shop and day inside the window, no row
    is compensated twice, balances are the movements that stand, and each worker movement has its
    one audit row and its one outbox row.
   */
  lemma ReachableLedger(t: Tables, history: seq<Happening>, w: World)
    requires Leads(EmptyLedger(t), history, w)
    ensures
      var ms := w.db.movements;
      && (forall i, j :: 0 <= i < |ms| && 0 <= j < |ms| && IsUndo(ms[i].kind) ==>
            (exists o :: o in ms[..i] && Undoes(ms[i], o)) && (ms[j].compensates == ms[i].compensates ==> i == j))
      && (forall item :: Balance(ms, item) == Standing(ms, item, Undone(ms)))
      && Payloads(w.db.audits) == WorkerRows(ms) == Payloads(w.db.outbox)
  {
    HistorySafety(EmptyLedger(t), history, w);
    var ms := w.db.movements;
    forall i, j | 0 <= i < |ms| && 0 <= j < |ms| && IsUndo(ms[i].kind)
      ensures (exists o :: o in ms[..i] && Undoes(ms[i], o)) && (ms[j].compensates == ms[i].compensates ==> i == j)
    {
      CompensatedAtMostOnce(ms, i, j);
    }
    forall item ensures Balance(ms, item) == Standing(ms, item, Undone(ms)) { BalanceIsStanding(ms, item); }
  }

  /** All successful replies under one command ID are the same reply. */
  lemma OneReplyPerCommandId(w: World, i: nat, j: nat)
    requires WorldOk(w) && i < |w.tasks| && j < |w.tasks|
    requires w.tasks[i].pc.Replied? && w.tasks[i].pc.reply.Done? && w.tasks[j].pc.Replied? && w.tasks[j].pc.reply.Done?
    requires !w.tasks[i].cmd.Session? && !w.tasks[j].cmd.Session? && w.tasks[i].cmd.commandId == w.tasks[j].cmd.commandId
    ensures w.tasks[i].pc.reply == w.tasks[j].pc.reply
  {
    var a, b := w.tasks[i].pc.reply.movement, w.tasks[j].pc.reply.movement;
    assert LocalOk(w.tasks[i].cmd, w.tasks[i].pc, w.db.movements) && LocalOk(w.tasks[j].cmd, w.tasks[j].pc, w.db.movements);
    IdsAreUnique(w.db.movements, a, b);
  }

  /**
    Idempotent replay. Once a command has succeeded, whatever runs afterwards, a command under the
    same ID that resolves the same shop and day, under any operator, gets the recorded reply if it
    is the same command and a conflict if it is another, and it changes no row.
   */
  lemma ReplayIsIdempotent(w: World, i: nat, history: seq<Happening>, w': World, j: nat, a: Answer)
    requires WorldOk(w) && Leads(w, history, w')
    requires i < |w.tasks| && w.tasks[i].pc.Replied? && w.tasks[i].pc.reply.Done?
    requires j < |w'.tasks| && w'.tasks[j].pc.AskExisting? && !a.fault
    requires !w'.tasks[j].cmd.Session? && !w.tasks[i].cmd.Session? && w'.tasks[j].cmd.commandId == w.tasks[i].cmd.commandId
    requires w'.tasks[j].pc.ctx.shop == w.tasks[i].pc.reply.movement.shop
    requires Some(w'.tasks[j].pc.ctx.day) == w.tasks[i].pc.reply.movement.day
    ensures Possible(w', TaskTurn(j, a))
    ensures
      var w'' := After(w', TaskTurn(j, a));
      && w''.db == w'.db
      && w''.tasks[j].pc == Replied(if Matches(w'.tasks[j].cmd, w.tasks[i].pc.reply.movement)
                                    then w.tasks[i].pc.reply else ConflictError)
  {
    HistorySafety(w, history, w');
    var m := w.tasks[i].pc.reply.movement;
    assert LocalOk(w.tasks[i].cmd, w.tasks[i].pc, w.db.movements);
    assert LocalOk(w'.tasks[j].cmd, w'.tasks[j].pc, w'.db.movements);
    assert m in w'.db.movements;
    FindIsTheRow(w'.db.movements, m);
  }

  /**
    A command ID that is in the ledger never writes again, wherever its tasks stand: no movement,
    audit or outbox row.
   */
  lemma KnownIdWritesNothing(w: World, i: nat, a: Answer, m: Movement)
    requires WorldOk(w) && i < |w.tasks| && m in w.db.movements && !w.tasks[i].cmd.Session?
    requires w.tasks[i].cmd.commandId == Some(m.id)
    ensures Possible(w, TaskTurn(i, a)) && After(w, TaskTurn(i, a)).db == w.db
  {
    assert LocalOk(w.tasks[i].cmd, w.tasks[i].pc, w.db.movements);
  }

  // ---- through the coordinator ---------------------------------------------------------------

  datatype System = System(queue: Q.QueueState, tasks: seq<Task>, db: Db)

  datatype SysStep = Submit(cmd: Command) | Begin(r: nat) | Hear(r: nat, a: Answer) | End(r: nat, threw: bool)

  predicate Enabled(s: System, step: SysStep)
    requires |s.tasks| == |s.queue.runs|
  {
    match step
    case Submit(_) => true
    case Begin(r) => Q.Enabled(s.queue, Q.Start(r))
    case Hear(r, _) => r < |s.tasks| && s.queue.runs[r].phase.Running? && !s.tasks[r].pc.Replied?
    case End(r, threw) => Q.Enabled(s.queue, Q.Finish(r, threw)) && s.tasks[r].pc.Replied?
  }

  ghost predicate Shaped(s: System) {
    && |s.tasks| == |s.queue.runs| && Q.Inv(s.queue)
    && forall i :: 0 <= i < |s.tasks| ==> PcFits(s.tasks[i].cmd, s.tasks[i].pc)
  }

  ghost function Apply(s: System, step: SysStep): System
    requires Shaped(s) && Enabled(s, step)
  {
    match step
    case Submit(cmd) => s.(queue := Q.Apply(s.queue, Q.Arrive), tasks := s.tasks + [Task(cmd, Initial(cmd), [])])
    case Begin(r) => s.(queue := Q.Apply(s.queue, Q.Start(r)))
    case Hear(r, a) =>
      var task := s.tasks[r];
      var (pc, db) := Turn(task.cmd, task.pc, s.db, a);
      s.(tasks := s.tasks[r := Task(task.cmd, pc, task.heard + [a])], db := db)
    case End(r, threw) => s.(queue := Q.Apply(s.queue, Q.Finish(r, threw)))
  }

  /** What a command does alone: all its turns, none after the one that replied. */
  ghost function Commands(): S.Discipline<Task, Db> {
    S.Discipline(
      (task: Task, db: Db) => Replay(task.cmd, task.heard, db).1,
      (task: Task, db: Db) => StandsAsAlone(task, db),
      (task: Task) => task.pc.Replied?,
      (task: Task) => NotYet(task))
  }

  /** The ledger after the first `n` commands, run one at a time in arrival order. */
  ghost function Serial(db: Db, tasks: seq<Task>, n: nat): Db
    requires n <= |tasks|
  {
    S.Serial(Commands(), db, tasks, n)
  }

  predicate StandsAsAlone(task: Task, db: Db) {
    && Replay(task.cmd, task.heard, db).0 == task.pc
    && (task.heard != [] ==> !Replay(task.cmd, task.heard[..|task.heard| - 1], db).0.Replied?)
  }

  predicate NotYet(task: Task) {
    task.pc == Initial(task.cmd) && task.heard == []
  }

  lemma CommandsAreSound()
    ensures S.Sound(Commands())
  {
    forall t, d | Commands().untouched(t) ensures Commands().alone(t, d) && Commands().after(t, d) == d {
      NotYetStandsAsAlone(t, d);
    }
  }

  lemma NotYetStandsAsAlone(task: Task, db: Db)
    requires NotYet(task)
    ensures StandsAsAlone(task, db) && Replay(task.cmd, task.heard, db).1 == db
  {
  }

  ghost predicate Sequential(s: System, db0: Db) {
    var e := Q.EndedCount(s.queue);
    && Shaped(s) && S.OneAtATime(Commands(), db0, s.tasks, s.db, e)
    && (e < |s.tasks| && s.queue.runs[e].phase.Waiting? ==> NotYet(s.tasks[e]))
  }

  /** One more turn of a command that runs alone. */
  lemma TurnAlone(task: Task, before: Db, db: Db, a: Answer)
    requires StandsAsAlone(task, before) && db == Replay(task.cmd, task.heard, before).1
    requires PcFits(task.cmd, task.pc) && !task.pc.Replied?
    ensures
      var (pc, db') := Turn(task.cmd, task.pc, db, a);
      var next := Task(task.cmd, pc, task.heard + [a]);
      StandsAsAlone(next, before) && db' == Replay(next.cmd, next.heard, before).1
  {
    assert (task.heard + [a])[..|task.heard|] == task.heard;
  }

  lemma QueueArrives(queue: Q.QueueState)
    requires Q.Inv(queue)
    ensures Q.Inv(Q.Apply(queue, Q.Arrive)) && Q.EndedCount(Q.Apply(queue, Q.Arrive)) == Q.EndedCount(queue)
  {
    Q.StepKeepsInv(queue, Q.Arrive);
    Q.EndedIs(Q.Apply(queue, Q.Arrive), Q.EndedCount(queue));
  }

  lemma QueueStarts(queue: Q.QueueState, r: nat)
    requires Q.Inv(queue) && Q.Enabled(queue, Q.Start(r))
    ensures Q.Inv(Q.Apply(queue, Q.Start(r))) && Q.EndedCount(Q.Apply(queue, Q.Start(r))) == Q.EndedCount(queue) == r
  {
    Q.StepKeepsInv(queue, Q.Start(r));
    Q.EndedIs(Q.Apply(queue, Q.Start(r)), Q.EndedCount(queue));
  }

  lemma QueueEnds(queue: Q.QueueState, r: nat, threw: bool)
    requires Q.Inv(queue) && Q.Enabled(queue, Q.Finish(r, threw))
    ensures Q.EndedCount(queue) == r && Q.EndedCount(Q.Apply(queue, Q.Finish(r, threw))) == r + 1
    ensures Q.Inv(Q.Apply(queue, Q.Finish(r, threw)))
  {
    Q.StepKeepsInv(queue, Q.Finish(r, threw));
    assert forall i :: r < i < |queue.runs| ==> queue.runs[i].phase.Waiting?;
    Q.EndedIs(Q.Apply(queue, Q.Finish(r, threw)), r + 1);
  }

  lemma SubmitKeepsShape(s: System, cmd: Command)
    requires Shaped(s)
    ensures Shaped(Apply(s, Submit(cmd))) && Q.EndedCount(Apply(s, Submit(cmd)).queue) == Q.EndedCount(s.queue)
    ensures Apply(s, Submit(cmd)).tasks == s.tasks + [Task(cmd, Initial(cmd), [])] && Apply(s, Submit(cmd)).db == s.db
    ensures forall i :: 0 <= i < |s.tasks| ==> Apply(s, Submit(cmd)).queue.runs[i] == s.queue.runs[i]
  {
    QueueArrives(s.queue);
  }

  lemma SubmitKeepsSequential(s: System, db0: Db, cmd: Command)
    requires Sequential(s, db0)
    ensures Sequential(Apply(s, Submit(cmd)), db0)
  {
    SubmitKeepsShape(s, cmd);
    TaskJoins(s.tasks, s.db, Q.EndedCount(s.queue), db0, Task(cmd, Initial(cmd), []));
  }

  lemma TaskJoins(tasks: seq<Task>, db: Db, e: nat, db0: Db, task: Task)
    requires S.OneAtATime(Commands(), db0, tasks, db, e) && NotYet(task)
    ensures S.OneAtATime(Commands(), db0, tasks + [task], db, e)
  {
    CommandsAreSound();
    S.Joins(Commands(), db0, tasks, db, e, task);
  }

  lemma BeginKeepsSequential(s: System, db0: Db, r: nat)
    requires Sequential(s, db0) && Enabled(s, Begin(r))
    ensures Sequential(Apply(s, Begin(r)), db0)
  {
    QueueStarts(s.queue, r);
  }

  lemma HearKeepsSequential(s: System, db0: Db, r: nat, a: Answer)
    requires Sequential(s, db0) && Enabled(s, Hear(r, a))
    ensures Sequential(Apply(s, Hear(r, a)), db0)
  {
    assert r == Q.EndedCount(s.queue);
    var t := Apply(s, Hear(r, a));
    TurnAlone(s.tasks[r], Serial(db0, s.tasks, r), s.db, a);
    S.Continues(Commands(), db0, s.tasks, s.db, r, t.tasks[r]);
  }

  lemma EndKeepsSequential(s: System, db0: Db, r: nat, threw: bool)
    requires Sequential(s, db0) && Enabled(s, End(r, threw))
    ensures Sequential(Apply(s, End(r, threw)), db0)
  {
    QueueEnds(s.queue, r, threw);
    CommandsAreSound();
    S.Ends(Commands(), db0, s.tasks, s.db, r);
    assert r + 1 < |s.tasks| ==> Commands().untouched(s.tasks[r + 1]);
  }

  ghost predicate SysLeads(s: System, run: seq<SysStep>, t: System)
    requires Shaped(s)
    decreases |run|
  {
    if run == [] then s == t
    else Enabled(s, run[0]) && Shaped(Apply(s, run[0])) && SysLeads(Apply(s, run[0]), run[1..], t)
  }

  lemma {:induction false} RunKeepsSequential(s: System, db0: Db, run: seq<SysStep>, t: System)
    requires Sequential(s, db0) && SysLeads(s, run, t)
    ensures Sequential(t, db0)
    decreases |run|
  {
    if run != [] {
      match run[0] {
        case Submit(cmd) => SubmitKeepsSequential(s, db0, cmd);
        case Begin(r) => BeginKeepsSequential(s, db0, r);
        case Hear(r, a) => HearKeepsSequential(s, db0, r, a);
        case End(r, threw) => EndKeepsSequential(s, db0, r, threw);
      }
      RunKeepsSequential(Apply(s, run[0]), db0, run[1..], t);
    }
  }

  function Empty(db: Db): System {
    System(Q.INIT, [], db)
  }

  /**
    Linearizability. However the turns of queued commands, operator and day changes included, are
    scheduled, every reply given so far is the reply of running the commands one at a time in
    arrival order, and when all have ended so is the ledger.
   */
  lemma Linearizable(db: Db, run: seq<SysStep>, t: System)
    requires SysLeads(Empty(db), run, t)
    ensures Shaped(t) && Q.EndedCount(t.queue) <= |t.tasks|
    ensures forall i :: 0 <= i < Q.EndedCount(t.queue) ==>
              t.tasks[i].pc.Replied? && t.tasks[i].pc == Replay(t.tasks[i].cmd, t.tasks[i].heard, Serial(db, t.tasks, i)).0
    ensures Q.EndedCount(t.queue) == |t.tasks| ==> t.db == Serial(db, t.tasks, |t.tasks|)
  {
    RunKeepsSequential(Empty(db), db, run, t);
    forall i | 0 <= i < Q.EndedCount(t.queue)
      ensures t.tasks[i].pc == Replay(t.tasks[i].cmd, t.tasks[i].heard, Serial(db, t.tasks, i)).0
    {
      assert Commands().alone(t.tasks[i], Serial(db, t.tasks, i)) && Commands().replied(t.tasks[i]);
    }
  }

  lemma {:induction false} ReplayKeepsOk(cmd: Command, heard: seq<Answer>, db: Db)
    requires DbOk(db)
    ensures
      var (pc, db') := Replay(cmd, heard, db);
      DbOk(db') && db.movements <= db'.movements && LocalOk(cmd, pc, db'.movements)
  {
    if heard != [] {
      var n := |heard| - 1;
      ReplayKeepsOk(cmd, heard[..n], db);
      var before := Replay(cmd, heard[..n], db);
      TurnKeepsOk(cmd, before.0, before.1, heard[n]);
    }
  }

  lemma {:induction false} SerialKeepsOk(db: Db, tasks: seq<Task>, n: nat)
    requires DbOk(db) && n <= |tasks|
    ensures DbOk(Serial(db, tasks, n))
  {
    if n > 0 {
      SerialKeepsOk(db, tasks, n - 1);
      ReplayKeepsOk(tasks[n - 1].cmd, tasks[n - 1].heard, Serial(db, tasks, n - 1));
    }
  }

  /**
    A ledger command with no store fault takes effect in one piece at its place in the queue, and
    the commit guards for a changed day, operator, item or compensation never refuse it.
   */
  lemma LinearizationPoint(db: Db, run: seq<SysStep>, t: System, i: nat)
    requires DbOk(db) && SysLeads(Empty(db), run, t) && Shaped(t)
    requires i < Q.EndedCount(t.queue) && !t.tasks[i].cmd.Session? && NoFaults(t.tasks[i].heard)
    ensures
      var task := t.tasks[i];
      var ids := IdsHeard(task.cmd, task.heard);
      && task.pc.Replied?
      && (task.pc.reply, Serial(db, t.tasks, i + 1))
         == Atomically(task.cmd, Serial(db, t.tasks, i), NowHeard(task.cmd, task.heard), ids.0, ids.1)
  {
    RunKeepsSequential(Empty(db), db, run, t);
    assert Commands().alone(t.tasks[i], Serial(db, t.tasks, i)) && Commands().replied(t.tasks[i]);
    SerialKeepsOk(db, t.tasks, i);
    AloneIsAtomic(t.tasks[i].cmd, t.tasks[i].heard, Serial(db, t.tasks, i));
  }

  /**
    What a queued ledger command with no store fault does, said without the service's own notions:
    the whole effect promised for it, from the ledger that the commands before it leave.
   */
  lemma QueuedEffect(db: Db, run: seq<SysStep>, t: System, i: nat)
    requires DbOk(db) && SysLeads(Empty(db), run, t) && Shaped(t)
    requires i < Q.EndedCount(t.queue) && !t.tasks[i].cmd.Session? && NoFaults(t.tasks[i].heard)
    ensures
      var task := t.tasks[i];
      var ids := IdsHeard(task.cmd, task.heard);
      && task.pc.Replied?
      && Effect(task.cmd, Serial(db, t.tasks, i), NowHeard(task.cmd, task.heard), ids.0, ids.1, task.pc.reply, Serial(db, t.tasks, i + 1))
  {
    var task := t.tasks[i];
    var ids := IdsHeard(task.cmd, task.heard);
    LinearizationPoint(db, run, t, i);
    SerialKeepsOk(db, t.tasks, i);
    AtomicallyHasEffect(task.cmd, Serial(db, t.tasks, i), NowHeard(task.cmd, task.heard), ids.0, ids.1);
  }
}
