/**
  The Bulk Stock commands, split where the service awaits its store. `Turn` is what happens
  between two awaits; it may interleave with anything. `Atomically` is the command in one piece.
 */
module BulkStockService {
  import opened Wrappers
  import opened BulkStockLedger
  import opened BulkStockCommands

  /** The pending await of a command, with what it has read so far. */
  datatype Pc =
    | AskShops
    | AskDay(shop: Id)
    | AskSession(shop: Id, day: Id)
    | AskWorker(ctx: Context)
    | AskExisting(ctx: Context)
    | AskOriginal(ctx: Context)
    | AskCompensated(ctx: Context, original: Movement)
    | AskItems(ctx: Context, undoing: Option<(Movement, int)>)
    | AskCommit(ctx: Context, commit: Commit)
    | ChangeSession
    | Replied(reply: Reply)

  /**
    What one turn may hear from outside: whether the pending store call throws, the clock, two
    fresh UUIDs, and for a session command the new tables and whether it goes on.
   */
  datatype Answer = Answer(fault: bool, now: int, auditId: Id, outboxId: Id, tables: Tables, more: bool)

  function Initial(cmd: Command): Pc {
    if cmd.Session? then ChangeSession else AskShops
  }

  function UndoUntil(cmd: Command, createdAt: int): Option<int> {
    if cmd.Undo? then None else Some(createdAt + UNDO_WINDOW_MS)
  }

  function ItemOf(cmd: Command, undoing: Option<(Movement, int)>): Id {
    match cmd
    case FinishOne(item, _) => item
    case AddStock(item, _, _) => item
    case _ => if undoing.Some? then undoing.value.0.item else ""
  }

  /** `#idempotentExisting` and its counterpart in `undoMovement`. */
  function Existing(cmd: Command, ctx: Context, m: Movement): Reply
    requires !cmd.Session?
  {
    var same :=
      && m.shop == ctx.shop && m.day == Some(ctx.day)
      && match cmd
         case FinishOne(item, _) => m.item == item && m.kind.UnitFinished?
         case AddStock(item, _, _) => m.item == item && m.kind.StockReceived?
         case Undo(target, _) => m.compensates == Some(target) && IsUndo(m.kind);
    if same then Done(m, UndoUntil(cmd, m.createdAt)) else ConflictError
  }

  /** The movement a command records, or `None` when the domain rejects it. */
  function Draft(cmd: Command, ctx: Context, undoing: Option<(Movement, int)>, now: int): Option<Movement>
    requires !cmd.Session? && cmd.commandId.Some?
    requires cmd.Undo? <==> undoing.Some?
    requires undoing.Some? ==> IsRecorded(undoing.value.0.kind)
  {
    var id := cmd.commandId.value;
    var row := (item, kind, delta, at, compensates) =>
      Movement(id, ctx.shop, Some(ctx.day), item, kind, delta, BulkKey(id), Some(ctx.worker), at, compensates);
    match cmd
    case FinishOne(item, _) => Some(row(item, UnitFinished, -SCALE, now, None))
    case AddStock(item, _, units) =>
      var delta := ReceivedDelta(units);
      if delta.None? then None else Some(row(item, StockReceived, delta.value, now, None))
    case Undo(_, _) =>
      var (o, at) := undoing.value;
      Some(row(o.item, UndoType(o.kind), -o.delta, at, Some(o.id)))
  }

  /** The program counters a command can stand at. */
  ghost predicate PcFits(cmd: Command, pc: Pc) {
    && (cmd.Session? <==> pc.ChangeSession? || pc == Replied(SessionReply))
    && (pc.AskExisting? || pc.AskOriginal? || pc.AskCompensated? || pc.AskItems? || pc.AskCommit? ==> cmd.commandId.Some?)
    && (pc.AskOriginal? || pc.AskCompensated? ==> cmd.Undo?)
    && (pc.AskItems? ==> (cmd.Undo? <==> pc.undoing.Some?) && (pc.undoing.Some? ==> IsRecorded(pc.undoing.value.0.kind)))
  }

  /** One turn: the pending store call answers, and the code runs to its next await. */
  function Turn(cmd: Command, pc: Pc, db: Db, a: Answer): (r: (Pc, Db))
    requires PcFits(cmd, pc)
    ensures PcFits(cmd, r.0)
  {
    if pc.Replied? then (pc, db)
    else if pc.ChangeSession? then
      if a.fault then (Replied(SessionReply), db)
      else (if a.more then ChangeSession else Replied(SessionReply), db.(tables := a.tables))
    else if a.fault then (Replied(PersistenceError), db)
    else
      var t := db.tables;
      match pc
      case AskShops =>
        (if |t.activeShops| == 1 then AskDay(t.activeShops[0]) else Replied(ConflictError), db)
      case AskDay(shop) =>
        (if shop in t.openDay then AskSession(shop, t.openDay[shop]) else Replied(ConflictError), db)
      case AskSession(shop, day) =>
        (if day in t.openSession then AskWorker(Context(shop, day, t.openSession[day])) else Replied(ConflictError), db)
      case AskWorker(ctx) =>
        (if !(ctx.worker in t.workers && t.workers[ctx.worker] == Worker(ctx.shop, true)) then Replied(ConflictError)
         else if cmd.commandId.None? then Replied(ValidationError)
         else AskExisting(ctx), db)
      case AskExisting(ctx) =>
        var existing := FindById(db.movements, cmd.commandId.value);
        (if existing.Some? then Replied(Existing(cmd, ctx, existing.value))
         else if cmd.Undo? then AskOriginal(ctx)
         else AskItems(ctx, None), db)
      case AskOriginal(ctx) =>
        var original := FindById(db.movements, cmd.target);
        (if original.Some? && original.value.shop == ctx.shop && original.value.day == Some(ctx.day)
         then AskCompensated(ctx, original.value) else Replied(ConflictError), db)
      case AskCompensated(ctx, original) =>
        (if CanUndo(original, a.now, HasCompensation(db.movements, original.id))
         then AskItems(ctx, Some((original, a.now))) else Replied(ConflictError), db)
      case AskItems(ctx, undoing) =>
        var draft := Draft(cmd, ctx, undoing, a.now);
        (if !CurrentItem(t, ctx.shop, ItemOf(cmd, undoing)) || draft.None? then Replied(ValidationError)
         else AskCommit(ctx, Commit(ctx.day, ctx.worker, ctx.shop, draft.value,
                                    if undoing.Some? then Some(undoing.value.0.id) else None,
                                    a.auditId, a.outboxId)), db)
      case AskCommit(ctx, commit) =>
        var after := CommitMovement(db, commit);
        if after.None? then (Replied(PersistenceError), db)
        else (Replied(Done(commit.movement, UndoUntil(cmd, commit.movement.createdAt))), after.value)
  }

  // ---- the command in one piece ---------------------------------------------------------------

  function ResolveContext(t: Tables): Option<Context> {
    if |t.activeShops| != 1 then None
    else
      var shop := t.activeShops[0];
      if shop !in t.openDay || t.openDay[shop] !in t.openSession then None
      else
        var worker := t.openSession[t.openDay[shop]];
        if worker in t.workers && t.workers[worker] == Worker(shop, true)
        then Some(Context(shop, t.openDay[shop], worker)) else None
  }

  function Record(db: Db, m: Movement, auditId: Id, outboxId: Id): Db {
    db.(movements := db.movements + [m],
        audits := db.audits + [Event(auditId, m)],
        outbox := db.outbox + [Event(outboxId, m)])
  }

  /**
    A command that nothing interrupts: it commits without looking again at the day, the operator,
    the item or the compensation it has just read.
   */
  function Atomically(cmd: Command, db: Db, now: int, auditId: Id, outboxId: Id): (Reply, Db)
    requires !cmd.Session?
  {
    var context := ResolveContext(db.tables);
    if context.None? then (ConflictError, db)
    else if cmd.commandId.None? then (ValidationError, db)
    else
      var ctx := context.value;
      var existing := FindById(db.movements, cmd.commandId.value);
      if existing.Some? then (Existing(cmd, ctx, existing.value), db)
      else
        var original := if cmd.Undo? then FindById(db.movements, cmd.target) else None;
        if cmd.Undo? && !(original.Some? && original.value.shop == ctx.shop && original.value.day == Some(ctx.day)
                          && CanUndo(original.value, now, HasCompensation(db.movements, original.value.id)))
        then (ConflictError, db)
        else
          var undoing := if cmd.Undo? then Some((original.value, now)) else None;
          var draft := Draft(cmd, ctx, undoing, now);
          if !CurrentItem(db.tables, ctx.shop, ItemOf(cmd, undoing)) || draft.None? then (ValidationError, db)
          else if HasEvent(db.audits, auditId) || HasEvent(db.outbox, outboxId) then (PersistenceError, db)
          else (Done(draft.value, UndoUntil(cmd, draft.value.createdAt)), Record(db, draft.value, auditId, outboxId))
  }

  /** All turns of one command on its own, hearing the given answers. */
  function Replay(cmd: Command, heard: seq<Answer>, db: Db): (r: (Pc, Db))
    ensures PcFits(cmd, r.0)
  {
    if heard == [] then (Initial(cmd), db)
    else
      var n := |heard| - 1;
      var before := Replay(cmd, heard[..n], db);
      Turn(cmd, before.0, before.1, heard[n])
  }

  /** The clock reading a command uses: an undo reads it before it lists the items, the others after. */
  function NowHeard(cmd: Command, heard: seq<Answer>): int {
    var at := if cmd.Undo? then 6 else 5;
    if at < |heard| then heard[at].now else 0
  }

  function IdsHeard(cmd: Command, heard: seq<Answer>): (Id, Id) {
    var at := if cmd.Undo? then 7 else 5;
    if at < |heard| then (heard[at].auditId, heard[at].outboxId) else ("", "")
  }

  /** Where an uninterrupted command stands: its reads are those of the one-piece command. */
  ghost predicate OnTrack(cmd: Command, db0: Db, heard: seq<Answer>, pc: Pc, db: Db)
    requires !cmd.Session? && PcFits(cmd, pc)
  {
    var t := db0.tables;
    var context := ResolveContext(t);
    var now := NowHeard(cmd, heard);
    var ids := IdsHeard(cmd, heard);
    if pc.Replied? then (pc.reply, db) == Atomically(cmd, db0, now, ids.0, ids.1)
    else
      && db == db0
      && (pc.AskExisting? || pc.AskOriginal? || pc.AskCompensated? || pc.AskItems? || pc.AskCommit? ==> context == Some(pc.ctx))
      && (pc.AskOriginal? || pc.AskCompensated? || pc.AskItems? || pc.AskCommit? ==>
            FindById(db0.movements, cmd.commandId.value).None?)
      && match pc
         case AskShops => |heard| == 0
         case AskDay(shop) => |heard| == 1 && t.activeShops == [shop]
         case AskSession(shop, day) => |heard| == 2 && t.activeShops == [shop] && shop in t.openDay && t.openDay[shop] == day
         case AskWorker(ctx) =>
           |heard| == 3 && t.activeShops == [ctx.shop] && ctx.shop in t.openDay && t.openDay[ctx.shop] == ctx.day
           && ctx.day in t.openSession && t.openSession[ctx.day] == ctx.worker
         case AskExisting(_) => |heard| == 4
         case AskOriginal(_) => |heard| == 5
         case AskCompensated(ctx, o) => |heard| == 6 && OriginalRead(cmd, db0, ctx, o)
         case AskItems(ctx, undoing) =>
           if undoing.None? then |heard| == 5
           else |heard| == 7 && undoing.value.1 == now && OriginalRead(cmd, db0, ctx, undoing.value.0)
                && CanUndo(undoing.value.0, now, HasCompensation(db0.movements, undoing.value.0.id))
         case AskCommit(ctx, c) =>
           && |heard| == (if cmd.Undo? then 8 else 6)
           && c == Commit(ctx.day, ctx.worker, ctx.shop, c.movement, c.movement.compensates, ids.0, ids.1)
           && CurrentItem(t, ctx.shop, c.movement.item)
           && (cmd.Undo? ==>
                 var o := FindById(db0.movements, cmd.target);
                 && o.Some? && OriginalRead(cmd, db0, ctx, o.value)
                 && CanUndo(o.value, now, HasCompensation(db0.movements, o.value.id)))
           && Draft(cmd, ctx, if cmd.Undo? then Some((FindById(db0.movements, cmd.target).value, now)) else None, now) == Some(c.movement)
         case _ => false
  }

  predicate OriginalRead(cmd: Command, db: Db, ctx: Context, o: Movement)
    requires cmd.Undo?
  {
    FindById(db.movements, cmd.target) == Some(o) && o.shop == ctx.shop && o.day == Some(ctx.day)
  }

  /** What a command has made sure of when it hands a commit to the store, however long ago. */
  ghost predicate CommitSound(cmd: Command, ctx: Context, c: Commit, ms: seq<Movement>) {
    var m := c.movement;
    && !cmd.Session? && cmd.commandId.Some? && m.id == cmd.commandId.value && m.key == BulkKey(m.id)
    && c == Commit(ctx.day, ctx.worker, ctx.shop, m, m.compensates, c.auditId, c.outboxId)
    && m.shop == ctx.shop && m.day == Some(ctx.day) && m.worker == Some(ctx.worker)
    && match cmd
       case FinishOne(item, _) => m.item == item && m.kind.UnitFinished? && m.delta == -SCALE && m.compensates.None?
       case AddStock(item, _, _) =>
         m.item == item && m.kind.StockReceived? && 0 < m.delta && m.delta % SCALE == 0 && m.compensates.None?
       case Undo(target, _) => m.compensates == Some(target) && exists o :: o in ms && Undoes(m, o)
       case Session => false
  }

  lemma DraftIsSound(cmd: Command, ctx: Context, undoing: Option<(Movement, int)>, now: int, c: Commit, ms: seq<Movement>)
    requires !cmd.Session? && PcFits(cmd, AskItems(ctx, undoing)) && Draft(cmd, ctx, undoing, now).Some?
    requires undoing.Some? ==> var (o, at) := undoing.value; o in ms && o.id == cmd.target && o.shop == ctx.shop
                                                             && o.day == Some(ctx.day) && InUndoWindow(o.createdAt, at)
    requires c == Commit(ctx.day, ctx.worker, ctx.shop, Draft(cmd, ctx, undoing, now).value,
                         if undoing.Some? then Some(undoing.value.0.id) else None, c.auditId, c.outboxId)
    ensures CommitSound(cmd, ctx, c, ms)
  {
    if undoing.Some? { assert Undoes(c.movement, undoing.value.0); }
  }

  lemma BulkKeyInjective(a: Id, b: Id)
    requires BulkKey(a) == BulkKey(b)
    ensures a == b
  {
    assert BulkKey(a)[|"bulk-stock:"|..] == a && BulkKey(b)[|"bulk-stock:"|..] == b;
  }

  lemma CommitIsRow(cmd: Command, ctx: Context, db: Db, c: Commit)
    requires CommitSound(cmd, ctx, c, db.movements) && Commits(db, c)
    ensures RowOk(c.movement, db.movements)
  {
    var m := c.movement;
    forall id | m.key == BulkKey(id) ensures m.id == id { BulkKeyInjective(m.id, id); }
  }

  /** A sound commit that the store accepts keeps the ledger in order. */
  lemma CommitKeepsDbOk(cmd: Command, ctx: Context, db: Db, c: Commit)
    requires DbOk(db) && CommitSound(cmd, ctx, c, db.movements) && Commits(db, c)
    ensures CommitMovement(db, c) == Some(Record(db, c.movement, c.auditId, c.outboxId))
    ensures DbOk(Record(db, c.movement, c.auditId, c.outboxId))
  {
    CommitIsRow(cmd, ctx, db, c);
    RecordKeepsDbOk(db, c.movement, c.auditId, c.outboxId);
  }

  lemma RecordKeepsDbOk(db: Db, m: Movement, auditId: Id, outboxId: Id)
    requires DbOk(db) && RowOk(m, db.movements) && IsWorkers(m.kind)
    ensures DbOk(Record(db, m, auditId, outboxId))
  {
    AppendRow(db.movements, m);
    assert Payloads(db.audits + [Event(auditId, m)]) == Payloads(db.audits) + [m];
    assert Payloads(db.outbox + [Event(outboxId, m)]) == Payloads(db.outbox) + [m];
  }

  /**
    Uninterrupted, the guards of the commit never fail: the only refusal left is a clash of the
    fresh UUIDs.
   */
  lemma GuardsHoldAlone(cmd: Command, ctx: Context, db: Db, c: Commit)
    requires DbOk(db) && CommitSound(cmd, ctx, c, db.movements)
    requires ResolveContext(db.tables) == Some(ctx) && CurrentItem(db.tables, ctx.shop, c.movement.item)
    requires FindById(db.movements, c.movement.id).None?
    requires cmd.Undo? ==> !HasCompensation(db.movements, cmd.target)
    ensures Commits(db, c) <==> !HasEvent(db.audits, c.auditId) && !HasEvent(db.outbox, c.outboxId)
  {
    var m := c.movement;
    forall r | r in db.movements ensures r.id != m.id && r.key != m.key {
      var i :| 0 <= i < |db.movements| && db.movements[i] == r;
      assert RowOk(r, db.movements[..i]);
    }
    if cmd.Undo? {
      var o :| o in db.movements && Undoes(m, o);
      FindIsTheRow(db.movements, o);
    }
  }

  lemma ContextTurnStaysOnTrack(cmd: Command, db: Db, heard: seq<Answer>, pc: Pc, a: Answer)
    requires !cmd.Session? && PcFits(cmd, pc) && !a.fault
    requires pc.AskShops? || pc.AskDay? || pc.AskSession? || pc.AskWorker?
    requires OnTrack(cmd, db, heard, pc, db)
    ensures OnTrack(cmd, db, heard + [a], Turn(cmd, pc, db, a).0, Turn(cmd, pc, db, a).1)
  {
  }

  lemma LookupTurnStaysOnTrack(cmd: Command, db: Db, heard: seq<Answer>, pc: Pc, a: Answer)
    requires !cmd.Session? && PcFits(cmd, pc) && !a.fault
    requires pc.AskExisting? || pc.AskOriginal?
    requires OnTrack(cmd, db, heard, pc, db)
    ensures OnTrack(cmd, db, heard + [a], Turn(cmd, pc, db, a).0, Turn(cmd, pc, db, a).1)
  {
  }

  lemma WindowTurnStaysOnTrack(cmd: Command, db: Db, heard: seq<Answer>, pc: Pc, a: Answer)
    requires !cmd.Session? && PcFits(cmd, pc) && !a.fault && pc.AskCompensated?
    requires OnTrack(cmd, db, heard, pc, db)
    ensures OnTrack(cmd, db, heard + [a], Turn(cmd, pc, db, a).0, Turn(cmd, pc, db, a).1)
  {
    assert (heard + [a])[6] == a;
  }

  lemma DraftTurnStaysOnTrack(cmd: Command, db: Db, heard: seq<Answer>, pc: Pc, a: Answer)
    requires !cmd.Session? && PcFits(cmd, pc) && !a.fault && pc.AskItems?
    requires OnTrack(cmd, db, heard, pc, db)
    ensures OnTrack(cmd, db, heard + [a], Turn(cmd, pc, db, a).0, Turn(cmd, pc, db, a).1)
  {
    var h := heard + [a];
    assert h[|heard|] == a;
    assert cmd.Undo? ==> h[6] == heard[6];
    assert IdsHeard(cmd, h) == (a.auditId, a.outboxId);
    assert NowHeard(cmd, h) == if cmd.Undo? then NowHeard(cmd, heard) else a.now;
  }

  lemma TrackedCommitIsSound(cmd: Command, db: Db, heard: seq<Answer>, pc: Pc)
    requires !cmd.Session? && DbOk(db) && PcFits(cmd, pc) && pc.AskCommit? && OnTrack(cmd, db, heard, pc, db)
    ensures Commits(db, pc.commit) <==> !HasEvent(db.audits, pc.commit.auditId) && !HasEvent(db.outbox, pc.commit.outboxId)
  {
    var now := NowHeard(cmd, heard);
    var undoing := if cmd.Undo? then Some((FindById(db.movements, cmd.target).value, now)) else None;
    DraftIsSound(cmd, pc.ctx, undoing, now, pc.commit, db.movements);
    GuardsHoldAlone(cmd, pc.ctx, db, pc.commit);
  }

  lemma CommitTurnStaysOnTrack(cmd: Command, db: Db, heard: seq<Answer>, pc: Pc, a: Answer)
    requires !cmd.Session? && DbOk(db) && PcFits(cmd, pc) && !a.fault && pc.AskCommit?
    requires OnTrack(cmd, db, heard, pc, db)
    ensures OnTrack(cmd, db, heard + [a], Turn(cmd, pc, db, a).0, Turn(cmd, pc, db, a).1)
  {
    TrackedCommitIsSound(cmd, db, heard, pc);
    var h := heard + [a];
    assert IdsHeard(cmd, h) == IdsHeard(cmd, heard) && NowHeard(cmd, h) == NowHeard(cmd, heard);
  }

  lemma TurnStaysOnTrack(cmd: Command, db0: Db, heard: seq<Answer>, pc: Pc, db: Db, a: Answer)
    requires !cmd.Session? && DbOk(db0) && PcFits(cmd, pc) && !a.fault && !pc.Replied?
    requires OnTrack(cmd, db0, heard, pc, db)
    ensures OnTrack(cmd, db0, heard + [a], Turn(cmd, pc, db, a).0, Turn(cmd, pc, db, a).1)
  {
    match pc
    case AskExisting(_) => LookupTurnStaysOnTrack(cmd, db, heard, pc, a);
    case AskOriginal(_) => LookupTurnStaysOnTrack(cmd, db, heard, pc, a);
    case AskCompensated(_, _) => WindowTurnStaysOnTrack(cmd, db, heard, pc, a);
    case AskItems(_, _) => DraftTurnStaysOnTrack(cmd, db, heard, pc, a);
    case AskCommit(_, _) => CommitTurnStaysOnTrack(cmd, db, heard, pc, a);
    case _ => ContextTurnStaysOnTrack(cmd, db, heard, pc, a);
  }

  ghost predicate NoFaults(heard: seq<Answer>) {
    forall a :: a in heard ==> !a.fault
  }

  lemma RepliedStays(cmd: Command, heard: seq<Answer>, db: Db)
    requires heard != [] && Replay(cmd, heard[..|heard| - 1], db).0.Replied?
    ensures Replay(cmd, heard, db) == Replay(cmd, heard[..|heard| - 1], db)
  {
  }

  // ---- the one-piece command has the effect that is promised ---------------------------------

  lemma ContextIsSignedIn(t: Tables, ctx: Context)
    ensures ResolveContext(t) == Some(ctx) <==> SignedIn(t, ctx)
  {
    if ResolveContext(t) == Some(ctx) { assert t.activeShops == [ctx.shop]; }
  }

  lemma DraftRecords(cmd: Command, db: Db, ctx: Context, undoing: Option<(Movement, int)>, now: int)
    requires !cmd.Session? && cmd.commandId.Some? && (cmd.Undo? <==> undoing.Some?)
    requires undoing.Some? ==> undoing.value.1 == now && Undoable(db, ctx, cmd.target, now, undoing.value.0)
    ensures cmd.AddStock? ==> (Draft(cmd, ctx, undoing, now).Some? <==> UnitsFit(cmd.units))
    ensures !cmd.AddStock? ==> Draft(cmd, ctx, undoing, now).Some?
    ensures Draft(cmd, ctx, undoing, now).Some? ==> Records(cmd, db, ctx, now, Draft(cmd, ctx, undoing, now).value)
  {
  }

  lemma UndoableIsFound(db: Db, ctx: Context, target: Id, now: int)
    requires DbOk(db)
    ensures
      var o := FindById(db.movements, target);
      (o.Some? && o.value.shop == ctx.shop && o.value.day == Some(ctx.day) && CanUndo(o.value, now, HasCompensation(db.movements, o.value.id)))
        <==> (exists x :: Undoable(db, ctx, target, now, x))
    ensures forall x :: Undoable(db, ctx, target, now, x) ==> FindById(db.movements, target) == Some(x)
  {
    forall x | Undoable(db, ctx, target, now, x) ensures FindById(db.movements, target) == Some(x) { FindIsTheRow(db.movements, x); }
    var o := FindById(db.movements, target);
    if o.Some? && o.value.shop == ctx.shop && o.value.day == Some(ctx.day) && CanUndo(o.value, now, HasCompensation(db.movements, o.value.id)) {
      assert Undoable(db, ctx, target, now, o.value);
    }
  }

  lemma FreshUndo(cmd: Command, db: Db, ctx: Context, now: int, auditId: Id, outboxId: Id)
    requires DbOk(db) && cmd.Undo? && cmd.commandId.Some? && ResolveContext(db.tables) == Some(ctx)
    requires FindById(db.movements, cmd.commandId.value).None?
    ensures
      var (reply, db') := Atomically(cmd, db, now, auditId, outboxId);
      FreshEffect(cmd, db, ctx, now, auditId, outboxId, reply, db')
  {
    UndoableIsFound(db, ctx, cmd.target, now);
    var original := FindById(db.movements, cmd.target);
    if exists x :: Undoable(db, ctx, cmd.target, now, x) {
      FreshUndoOf(cmd, db, ctx, now, auditId, outboxId, original.value);
    }
  }

  lemma FreshUndoOf(cmd: Command, db: Db, ctx: Context, now: int, auditId: Id, outboxId: Id, o: Movement)
    requires cmd.Undo? && cmd.commandId.Some? && ResolveContext(db.tables) == Some(ctx)
    requires FindById(db.movements, cmd.commandId.value).None? && FindById(db.movements, cmd.target) == Some(o)
    requires Undoable(db, ctx, cmd.target, now, o) && forall x :: Undoable(db, ctx, cmd.target, now, x) ==> x == o
    ensures
      var (reply, db') := Atomically(cmd, db, now, auditId, outboxId);
      FreshEffect(cmd, db, ctx, now, auditId, outboxId, reply, db')
  {
    assert HasUndoable(cmd, db, ctx, now);
    assert Valid(cmd, db, ctx, now) <==> Trackable(db.tables, ctx.shop, o.item);
    DraftRecords(cmd, db, ctx, Some((o, now)), now);
  }

  lemma FreshRecord(cmd: Command, db: Db, ctx: Context, now: int, auditId: Id, outboxId: Id)
    requires DbOk(db) && (cmd.FinishOne? || cmd.AddStock?) && cmd.commandId.Some? && ResolveContext(db.tables) == Some(ctx)
    requires FindById(db.movements, cmd.commandId.value).None?
    ensures
      var (reply, db') := Atomically(cmd, db, now, auditId, outboxId);
      FreshEffect(cmd, db, ctx, now, auditId, outboxId, reply, db')
  {
    DraftRecords(cmd, db, ctx, None, now);
  }

  lemma KnownReplays(cmd: Command, db: Db, ctx: Context, now: int, auditId: Id, outboxId: Id, m: Movement)
    requires DbOk(db) && !cmd.Session? && cmd.commandId == Some(m.id) && m in db.movements && ResolveContext(db.tables) == Some(ctx)
    ensures
      var (reply, db') := Atomically(cmd, db, now, auditId, outboxId);
      ReplayEffect(cmd, db, ctx, m, reply, db')
  {
    FindIsTheRow(db.movements, m);
  }

  /** The one-piece command has exactly the effect promised for it. */
  lemma AtomicallyHasEffect(cmd: Command, db: Db, now: int, auditId: Id, outboxId: Id)
    requires DbOk(db) && !cmd.Session?
    ensures
      var (reply, db') := Atomically(cmd, db, now, auditId, outboxId);
      Effect(cmd, db, now, auditId, outboxId, reply, db')
  {
    var (reply, db') := Atomically(cmd, db, now, auditId, outboxId);
    if ResolveContext(db.tables).Some? {
      ContextIsSignedIn(db.tables, ResolveContext(db.tables).value);
    }
    forall ctx | SignedIn(db.tables, ctx) ensures EffectFor(cmd, db, ctx, now, auditId, outboxId, reply, db') {
      ContextIsSignedIn(db.tables, ctx);
      EffectWhenSignedIn(cmd, db, ctx, now, auditId, outboxId);
    }
  }

  lemma EffectWhenSignedIn(cmd: Command, db: Db, ctx: Context, now: int, auditId: Id, outboxId: Id)
    requires DbOk(db) && !cmd.Session? && ResolveContext(db.tables) == Some(ctx)
    ensures
      var (reply, db') := Atomically(cmd, db, now, auditId, outboxId);
      EffectFor(cmd, db, ctx, now, auditId, outboxId, reply, db')
  {
    var (reply, db') := Atomically(cmd, db, now, auditId, outboxId);
    if cmd.commandId.Some? {
      forall m | m in db.movements && m.id == cmd.commandId.value ensures ReplayEffect(cmd, db, ctx, m, reply, db') {
        KnownReplays(cmd, db, ctx, now, auditId, outboxId, m);
      }
      if FindById(db.movements, cmd.commandId.value).None? {
        if cmd.Undo? { FreshUndo(cmd, db, ctx, now, auditId, outboxId); } else { FreshRecord(cmd, db, ctx, now, auditId, outboxId); }
      }
    }
  }

  // ---- the object ----------------------------------------------------------------------------

  /** The service with its store. Each method is the body of one command, run exclusively. */
  class OperationsBulkStockService {
    var tables: Tables
    var movements: seq<Movement>
    var audits: seq<Event>
    var outbox: seq<Event>

    function State(): Db
      reads this
    {
      Db(tables, movements, audits, outbox)
    }

    constructor (tables: Tables)
      ensures State() == Db(tables, [], [], []) && DbOk(State())
    {
      this.tables := tables;
      movements, audits, outbox := [], [], [];
    }

    method CommitMovement(c: Commit) returns (committed: bool)
      modifies this`movements, this`audits, this`outbox
      ensures committed == Commits(old(State()), c)
      ensures State() == if committed then Record(old(State()), c.movement, c.auditId, c.outboxId) else old(State())
    {
      committed := Commits(State(), c);
      if committed {
        movements := movements + [c.movement];
        audits := audits + [Event(c.auditId, c.movement)];
        outbox := outbox + [Event(c.outboxId, c.movement)];
      }
    }

    /** `finishOne` and `addStock` after their arguments are parsed. */
    method RecordMovement(cmd: Command, now: int, auditId: Id, outboxId: Id) returns (reply: Reply)
      requires (cmd.FinishOne? || cmd.AddStock?) && DbOk(State())
      modifies this`movements, this`audits, this`outbox
      ensures (reply, State()) == Atomically(cmd, old(State()), now, auditId, outboxId) && DbOk(State())
      ensures Effect(cmd, old(State()), now, auditId, outboxId, reply, State())
    {
      AtomicallyHasEffect(cmd, State(), now, auditId, outboxId);
      var context := ResolveContext(tables);
      if context.None? { return ConflictError; }
      if cmd.commandId.None? { return ValidationError; }
      var existing := FindById(movements, cmd.commandId.value);
      if existing.Some? { return Existing(cmd, context.value, existing.value); }
      if !CurrentItem(tables, context.value.shop, cmd.item) { return ValidationError; }
      var draft := Draft(cmd, context.value, None, now);
      if draft.None? { return ValidationError; }
      reply := CommitDraft(cmd, context.value, None, now, Commit(context.value.day, context.value.worker, context.value.shop,
                                                                 draft.value, None, auditId, outboxId));
    }

    method UndoMovement(cmd: Command, now: int, auditId: Id, outboxId: Id) returns (reply: Reply)
      requires cmd.Undo? && DbOk(State())
      modifies this`movements, this`audits, this`outbox
      ensures (reply, State()) == Atomically(cmd, old(State()), now, auditId, outboxId) && DbOk(State())
      ensures Effect(cmd, old(State()), now, auditId, outboxId, reply, State())
    {
      AtomicallyHasEffect(cmd, State(), now, auditId, outboxId);
      var context := ResolveContext(tables);
      if context.None? { return ConflictError; }
      if cmd.commandId.None? { return ValidationError; }
      var ctx := context.value;
      var existing := FindById(movements, cmd.commandId.value);
      if existing.Some? { return Existing(cmd, ctx, existing.value); }
      var original := FindById(movements, cmd.target);
      if original.None? || original.value.shop != ctx.shop || original.value.day != Some(ctx.day) { return ConflictError; }
      if !CanUndo(original.value, now, HasCompensation(movements, original.value.id)) { return ConflictError; }
      if !CurrentItem(tables, ctx.shop, original.value.item) { return ValidationError; }
      var undoing := Some((original.value, now));
      reply := CommitDraft(cmd, ctx, undoing, now, Commit(ctx.day, ctx.worker, ctx.shop, Draft(cmd, ctx, undoing, now).value,
                                                          Some(original.value.id), auditId, outboxId));
    }

    /** The last step of every command: `#commit`, then the reply. */
    method CommitDraft(cmd: Command, ctx: Context, undoing: Option<(Movement, int)>, now: int, c: Commit) returns (reply: Reply)
      requires !cmd.Session? && PcFits(cmd, AskItems(ctx, undoing)) && Draft(cmd, ctx, undoing, now) == Some(c.movement)
      requires c == Commit(ctx.day, ctx.worker, ctx.shop, c.movement,
                           if undoing.Some? then Some(undoing.value.0.id) else None, c.auditId, c.outboxId)
      requires DbOk(State()) && ResolveContext(tables) == Some(ctx) && CurrentItem(tables, ctx.shop, c.movement.item)
      requires FindById(movements, c.movement.id).None?
      requires undoing.Some? ==> OriginalRead(cmd, State(), ctx, undoing.value.0)
                                 && CanUndo(undoing.value.0, undoing.value.1, HasCompensation(movements, undoing.value.0.id))
      modifies this`movements, this`audits, this`outbox
      ensures
        var clash := HasEvent(old(audits), c.auditId) || HasEvent(old(outbox), c.outboxId);
        && reply == (if clash then PersistenceError else Done(c.movement, UndoUntil(cmd, c.movement.createdAt)))
        && State() == (if clash then old(State()) else Record(old(State()), c.movement, c.auditId, c.outboxId))
      ensures DbOk(State())
    {
      DraftIsSound(cmd, ctx, undoing, now, c, movements);
      GuardsHoldAlone(cmd, ctx, State(), c);
      if Commits(State(), c) { CommitKeepsDbOk(cmd, ctx, State(), c); }
      var committed := CommitMovement(c);
      reply := if committed then Done(c.movement, UndoUntil(cmd, c.movement.createdAt)) else PersistenceError;
    }
  }
}
