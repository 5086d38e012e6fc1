/**
  The Bulk Stock commands and what each of them does to the ledger, said in terms of the tables and
  of literal amounts, apart from how the service goes about it.
 */
module BulkStockCommands {
  import opened Wrappers
  import opened BulkStockLedger

  /**
    `commandId` is `None` when the trimmed text is not a UUID. `Session` is any operator or day
    change: its turns rewrite the session tables arbitrarily and leave the ledger alone.
   */
  datatype Command =
    | FinishOne(item: Id, commandId: Option<Id>)
    | AddStock(item: Id, commandId: Option<Id>, units: Option<int>)
    | Undo(target: Id, commandId: Option<Id>)
    | Session

  datatype Reply =
    | Done(movement: Movement, undoUntil: Option<int>)
    | ConflictError
    | ValidationError
    | PersistenceError
    | SessionReply

  datatype Context = Context(shop: Id, day: Id, worker: Id)

  /** The device has one active shop, with an open day, and an open session of an active worker of the shop. */
  predicate SignedIn(t: Tables, ctx: Context) {
    && t.activeShops == [ctx.shop]
    && ctx.shop in t.openDay && t.openDay[ctx.shop] == ctx.day
    && ctx.day in t.openSession && t.openSession[ctx.day] == ctx.worker
    && ctx.worker in t.workers && t.workers[ctx.worker].shop == ctx.shop && t.workers[ctx.worker].active
  }

  predicate Trackable(t: Tables, shop: Id, item: Id) {
    item in t.items && t.items[item].shop == shop && t.items[item].bulkManual && t.items[item].active
  }

  /** The movement is what the command would record in this shop and day: same kind, and same item or target. */
  predicate IsReplayOf(cmd: Command, ctx: Context, m: Movement) {
    && m.shop == ctx.shop && m.day == Some(ctx.day)
    && match cmd
       case FinishOne(item, _) => m.item == item && m.kind == UnitFinished
       case AddStock(item, _, _) => m.item == item && m.kind == StockReceived
       case Undo(target, _) => m.compensates == Some(target) && (m.kind == UndoUnitFinished || m.kind == UndoStockReceived)
       case Session => false
  }

  /** The original can be undone now: recorded in this shop and day, at most eight seconds ago, and not compensated. */
  predicate Undoable(db: Db, ctx: Context, target: Id, now: int, o: Movement) {
    && o in db.movements && o.id == target && o.shop == ctx.shop && o.day == Some(ctx.day)
    && (o.kind == UnitFinished || o.kind == StockReceived)
    && o.createdAt <= now <= o.createdAt + 8_000
    && (forall m :: m in db.movements ==> m.compensates != Some(target))
  }

  predicate UnitsFit(units: Option<int>) {
    units.Some? && 0 < units.value && units.value * 1_000_000 <= 9_007_199_254_740_991
  }

  /** The movement that a command records. */
  ghost predicate Records(cmd: Command, db: Db, ctx: Context, now: int, m: Movement) {
    && cmd.Session? == false && cmd.commandId == Some(m.id) && m.shop == ctx.shop && m.day == Some(ctx.day)
    && m.worker == Some(ctx.worker) && m.createdAt == now && m.key == "bulk-stock:" + m.id
    && match cmd
       case FinishOne(item, _) => m.item == item && m.kind == UnitFinished && m.delta == -1_000_000 && m.compensates == None
       case AddStock(item, _, units) =>
         UnitsFit(units) && m.item == item && m.kind == StockReceived && m.delta == units.value * 1_000_000 && m.compensates == None
       case Undo(target, _) =>
         exists o :: Undoable(db, ctx, target, now, o) && m.item == o.item && m.delta == -o.delta && m.compensates == Some(target)
                     && m.kind == if o.kind == UnitFinished then UndoUnitFinished else UndoStockReceived
       case Session => false
  }

  /** Until when the recorded movement can be undone, as the reply says it. */
  function Deadline(cmd: Command, createdAt: int): Option<int> {
    if cmd.Undo? then None else Some(createdAt + 8_000)
  }

  ghost predicate HasUndoable(cmd: Command, db: Db, ctx: Context, now: int) {
    cmd.Undo? ==> exists o :: Undoable(db, ctx, cmd.target, now, o)
  }

  /** The item is one the shop tracks, and the number of units can be added. */
  ghost predicate Valid(cmd: Command, db: Db, ctx: Context, now: int) {
    match cmd
    case FinishOne(item, _) => Trackable(db.tables, ctx.shop, item)
    case AddStock(item, _, units) => Trackable(db.tables, ctx.shop, item) && UnitsFit(units)
    case Undo(target, _) => forall o :: Undoable(db, ctx, target, now, o) ==> Trackable(db.tables, ctx.shop, o.item)
    case Session => false
  }

  predicate Unclashed(db: Db, auditId: Id, outboxId: Id) {
    && (forall e :: e in db.audits ==> e.id != auditId)
    && (forall e :: e in db.outbox ==> e.id != outboxId)
  }

  /** What a command with a fresh ID does for a signed-in worker: it records, or it says why not. */
  ghost predicate FreshEffect(cmd: Command, db: Db, ctx: Context, now: int, auditId: Id, outboxId: Id, reply: Reply, db': Db) {
    if !HasUndoable(cmd, db, ctx, now) then reply == ConflictError && db' == db
    else if !Valid(cmd, db, ctx, now) then reply == ValidationError && db' == db
    else if !Unclashed(db, auditId, outboxId) then reply == PersistenceError && db' == db
    else
      && reply.Done? && Records(cmd, db, ctx, now, reply.movement) && reply.undoUntil == Deadline(cmd, now)
      && db' == Db(db.tables, db.movements + [reply.movement],
                   db.audits + [Event(auditId, reply.movement)], db.outbox + [Event(outboxId, reply.movement)])
  }

  /** What a command whose ID is that of movement `m` does: nothing; it gets `m` again, or a conflict. */
  ghost predicate ReplayEffect(cmd: Command, db: Db, ctx: Context, m: Movement, reply: Reply, db': Db) {
    db' == db && reply == if IsReplayOf(cmd, ctx, m) then Done(m, Deadline(cmd, m.createdAt)) else ConflictError
  }

  /** The whole effect of a command: its reply, and the ledger after it. */
  ghost predicate Effect(cmd: Command, db: Db, now: int, auditId: Id, outboxId: Id, reply: Reply, db': Db) {
    && ((forall ctx :: !SignedIn(db.tables, ctx)) ==> reply == ConflictError && db' == db)
    && (forall ctx :: SignedIn(db.tables, ctx) ==> EffectFor(cmd, db, ctx, now, auditId, outboxId, reply, db'))
  }

  ghost predicate EffectFor(cmd: Command, db: Db, ctx: Context, now: int, auditId: Id, outboxId: Id, reply: Reply, db': Db) {
    if cmd.Session? || cmd.commandId.None? then reply == ValidationError && db' == db
    else
      && (forall m :: m in db.movements && m.id == cmd.commandId.value ==> ReplayEffect(cmd, db, ctx, m, reply, db'))
      && ((forall m :: m in db.movements ==> m.id != cmd.commandId.value) ==>
            FreshEffect(cmd, db, ctx, now, auditId, outboxId, reply, db'))
  }

  // ---- balances ------------------------------------------------------------------------------

  lemma BalanceAppend(ms: seq<Movement>, m: Movement, item: Id)
    ensures Balance(ms + [m], item) == Balance(ms, item) + if m.item == item && m.kind != OrderMovement then m.delta else 0
  {
    assert (ms + [m])[..|ms|] == ms;
  }

  lemma {:induction false} BalanceSplit(a: seq<Movement>, b: seq<Movement>, item: Id)
    ensures Balance(a + b, item) == Balance(a, item) + Balance(b, item)
  {
    if b == [] {
      assert a + b == a;
    } else {
      var n := |b| - 1;
      BalanceSplit(a, b[..n], item);
      assert a + b == (a + b[..n]) + [b[n]] && b == b[..n] + [b[n]];
      BalanceAppend(a + b[..n], b[n], item);
      BalanceAppend(b[..n], b[n], item);
    }
  }

  /**
    What an accepted command does to the balances: finishing one takes a unit of its item away, a
    receipt of n units adds n units, an undo leaves each balance as if its original had never been
    recorded; no other item's balance moves.
   */
  lemma EffectOnBalance(cmd: Command, db: Db, ctx: Context, now: int, auditId: Id, outboxId: Id, reply: Reply, db': Db, item: Id)
    requires FreshEffect(cmd, db, ctx, now, auditId, outboxId, reply, db') && reply.Done?
    ensures cmd.FinishOne? ==> Balance(db'.movements, item) == Balance(db.movements, item) - if item == cmd.item then 1_000_000 else 0
    ensures cmd.AddStock? ==>
      cmd.units.Some? && Balance(db'.movements, item)
                      == Balance(db.movements, item) + if item == cmd.item then cmd.units.value * 1_000_000 else 0
    ensures cmd.Undo? ==> exists i :: 0 <= i < |db.movements| && db.movements[i].id == cmd.target
                           && Balance(db'.movements, item) == Balance(db.movements[..i] + db.movements[i + 1..], item)
  {
    BalanceAppend(db.movements, reply.movement, item);
    if cmd.Undo? {
      var o :| Undoable(db, ctx, cmd.target, now, o) && reply.movement.item == o.item && reply.movement.delta == -o.delta;
      var i :| 0 <= i < |db.movements| && db.movements[i] == o;
      BalanceWithout(db.movements, i, item);
    }
  }

  lemma BalanceWithout(ms: seq<Movement>, i: nat, item: Id)
    requires i < |ms|
    ensures Balance(ms, item) == Balance(ms[..i] + ms[i + 1..], item)
                               + if ms[i].item == item && ms[i].kind != OrderMovement then ms[i].delta else 0
  {
    assert ms == (ms[..i] + [ms[i]]) + ms[i + 1..];
    BalanceSplit(ms[..i] + [ms[i]], ms[i + 1..], item);
    BalanceAppend(ms[..i], ms[i], item);
    BalanceSplit(ms[..i], ms[i + 1..], item);
  }
}
