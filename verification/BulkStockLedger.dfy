/** The Bulk Stock domain rules and the device-local tables that hold the movement ledger. */
module BulkStockLedger {
  import opened Wrappers

  type Id = string

  const UNDO_WINDOW_MS := 8_000
  const SCALE := 1_000_000
  const MAX_SAFE := 9_007_199_254_740_991

  datatype MovementType =
    | UnitFinished
    | StockReceived
    | UndoUnitFinished
    | UndoStockReceived
    | AdminAdjustment
    | OrderMovement

  datatype Movement = Movement(
    id: Id,
    shop: Id,
    day: Option<Id>,
    item: Id,
    kind: MovementType,
    delta: int,
    key: string,
    worker: Option<Id>,
    createdAt: int,
    compensates: Option<Id>)

  // ---- domain rules --------------------------------------------------------------------------

  predicate IsBulk(kind: MovementType) {
    !kind.OrderMovement?
  }

  predicate IsUndo(kind: MovementType) {
    kind.UndoUnitFinished? || kind.UndoStockReceived?
  }

  /** A movement a worker records directly; the only kind that can be undone. */
  predicate IsRecorded(kind: MovementType) {
    kind.UnitFinished? || kind.StockReceived?
  }

  predicate IsWorkers(kind: MovementType) {
    IsRecorded(kind) || IsUndo(kind)
  }

  /** `units` is `None` for a number that is not an integer. */
  function ReceivedDelta(units: Option<int>): Option<int> {
    if units.Some? && 0 < units.value && units.value * SCALE <= MAX_SAFE then Some(units.value * SCALE) else None
  }

  function UndoType(kind: MovementType): MovementType
    requires IsRecorded(kind)
  {
    if kind.UnitFinished? then UndoUnitFinished else UndoStockReceived
  }

  predicate InUndoWindow(createdAt: int, now: int) {
    0 <= now - createdAt <= UNDO_WINDOW_MS
  }

  predicate CanUndo(original: Movement, now: int, compensated: bool) {
    !compensated && IsRecorded(original.kind) && InUndoWindow(original.createdAt, now)
  }

  function BulkKey(id: Id): string {
    "bulk-stock:" + id
  }

  // ---- tables --------------------------------------------------------------------------------

  datatype Worker = Worker(shop: Id, active: bool)
  datatype Item = Item(shop: Id, bulkManual: bool, active: bool)

  /**
    What the session side of the device keeps. Unique indexes allow one open day per shop and one
    open session per day, so both are maps.
   */
  datatype Tables = Tables(
    activeShops: seq<Id>,
    openDay: map<Id, Id>,
    openSession: map<Id, Id>,
    workers: map<Id, Worker>,
    items: map<Id, Item>)

  /** A row of `audit_events` or `outbox_events`; its payload repeats the movement. */
  datatype Event = Event(id: Id, movement: Movement)

  datatype Db = Db(tables: Tables, movements: seq<Movement>, audits: seq<Event>, outbox: seq<Event>)

  datatype Commit = Commit(
    expectedDay: Id,
    expectedWorker: Id,
    expectedShop: Id,
    movement: Movement,
    expectedCompensated: Option<Id>,
    auditId: Id,
    outboxId: Id)

  function FindById(ms: seq<Movement>, id: Id): (r: Option<Movement>)
    ensures r.None? <==> forall m :: m in ms ==> m.id != id
    ensures r.Some? ==> r.value in ms && r.value.id == id
  {
    if ms == [] then None
    else if ms[0].id == id then Some(ms[0])
    else FindById(ms[1..], id)
  }

  predicate HasCompensation(ms: seq<Movement>, id: Id) {
    exists m :: m in ms && m.compensates == Some(id)
  }

  predicate HasEvent(events: seq<Event>, id: Id) {
    exists e :: e in events && e.id == id
  }

  predicate CurrentItem(t: Tables, shop: Id, item: Id) {
    item in t.items && t.items[item] == Item(shop, true, true)
  }

  predicate ContextHolds(t: Tables, c: Commit) {
    && c.expectedShop in t.openDay && t.openDay[c.expectedShop] == c.expectedDay
    && c.movement.shop == c.expectedShop && c.movement.day == Some(c.expectedDay)
    && c.expectedDay in t.openSession && t.openSession[c.expectedDay] == c.expectedWorker
  }

  predicate CompensationHolds(ms: seq<Movement>, c: Commit) {
    && c.movement.compensates == c.expectedCompensated
    && (c.expectedCompensated.Some? ==>
          var original := FindById(ms, c.expectedCompensated.value);
          && original.Some?
          && original.value.shop == c.expectedShop && original.value.day == Some(c.expectedDay)
          && original.value.item == c.movement.item && IsRecorded(original.value.kind)
          && !HasCompensation(ms, c.expectedCompensated.value))
  }

  /** Primary keys and the unique (shop, idempotency key) index. */
  predicate KeysFree(db: Db, c: Commit) {
    && (forall m :: m in db.movements ==>
          m.id != c.movement.id && !(m.shop == c.movement.shop && m.key == c.movement.key))
    && !HasEvent(db.audits, c.auditId) && !HasEvent(db.outbox, c.outboxId)
  }

  predicate Commits(db: Db, c: Commit) {
    && ContextHolds(db.tables, c)
    && CurrentItem(db.tables, c.expectedShop, c.movement.item)
    && CompensationHolds(db.movements, c)
    && KeysFree(db, c)
  }

  /** One immediate transaction: all three rows, or none. */
  function CommitMovement(db: Db, c: Commit): Option<Db> {
    if Commits(db, c) then
      Some(db.(movements := db.movements + [c.movement],
               audits := db.audits + [Event(c.auditId, c.movement)],
               outbox := db.outbox + [Event(c.outboxId, c.movement)]))
    else None
  }

  // ---- the ledger invariant ------------------------------------------------------------------

  ghost predicate Undoes(u: Movement, o: Movement) {
    && IsRecorded(o.kind) && u.kind == UndoType(o.kind)
    && u.compensates == Some(o.id) && u.delta == -o.delta
    && u.item == o.item && u.shop == o.shop && u.day == o.day
    && InUndoWindow(o.createdAt, u.createdAt)
  }

  /** What each row promises about the rows before it. */
  ghost predicate RowOk(m: Movement, before: seq<Movement>) {
    && (forall p :: p in before ==> p.id != m.id)
    && (IsWorkers(m.kind) ==> m.key == BulkKey(m.id) && m.day.Some? && m.worker.Some?)
    && (forall id :: m.key == BulkKey(id) ==> m.id == id)
    && match m.kind
       case UnitFinished => m.delta == -SCALE && m.compensates.None?
       case StockReceived => 0 < m.delta && m.delta % SCALE == 0 && m.compensates.None?
       case UndoUnitFinished => (exists o :: o in before && Undoes(m, o)) && !HasCompensation(before, m.compensates.value)
       case UndoStockReceived => (exists o :: o in before && Undoes(m, o)) && !HasCompensation(before, m.compensates.value)
       case AdminAdjustment => m.compensates.None?
       case OrderMovement => m.compensates.Some? ==> exists o :: o in before && o.id == m.compensates.value && o.kind.OrderMovement?
  }

  ghost predicate LedgerOk(ms: seq<Movement>) {
    forall i :: 0 <= i < |ms| ==> RowOk(ms[i], ms[..i])
  }

  function WorkerRows(ms: seq<Movement>): seq<Movement> {
    if ms == [] then []
    else
      var last := ms[|ms| - 1];
      WorkerRows(ms[..|ms| - 1]) + if IsWorkers(last.kind) then [last] else []
  }

  function Payloads(events: seq<Event>): seq<Movement> {
    seq(|events|, i requires 0 <= i < |events| => events[i].movement)
  }

  /** Every worker movement has exactly one audit row and one outbox row, in commit order. */
  ghost predicate DbOk(db: Db) {
    LedgerOk(db.movements) && Payloads(db.audits) == WorkerRows(db.movements) == Payloads(db.outbox)
  }

  lemma AppendRow(ms: seq<Movement>, m: Movement)
    requires LedgerOk(ms) && RowOk(m, ms)
    ensures LedgerOk(ms + [m])
    ensures WorkerRows(ms + [m]) == WorkerRows(ms) + if IsWorkers(m.kind) then [m] else []
  {
    var t := ms + [m];
    assert t[..|ms|] == ms;
    forall i | 0 <= i < |t| ensures RowOk(t[i], t[..i]) {
      if i < |ms| { assert t[..i] == ms[..i]; assert RowOk(ms[i], ms[..i]); }
    }
  }

  lemma LedgerPrefix(ms: seq<Movement>, n: nat)
    requires LedgerOk(ms) && n <= |ms|
    ensures LedgerOk(ms[..n])
  {
    forall i | 0 <= i < n ensures RowOk(ms[..n][i], ms[..n][..i]) {
      assert ms[..n][..i] == ms[..i] && RowOk(ms[i], ms[..i]);
    }
  }

  ghost predicate UniqueIds(ms: seq<Movement>) {
    forall i, j :: 0 <= i < j < |ms| ==> ms[i].id != ms[j].id
  }

  lemma LedgerHasUniqueIds(ms: seq<Movement>)
    requires LedgerOk(ms)
    ensures UniqueIds(ms)
  {
    forall i, j | 0 <= i < j < |ms| ensures ms[i].id != ms[j].id {
      assert RowOk(ms[j], ms[..j]) && ms[i] in ms[..j];
    }
  }

  lemma IdsAreUnique(ms: seq<Movement>, a: Movement, b: Movement)
    requires LedgerOk(ms) && a in ms && b in ms && a.id == b.id
    ensures a == b
  {
    LedgerHasUniqueIds(ms);
  }

  lemma FindIsTheRow(ms: seq<Movement>, m: Movement)
    requires LedgerOk(ms) && m in ms
    ensures FindById(ms, m.id) == Some(m)
  {
    var found := FindById(ms, m.id);
    assert found.Some?;
    IdsAreUnique(ms, found.value, m);
  }

  lemma UndoHasOriginal(ms: seq<Movement>, i: nat) returns (o: Movement)
    requires LedgerOk(ms) && i < |ms| && IsUndo(ms[i].kind)
    ensures o in ms[..i] && Undoes(ms[i], o)
    ensures !HasCompensation(ms[..i], ms[i].compensates.value)
  {
    assert RowOk(ms[i], ms[..i]);
    o :| o in ms[..i] && Undoes(ms[i], o);
  }

  lemma NoLaterCompensation(ms: seq<Movement>, i: nat, j: nat)
    requires LedgerOk(ms) && i < j < |ms| && IsUndo(ms[i].kind)
    ensures ms[j].compensates != ms[i].compensates
  {
    var o := UndoHasOriginal(ms, i);
    assert RowOk(ms[j], ms[..j]) && ms[i] in ms[..j];
    if ms[j].kind.OrderMovement? && ms[j].compensates.Some? {
      var p :| p in ms[..j] && p.id == ms[j].compensates.value && p.kind.OrderMovement?;
      if p.id == o.id { IdsAreUnique(ms, o, p); }
    }
  }

  /**
    Compensation over every ledger: an undo row cancels one earlier recorded row of the same item,
    shop and day inside the undo window, and nothing else ever compensates that row.
   */
  lemma CompensatedAtMostOnce(ms: seq<Movement>, i: nat, j: nat)
    requires LedgerOk(ms) && i < |ms| && j < |ms| && IsUndo(ms[i].kind)
    ensures exists o :: o in ms[..i] && Undoes(ms[i], o)
    ensures ms[j].compensates == ms[i].compensates ==> i == j
  {
    var o := UndoHasOriginal(ms, i);
    if i < j { NoLaterCompensation(ms, i, j); }
    if j < i { assert ms[j] in ms[..i]; }
  }

  // ---- balances ------------------------------------------------------------------------------

  function Balance(ms: seq<Movement>, item: Id): int {
    if ms == [] then 0
    else
      var last := ms[|ms| - 1];
      Balance(ms[..|ms| - 1], item) + if last.item == item && IsBulk(last.kind) then last.delta else 0
  }

  ghost function Undone(ms: seq<Movement>): set<Id> {
    set m | m in ms && IsUndo(m.kind) && m.compensates.Some? :: m.compensates.value
  }

  /** The sum of the movements that stand: neither undo rows nor rows that were undone. */
  ghost function Standing(ms: seq<Movement>, item: Id, undone: set<Id>): int {
    if ms == [] then 0
    else
      var last := ms[|ms| - 1];
      Standing(ms[..|ms| - 1], item, undone) +
      if last.item == item && IsBulk(last.kind) && !IsUndo(last.kind) && last.id !in undone then last.delta else 0
  }

  lemma {:induction false} StandingUnaffected(ms: seq<Movement>, item: Id, undone: set<Id>, id: Id)
    requires forall m :: m in ms ==> m.id != id
    ensures Standing(ms, item, undone + {id}) == Standing(ms, item, undone)
  {
    if ms != [] {
      assert ms[|ms| - 1] in ms;
      StandingUnaffected(ms[..|ms| - 1], item, undone, id);
    }
  }

  lemma {:induction false} StandingWithout(ms: seq<Movement>, item: Id, undone: set<Id>, o: Movement)
    requires UniqueIds(ms) && o in ms && IsRecorded(o.kind) && o.id !in undone
    ensures Standing(ms, item, undone + {o.id}) == Standing(ms, item, undone) - if o.item == item then o.delta else 0
  {
    var n := |ms| - 1;
    var i :| 0 <= i <= n && ms[i] == o;
    if i == n {
      StandingUnaffected(ms[..n], item, undone, o.id);
    } else {
      assert ms[..n][i] == o && ms[n].id != o.id;
      StandingWithout(ms[..n], item, undone, o);
    }
  }

  lemma StandingWithUndo(before: seq<Movement>, item: Id, u: Movement)
    requires LedgerOk(before) && RowOk(u, before) && IsUndo(u.kind)
    ensures Standing(before + [u], item, Undone(before + [u]))
         == Standing(before, item, Undone(before)) + if u.item == item then u.delta else 0
  {
    var o :| o in before && Undoes(u, o);
    UndoAdds(before, u, o);
    LedgerHasUniqueIds(before);
    StandingWithout(before, item, Undone(before), o);
    assert (before + [u])[..|before|] == before;
  }

  lemma StandingWithOther(before: seq<Movement>, item: Id, m: Movement)
    requires LedgerOk(before) && RowOk(m, before) && !IsUndo(m.kind)
    ensures Standing(before + [m], item, Undone(before + [m]))
         == Standing(before, item, Undone(before)) + if m.item == item && IsBulk(m.kind) then m.delta else 0
  {
    var ms := before + [m];
    assert Undone(ms) == Undone(before);
    assert m.id !in Undone(before) by { UndoneAreRows(before); }
    assert ms[..|before|] == before;
  }

  /** An item's balance is the sum of the movements that stand. */
  lemma {:induction false} BalanceIsStanding(ms: seq<Movement>, item: Id)
    requires LedgerOk(ms)
    ensures Balance(ms, item) == Standing(ms, item, Undone(ms))
  {
    if ms != [] {
      var n := |ms| - 1;
      LedgerPrefix(ms, n);
      BalanceIsStanding(ms[..n], item);
      assert RowOk(ms[n], ms[..n]);
      assert ms == ms[..n] + [ms[n]];
      if IsUndo(ms[n].kind) { StandingWithUndo(ms[..n], item, ms[n]); } else { StandingWithOther(ms[..n], item, ms[n]); }
    }
  }

  lemma UndoAdds(before: seq<Movement>, u: Movement, o: Movement)
    requires LedgerOk(before) && RowOk(u, before) && o in before && Undoes(u, o)
    ensures o.id !in Undone(before)
    ensures Undone(before + [u]) == Undone(before) + {o.id}
  {
    var ms := before + [u];
    assert u in ms && ms[..|before|] == before;
    forall id ensures id in Undone(ms) <==> id in Undone(before) || id == o.id {
      if id in Undone(before) {
        var m :| m in before && IsUndo(m.kind) && m.compensates == Some(id);
        assert m in ms;
      }
    }
    assert !HasCompensation(before, o.id);
  }

  lemma UndoneIsRow(ms: seq<Movement>, m: Movement)
    requires LedgerOk(ms) && m in ms && IsUndo(m.kind)
    ensures exists o :: o in ms && Some(o.id) == m.compensates
  {
    var i :| 0 <= i < |ms| && ms[i] == m;
    assert RowOk(ms[i], ms[..i]);
    var o :| o in ms[..i] && Undoes(m, o);
    assert o in ms;
  }

  lemma UndoneAreRows(ms: seq<Movement>)
    requires LedgerOk(ms)
    ensures forall id :: id in Undone(ms) ==> exists o :: o in ms && o.id == id
  {
    forall id | id in Undone(ms) ensures exists o :: o in ms && o.id == id {
      var m :| m in ms && IsUndo(m.kind) && m.compensates == Some(id);
      UndoneIsRow(ms, m);
    }
  }
}
