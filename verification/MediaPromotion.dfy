/**
  Promotion of outbound media from the path that clients upload to onto the path that is sent.
  One media key is modelled: its quarantine object, its canonical object, any number of concurrent
  inspections, uploads by clients at any time, and storage calls that may fail before or after
  their effect. An inspection that crashes is one that takes no further step.
 */
module MediaPromotion {
  import opened Wrappers
  import opened Bytes
  import opened MediaPolicy
  import opened MediaStreams

  /** What the client declares about its upload. */
  datatype Declared = Declared(kind: Kind, mimeType: string, byteSize: int)

  datatype Inspected = Inspected(objectPath: string, prefix: seq<Byte>, byteSize: nat, sha256: string)

  /** The object paths of a media key, and the hash. */
  datatype Key = Key(quarantinePath: string, objectPath: string, digest: seq<Byte> -> string)

  datatype Store = Store(quarantine: Option<seq<Byte>>, canonical: Option<seq<Byte>>)

  /** An answered call, one that failed without effect, and one whose effect happened but whose answer was lost. */
  datatype Net = Answered | Failed | Lost

  datatype Stage =
    | AskQuarantine
    | AskCanonical
    | Promote(bytes: seq<Byte>)
    | Cleanup(bytes: seq<Byte>)
    | DropBad
    | Returned(bytes: seq<Byte>)
    | Threw

  /** The declared size is within the limit of its kind. */
  predicate Admissible(d: Declared) {
    0 <= d.byteSize <= Limit(d.kind)
  }

  /** Size and content are as declared. */
  ghost predicate Passes(d: Declared, bytes: seq<Byte>) {
    && |bytes| == d.byteSize && |bytes| <= Limit(d.kind)
    && ContentVerdict(d.kind, d.mimeType, |bytes|, Take(1_048_576, bytes)).VALID?
  }

  /** What the inspection reports about the content it returns with. */
  function Report(key: Key, bytes: seq<Byte>): Inspected {
    Inspected(key.objectPath, Take(1_048_576, bytes), |bytes|, key.digest(bytes))
  }

  // ---- one call ------------------------------------------------------------------------------

  /** After the body has been read; too long a body fails before the size is compared. */
  ghost function AfterRead(d: Declared, bytes: seq<Byte>, fromQuarantine: bool): Stage {
    if |bytes| > Limit(d.kind) then Threw
    else if !Passes(d, bytes) then if fromQuarantine then DropBad else Threw
    else if fromQuarantine then Promote(bytes)
    else Returned(bytes)
  }

  /** The next storage call of an inspection: its effect, and where the inspection is then. */
  ghost function Turn(d: Declared, store: Store, stage: Stage, net: Net): (Store, Stage) {
    match stage
    case AskQuarantine =>
      if !net.Answered? then (store, Threw)
      else if store.quarantine.None? then (store, AskCanonical)
      else (store, AfterRead(d, store.quarantine.value, true))
    case AskCanonical =>
      if !net.Answered? || store.canonical.None? then (store, Threw)
      else (store, AfterRead(d, store.canonical.value, false))
    case Promote(bytes) =>
      (if net.Failed? then store else store.(canonical := Some(bytes)), if net.Answered? then Cleanup(bytes) else Threw)
    case Cleanup(bytes) => (Delete(store, net), Returned(bytes))
    case DropBad => (Delete(store, net), Threw)
    case Returned(_) => (store, stage)
    case Threw => (store, stage)
  }

  /** Deletion of the quarantine object, best effort. */
  function Delete(store: Store, net: Net): Store {
    if net.Failed? then store else store.(quarantine := None)
  }

  // ---- all runs ------------------------------------------------------------------------------

  datatype Task = Task(declared: Declared, stage: Stage)

  /** `received` lists what was ever written to the canonical path. */
  datatype World = World(store: Store, tasks: seq<Task>, received: seq<seq<Byte>>)

  datatype Event = Arrive(declared: Declared) | Upload(bytes: seq<Byte>) | Step(i: nat, net: Net)

  const INIT := World(Store(None, None), [], [])

  ghost function After(w: World, e: Event): World {
    match e
    case Arrive(d) => w.(tasks := w.tasks + [Task(d, if Admissible(d) then AskQuarantine else Threw)])
    case Upload(bytes) => w.(store := w.store.(quarantine := Some(bytes)))
    case Step(i, net) =>
      if i >= |w.tasks| then w
      else
        var task := w.tasks[i];
        var (store, stage) := Turn(task.declared, w.store, task.stage, net);
        World(store, w.tasks[i := task.(stage := stage)],
              if task.stage.Promote? && !net.Failed? then w.received + [task.stage.bytes] else w.received)
  }

  ghost function Run(w: World, events: seq<Event>): World {
    if events == [] then w else After(Run(w, events[..|events| - 1]), events[|events| - 1])
  }

  ghost predicate TaskOk(t: Task, received: seq<seq<Byte>>) {
    && (t.stage.Promote? || t.stage.Cleanup? || t.stage.Returned? ==> Passes(t.declared, t.stage.bytes))
    && (t.stage.Cleanup? || t.stage.Returned? ==> t.stage.bytes in received)
  }

  ghost predicate Validated(bytes: seq<Byte>, tasks: seq<Task>) {
    exists i :: 0 <= i < |tasks| && Passes(tasks[i].declared, bytes)
  }

  /** What reaches the canonical path, what it holds and what is returned. */
  ghost predicate WorldOk(w: World) {
    && (forall i :: 0 <= i < |w.tasks| ==> TaskOk(w.tasks[i], w.received))
    && (forall bytes :: bytes in w.received ==> Validated(bytes, w.tasks))
    && (w.store.canonical.Some? <==> w.received != [])
    && (w.store.canonical.Some? ==> w.store.canonical.value == w.received[|w.received| - 1])
  }

  lemma TurnKeepsTaskOk(t: Task, store: Store, net: Net, received: seq<seq<Byte>>)
    requires TaskOk(t, received) && (store.canonical.Some? ==> store.canonical.value in received)
    ensures TaskOk(t.(stage := Turn(t.declared, store, t.stage, net).1),
                   if t.stage.Promote? && !net.Failed? then received + [t.stage.bytes] else received)
  {
  }

  lemma ValidatedStays(bytes: seq<Byte>, tasks: seq<Task>, tasks': seq<Task>)
    requires Validated(bytes, tasks) && |tasks| <= |tasks'|
    requires forall i :: 0 <= i < |tasks| ==> tasks'[i].declared == tasks[i].declared
    ensures Validated(bytes, tasks')
  {
    var i :| 0 <= i < |tasks| && Passes(tasks[i].declared, bytes);
    assert Passes(tasks'[i].declared, bytes);
  }

  lemma EventKeepsWorldOk(w: World, e: Event)
    requires WorldOk(w)
    ensures WorldOk(After(w, e))
  {
    var w' := After(w, e);
    if e.Step? && e.i < |w.tasks| {
      TurnKeepsTaskOk(w.tasks[e.i], w.store, e.net, w.received);
    }
    forall bytes | bytes in w'.received ensures Validated(bytes, w'.tasks) {
      if bytes in w.received {
        ValidatedStays(bytes, w.tasks, w'.tasks);
      } else {
        assert Passes(w'.tasks[e.i].declared, bytes);
      }
    }
  }

  lemma {:induction false} RunKeepsWorldOk(w: World, events: seq<Event>)
    requires WorldOk(w)
    ensures WorldOk(Run(w, events))
  {
    if events != [] {
      RunKeepsWorldOk(w, events[..|events| - 1]);
      EventKeepsWorldOk(Run(w, events[..|events| - 1]), events[|events| - 1]);
    }
  }

  /**
    Whatever clients upload and whatever fails, everything that the canonical path ever received
    passed the size and content checks of an inspection, and so did everything returned, which the
    canonical path did receive.
   */
  lemma PromotionSafety(events: seq<Event>)
    ensures var w := Run(INIT, events);
      && (forall bytes :: bytes in w.received ==> Validated(bytes, w.tasks))
      && (w.store.canonical.Some? ==> w.store.canonical.value in w.received)
      && (forall i :: 0 <= i < |w.tasks| && w.tasks[i].stage.Returned? ==>
            && w.tasks[i].stage.bytes in w.received
            && Passes(w.tasks[i].declared, w.tasks[i].stage.bytes))
  {
    RunKeepsWorldOk(INIT, events);
  }

  /** The check that finalizing repeats after the inspection. */
  ghost predicate Recheck(key: Key, d: Declared, r: Inspected) {
    && ContentVerdict(d.kind, d.mimeType, r.byteSize, r.prefix).VALID?
    && r.byteSize == d.byteSize && r.objectPath == key.objectPath
  }

  /** Once an inspection has returned, the check that finalizing repeats cannot fail. */
  lemma RecheckNeverFails(key: Key, events: seq<Event>, i: nat)
    requires var w := Run(INIT, events); i < |w.tasks| && w.tasks[i].stage.Returned?
    ensures var t := Run(INIT, events).tasks[i]; Recheck(key, t.declared, Report(key, t.stage.bytes))
  {
    RunKeepsWorldOk(INIT, events);
    assert TaskOk(Run(INIT, events).tasks[i], Run(INIT, events).received);
  }

  // ---- repeating an inspection ---------------------------------------------------------------

  /** The content that one more inspection, with no failure and undisturbed, returns with. */
  ghost function Served(store: Store, d: Declared): Option<seq<Byte>> {
    var (s1, t1) := Turn(d, store, if Admissible(d) then AskQuarantine else Threw, Answered);
    var (s2, t2) := Turn(d, s1, t1, Answered);
    var (s3, t3) := Turn(d, s2, t2, Answered);
    if t3.Returned? then Some(t3.bytes) else None
  }

  /** The canonical path holds the bytes; nothing else waits in quarantine or is about to be promoted. */
  predicate Settled(w: World, bytes: seq<Byte>) {
    && w.store.canonical == Some(bytes)
    && (w.store.quarantine.None? || w.store.quarantine == Some(bytes))
    && (forall i :: 0 <= i < |w.tasks| && w.tasks[i].stage.Promote? ==> w.tasks[i].stage.bytes == bytes)
  }

  predicate NoUpload(events: seq<Event>) {
    forall e :: e in events ==> !e.Upload?
  }

  /** Every inspection that arrived after the first `n` and has returned, returned with these bytes. */
  ghost predicate LaterReturn(w: World, n: nat, bytes: seq<Byte>) {
    forall i :: n <= i < |w.tasks| && w.tasks[i].stage.Returned? ==> w.tasks[i].stage.bytes == bytes
  }

  /**
    Whatever happens without a new upload: every inspection that arrives later and returns,
    interleaved with any others and with any failing calls, returns with these bytes; and one as
    declared that nothing disturbs does return with them.
   */
  ghost predicate Repeatable(w: World, d: Declared, bytes: seq<Byte>) {
    forall events :: NoUpload(events) ==>
      LaterReturn(Run(w, events), |w.tasks|, bytes) && Served(Run(w, events).store, d) == Some(bytes)
  }

  /** The world is settled, and what inspections after the first `n` hold are the bytes. */
  ghost predicate SettledFrom(w: World, n: nat, bytes: seq<Byte>) {
    && Settled(w, bytes)
    && forall i :: n <= i < |w.tasks| && (w.tasks[i].stage.Cleanup? || w.tasks[i].stage.Returned?) ==> w.tasks[i].stage.bytes == bytes
  }

  lemma {:induction false} SettledStays(w: World, n: nat, bytes: seq<Byte>, events: seq<Event>)
    requires SettledFrom(w, n, bytes) && NoUpload(events)
    ensures SettledFrom(Run(w, events), n, bytes)
  {
    if events != [] {
      var init, last := events[..|events| - 1], events[|events| - 1];
      SettledStays(w, n, bytes, init);
      assert !last.Upload?;
      EventKeepsSettled(Run(w, init), n, bytes, last);
    }
  }

  lemma EventKeepsSettled(w: World, n: nat, bytes: seq<Byte>, e: Event)
    requires SettledFrom(w, n, bytes) && !e.Upload?
    ensures SettledFrom(After(w, e), n, bytes)
  {
  }

  lemma RunOne(w: World, e: Event)
    ensures Run(w, [e]) == After(w, e)
  {
    assert Run(w, []) == w;
    assert [e][..0] == [];
  }

  lemma RunMore(w: World, events: seq<Event>, e: Event)
    ensures Run(w, events + [e]) == After(Run(w, events), e)
  {
    assert (events + [e])[..|events|] == events;
  }

  /** Another inspection with a wrong declaration takes the quarantine object away. */
  lemma WrongDeclarationClears(w: World, d: Declared, bytes: seq<Byte>)
    requires Passes(d, bytes) && w.store.quarantine == Some(bytes)
    ensures exists events :: NoUpload(events) && Run(w, events).store == w.store.(quarantine := None)
  {
    var wrong := d.(byteSize := if d.byteSize == 0 then 1 else 0);
    var n := |w.tasks|;
    var step := Step(n, Answered);
    RunOne(w, Arrive(wrong));
    RunMore(w, [Arrive(wrong)], step);
    RunMore(w, [Arrive(wrong), step], step);
    var w1 := After(w, Arrive(wrong));
    assert w1.tasks[n] == Task(wrong, AskQuarantine);
    var w2 := After(w1, step);
    assert w2.tasks[n] == Task(wrong, DropBad);
    var events := [Arrive(wrong), step] + [step];
    assert [Arrive(wrong)] + [step] == [Arrive(wrong), step];
    assert Run(w, events).store == w.store.(quarantine := None);
  }

  /** An inspection that is about to promote other bytes still does. */
  lemma PromotionOverwrites(w: World, i: nat)
    requires i < |w.tasks| && w.tasks[i].stage.Promote?
    ensures exists events :: NoUpload(events) && Run(w, events).store == Store(None, Some(w.tasks[i].stage.bytes))
  {
    var step := Step(i, Answered);
    RunOne(w, step);
    RunMore(w, [step], step);
    var w1 := After(w, step);
    assert w1.tasks[i].stage == Cleanup(w.tasks[i].stage.bytes);
    var events := [step] + [step];
    assert Run(w, events).store == Store(None, Some(w.tasks[i].stage.bytes));
  }

  lemma OnlyServesWhatIsThere(store: Store, d: Declared, bytes: seq<Byte>)
    requires Served(store, d) == Some(bytes)
    ensures (if store.quarantine.Some? then store.quarantine else store.canonical) == Some(bytes)
  {
  }

  lemma ServesWhatIsThere(store: Store, d: Declared, bytes: seq<Byte>)
    requires Passes(d, bytes) && (if store.quarantine.Some? then store.quarantine else store.canonical) == Some(bytes)
    ensures Served(store, d) == Some(bytes)
  {
  }

  /**
    Repeating an inspection without a new upload gives the same content, and so the same report,
    whatever it is interleaved with, exactly if the world is settled on it: an older inspection that is still about to promote other
    bytes, or an upload that arrived in between, can otherwise replace it.
   */
  lemma RepeatExactly(w: World, d: Declared, bytes: seq<Byte>)
    requires Passes(d, bytes)
    ensures Repeatable(w, d, bytes) <==> Settled(w, bytes)
  {
    if Settled(w, bytes) {
      forall events | NoUpload(events)
        ensures LaterReturn(Run(w, events), |w.tasks|, bytes) && Served(Run(w, events).store, d) == Some(bytes)
      {
        SettledStays(w, |w.tasks|, bytes, events);
        ServesWhatIsThere(Run(w, events).store, d, bytes);
      }
    }
    if Repeatable(w, d, bytes) { RepeatableIsSettled(w, d, bytes); }
  }

  lemma RepeatableIsSettled(w: World, d: Declared, bytes: seq<Byte>)
    requires Passes(d, bytes) && Repeatable(w, d, bytes)
    ensures Settled(w, bytes)
  {
    assert Run(w, []) == w;
    assert NoUpload([]);
    OnlyServesWhatIsThere(w.store, d, bytes);
    if w.store.quarantine == Some(bytes) {
      WrongDeclarationClears(w, d, bytes);
      var events :| NoUpload(events) && Run(w, events).store == w.store.(quarantine := None);
      OnlyServesWhatIsThere(Run(w, events).store, d, bytes);
    }
    forall i | 0 <= i < |w.tasks| && w.tasks[i].stage.Promote? ensures w.tasks[i].stage.bytes == bytes {
      PromotionOverwrites(w, i);
      var events :| NoUpload(events) && Run(w, events).store == Store(None, Some(w.tasks[i].stage.bytes));
      OnlyServesWhatIsThere(Run(w, events).store, d, bytes);
    }
  }

  /** Two inspections of one media key: the first reads A, the second reads B, which was uploaded after that. */
  function Race(d: Declared, a: seq<Byte>, b: seq<Byte>): seq<Event> {
    [Upload(a), Arrive(d), Step(0, Answered), Upload(b), Arrive(d), Step(1, Answered), Step(1, Answered), Step(1, Answered)]
  }

  /** The world after the first `n` events of the race. */
  function RaceWorld(d: Declared, a: seq<Byte>, b: seq<Byte>, n: nat): World
    requires n <= 8
  {
    var first, second := Task(d, Promote(a)), Task(d, AskQuarantine);
    if n == 0 then INIT
    else if n == 1 then World(Store(Some(a), None), [], [])
    else if n == 2 then World(Store(Some(a), None), [Task(d, AskQuarantine)], [])
    else if n == 3 then World(Store(Some(a), None), [first], [])
    else if n == 4 then World(Store(Some(b), None), [first], [])
    else if n == 5 then World(Store(Some(b), None), [first, second], [])
    else if n == 6 then World(Store(Some(b), None), [first, Task(d, Promote(b))], [])
    else if n == 7 then World(Store(Some(b), Some(b)), [first, Task(d, Cleanup(b))], [b])
    else World(Store(None, Some(b)), [first, Task(d, Returned(b))], [b])
  }

  lemma RaceReads(d: Declared, a: seq<Byte>, b: seq<Byte>)
    requires Passes(d, a) && Passes(d, b)
    ensures After(RaceWorld(d, a, b, 2), Step(0, Answered)) == RaceWorld(d, a, b, 3)
    ensures After(RaceWorld(d, a, b, 5), Step(1, Answered)) == RaceWorld(d, a, b, 6)
  {
  }

  lemma RacePromotes(d: Declared, a: seq<Byte>, b: seq<Byte>)
    ensures After(RaceWorld(d, a, b, 6), Step(1, Answered)) == RaceWorld(d, a, b, 7)
    ensures After(RaceWorld(d, a, b, 7), Step(1, Answered)) == RaceWorld(d, a, b, 8)
  {
  }

  lemma RaceStep(d: Declared, a: seq<Byte>, b: seq<Byte>, n: nat)
    requires Passes(d, a) && Passes(d, b) && n < 8
    ensures After(RaceWorld(d, a, b, n), Race(d, a, b)[n]) == RaceWorld(d, a, b, n + 1)
  {
    if n == 2 || n == 5 { RaceReads(d, a, b); }
    if n >= 6 { RacePromotes(d, a, b); }
  }

  lemma {:induction false} RaceRuns(d: Declared, a: seq<Byte>, b: seq<Byte>, n: nat)
    requires Passes(d, a) && Passes(d, b) && n <= 8
    ensures Run(INIT, Race(d, a, b)[..n]) == RaceWorld(d, a, b, n)
  {
    var events := Race(d, a, b);
    if n > 0 {
      RaceRuns(d, a, b, n - 1);
      RaceStep(d, a, b, n - 1);
      assert events[..n] == events[..n - 1] + [events[n - 1]];
      RunMore(INIT, events[..n - 1], events[n - 1]);
    }
  }

  lemma RaceUntilReturn(d: Declared, a: seq<Byte>, b: seq<Byte>)
    requires Passes(d, a) && Passes(d, b)
    ensures Run(INIT, Race(d, a, b))
         == World(Store(None, Some(b)), [Task(d, Promote(a)), Task(d, Returned(b))], [b])
  {
    RaceRuns(d, a, b, 8);
    assert Race(d, a, b)[..8] == Race(d, a, b);
  }

  /**
    Repetition without a new upload can fail, in a run from the start. Two texts of one byte are
    uploaded one after the other; the inspection of the second returns and could be repeated, then
    the inspection of the first promotes what it had read, and repeating serves the first text.
   */
  lemma RepeatCanDiffer()
    ensures
      var d := Declared(DOCUMENT, "text/plain", 1);
      var w := Run(INIT, Race(d, [65], [66]));
      && |w.tasks| == 2 && w.tasks[1].stage == Returned([66]) && Served(w.store, d) == Some([66])
      && !Settled(w, [66]) && Served(After(w, Step(0, Answered)).store, d) == Some([65])
  {
    var d := Declared(DOCUMENT, "text/plain", 1);
    OneByteTextPasses(d, [65]);
    OneByteTextPasses(d, [66]);
    RaceUntilReturn(d, [65], [66]);
    var w := Run(INIT, Race(d, [65], [66]));
    assert w.tasks[0].stage == Promote([65]);
    ServesWhatIsThere(w.store, d, [66]);
    ServesWhatIsThere(After(w, Step(0, Answered)).store, d, [65]);
  }

  lemma OneByteTextPasses(d: Declared, bytes: seq<Byte>)
    requires d == Declared(DOCUMENT, "text/plain", 1) && |bytes| == 1 && 0x20 <= bytes[0]
    ensures Passes(d, bytes)
  {
    assert Controls(bytes) == {};
    assert Allowed(DOCUMENT, "text/plain");
  }

  /** An undisturbed inspection leaves the world settled, if no other was about to promote; failing deletions do not matter. */
  lemma InspectionSettles(w: World, i: nat, delete: Net)
    requires i < |w.tasks| && w.tasks[i].stage.AskQuarantine?
    requires forall k :: 0 <= k < |w.tasks| ==> !w.tasks[k].stage.Promote?
    ensures var w' := After(After(After(w, Step(i, Answered)), Step(i, Answered)), Step(i, delete));
      w'.tasks[i].stage.Returned? ==> Settled(w', w'.tasks[i].stage.bytes)
  {
  }

  // ---- the storage client --------------------------------------------------------------------

  /** How the calls of one inspection end. */
  datatype Nets = Nets(askQuarantine: Net, askCanonical: Net, promote: Net, delete: Net)

  function NetOf(nets: Nets, stage: Stage): Net {
    match stage
    case AskQuarantine => nets.askQuarantine
    case AskCanonical => nets.askCanonical
    case Promote(_) => nets.promote
    case _ => nets.delete
  }

  /** A whole inspection with nothing in between: at most three calls. */
  ghost function Inspect(d: Declared, store: Store, nets: Nets): (Store, Stage) {
    if !Admissible(d) then (store, Threw)
    else
      var (s1, t1) := Turn(d, store, AskQuarantine, nets.askQuarantine);
      var (s2, t2) := Turn(d, s1, t1, NetOf(nets, t1));
      Turn(d, s2, t2, NetOf(nets, t2))
  }

  /** The most bytes of a kind. */
  function MostBytes(kind: Kind): nat {
    if kind == IMAGE then 5_242_880 else if kind == AUDIO then 16_777_216 else 104_857_600
  }

  /**
    What one inspection does, said of the two objects before and after it. It reads the quarantine
    object, or the canonical one if there is none; it reports just what it read, if that is as
    declared and could be promoted; a quarantine object that is not as declared is dropped, unless
    it is too long to be read.
   */
  ghost predicate Inspects(d: Declared, before: Store, nets: Nets, key: Key, r: Option<Inspected>, after: Store) {
    var source := if before.quarantine.Some? then before.quarantine else before.canonical;
    var read := && 0 <= d.byteSize <= MostBytes(d.kind) && nets.askQuarantine == Answered
                && (before.quarantine == None ==> nets.askCanonical == Answered)
                && source.Some? && |source.value| <= MostBytes(d.kind);
    var valid := read && |source.value| == d.byteSize
                 && ContentVerdict(d.kind, d.mimeType, d.byteSize, Take(1_048_576, source.value)) == VALID;
    var promotes := valid && before.quarantine.Some?;
    && (r.Some? <==> valid && (promotes ==> nets.promote == Answered))
    && (r.Some? ==>
          && r.value.objectPath == key.objectPath && r.value.byteSize == d.byteSize
          && r.value.prefix == Take(1_048_576, source.value) && r.value.sha256 == key.digest(source.value))
    && after.canonical == (if promotes && nets.promote != Failed then before.quarantine else before.canonical)
    && after.quarantine == (if read && nets.delete != Failed && (!valid || (promotes && nets.promote == Answered)) then None
                            else before.quarantine)
  }

  class OutboundMediaStorage {
    const key: Key
    var quarantine: Option<seq<Byte>>
    var canonical: Option<seq<Byte>>

    constructor (key: Key)
      ensures this.key == key && Current() == INIT.store
    {
      this.key := key;
      quarantine, canonical := None, None;
    }

    function Current(): Store
      reads this
    {
      Store(quarantine, canonical)
    }

    method DeleteQuarantine(net: Net)
      modifies this
      ensures Current() == Delete(old(Current()), net)
      ensures canonical == old(canonical) && quarantine == if net == Failed then old(quarantine) else None
    {
      if !net.Failed? { quarantine := None; }
    }

    /** `chunked` is how the network splits a body. */
    method InspectUploadedMedia(d: Declared, nets: Nets, chunked: seq<Byte> -> seq<seq<Byte>>) returns (r: Option<Inspected>)
      requires forall bytes :: Concat(chunked(bytes)) == bytes
      modifies this
      ensures var (store, stage) := Inspect(d, old(Current()), nets);
        && Current() == store
        && r == if stage.Returned? then Some(Report(key, stage.bytes)) else None
      ensures Inspects(d, old(Current()), nets, key, r, Current())
    {
      if d.byteSize < 0 || d.byteSize > Limit(d.kind) { return None; }
      var fromQuarantine := true;
      if !nets.askQuarantine.Answered? { return None; }
      var response := quarantine;
      if response.None? {
        fromQuarantine := false;
        if !nets.askCanonical.Answered? { return None; }
        response := canonical;
      }
      if response.None? { return None; }
      var material := ReadBoundedBody(key.digest, chunked(response.value), Limit(d.kind));
      if material.None? { return None; }
      var bytes := material.value.bytes;
      if |bytes| != d.byteSize {
        if fromQuarantine { DeleteQuarantine(nets.delete); }
        return None;
      }
      var verdict := ValidateWhatsAppMediaContent(d.kind, d.mimeType, |bytes|, material.value.prefix);
      if !verdict.VALID? {
        if fromQuarantine { DeleteQuarantine(nets.delete); }
        return None;
      }
      if fromQuarantine {
        if !nets.promote.Failed? { canonical := Some(bytes); }
        if !nets.promote.Answered? { return None; }
        DeleteQuarantine(nets.delete);
      }
      r := Some(Inspected(key.objectPath, material.value.prefix, |bytes|, material.value.sha256));
    }
  }
}
