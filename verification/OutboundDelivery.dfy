/**
  Interactive WhatsApp sends: claim the intent durably, call the provider, then attach its message
  ID or record its refusal. Any number of requests run side by side, may stop between any two
  steps, and may lose the reply of any store call.
 */
module OutboundDelivery {
  import opened Wrappers

  type MessageId = nat

  datatype Key = Key(shop: string, intent: string)

  datatype Status = PENDING | SENT | DELIVERED | READ | FAILED

  /**
    A row of the message table; rows are only added, and a message ID is its row number. `content`
    is all that says what is sent and where: conversation, kind, text and media. `sender` is the
    worker and the device.
   */
  datatype Message = Message(key: Key, content: string, sender: string, retryOf: Option<MessageId>,
                             status: Status, provider: Option<string>)

  datatype Request =
    | SendText(key: Key, sender: string, content: string)
    | SendTemplate(key: Key, sender: string, content: string)
    | SendLocation(key: Key, sender: string, content: string)
    | SendMedia(key: Key, sender: string, content: string)
    | Retry(key: Key, sender: string, original: MessageId, ofMedia: bool)

  /** The awaited calls around the provider call, named after what they ask for. */
  datatype Stage = Original | Operator | Policy | Channel | Inspection | Claim | MediaAccess | Download

  datatype Reply =
    | Sent200(message: Message)
    | Uncertain503(id: MessageId)
    | Rejected502(id: MessageId)
    | Refused(code: nat)

  datatype Pc =
    | Asking(stage: Stage)
    | Preparing(message: MessageId, stage: Stage)
    | AwaitProvider(message: MessageId)
    | AwaitAttach(message: MessageId, provider: string)
    | AwaitFail(message: MessageId, status: nat)
    | Responded(reply: Reply)
    | Crashed

  /**
    What the store made of a call: `Lost` means that it took effect and its reply did not arrive.
    A refusal by the store comes with the status code it is answered with.
   */
  datatype Delivery = Heard | Lost | Failed

  datatype ProviderOutcome = Accepted(id: string) | HttpStatus(status: nat) | Unknown

  datatype Answer =
    | Pass
    | Refuse(code: nat)
    | Stored(delivery: Delivery, invariantHolds: bool, errorCode: Option<nat>)
    | Provider(outcome: ProviderOutcome)

  datatype Settlement = Attach(message: MessageId, provider: string) | Fail(message: MessageId, status: nat)

  /**
    `calls` lists the provider calls in time order, `replies` what the handler heard from the
    provider, and `settlements` the settling store calls.
   */
  datatype Server = Server(rows: seq<Message>, calls: seq<MessageId>, replies: map<MessageId, ProviderOutcome>,
                           settlements: seq<Settlement>)

  function FirstStage(r: Request): Stage {
    match r
    case SendTemplate(_, _, _) => Channel
    case Retry(_, _, _, _) => Original
    case _ => Operator
  }

  /** The order of the awaited calls per action; `None` after the last one before the provider call. */
  function NextStage(r: Request, stage: Stage): Option<Stage> {
    match stage
    case Original => Some(Operator)
    case Operator => Some(Policy)
    case Policy => if r.SendMedia? then Some(Inspection) else Some(Channel)
    case Inspection => Some(Claim)
    case Channel => if r.SendMedia? then Some(Download) else Some(Claim)
    case Claim => if r.SendMedia? then Some(Channel) else if r.Retry? && r.ofMedia then Some(MediaAccess) else None
    case MediaAccess => Some(Download)
    case Download => None
  }

  // ---- the durable store ---------------------------------------------------------------------

  function FindKey(rows: seq<Message>, key: Key): (r: Option<MessageId>)
    ensures r.Some? ==> r.value < |rows| && rows[r.value].key == key
    ensures r.None? ==> forall m :: 0 <= m < |rows| ==> rows[m].key != key
  {
    if rows == [] then None
    else if rows[|rows| - 1].key == key then Some(|rows| - 1)
    else FindKey(rows[..|rows| - 1], key)
  }

  datatype Claimed = Created(message: MessageId) | Existing(message: MessageId) | Conflict

  /** The original is a failed message of the same shop. */
  predicate CanRetry(rows: seq<Message>, r: Request)
    requires r.Retry?
  {
    r.original < |rows| && rows[r.original].status.FAILED? && rows[r.original].key.shop == r.key.shop
  }

  /**
    What a request asks its row to hold: its own sender and content and no lineage, or for a retry
    the content of its original and that original as lineage. A template is sent whatever lineage
    the row of its key has.
   */
  predicate Asks(rows: seq<Message>, r: Request, row: Message) {
    && row.sender == r.sender
    && match r
       case Retry(_, _, o, _) => o < |rows| && row.content == rows[o].content && row.retryOf == Some(o)
       case SendTemplate(_, _, content) => row.content == content
       case _ => row.content == r.content && row.retryOf == None
  }

  /** The answer of the store to a claim and its rows afterwards, with each answer in its own terms. */
  ghost predicate ClaimAnswered(rows: seq<Message>, r: Request, claimed: Claimed, rows': seq<Message>) {
    var retryable := r.Retry? ==> r.original < |rows| && rows[r.original].status == FAILED && rows[r.original].key.shop == r.key.shop;
    match claimed
    case Created(m) =>
      && m == |rows| && retryable && (forall k :: 0 <= k < |rows| ==> rows[k].key != r.key)
      && |rows'| == m + 1 && rows'[..m] == rows
      && rows'[m].key == r.key && Asks(rows, r, rows'[m]) && (rows'[m].retryOf.Some? ==> r.Retry?)
      && rows'[m].status == PENDING && rows'[m].provider == None
    case Existing(m) =>
      rows' == rows && retryable && m < |rows| && rows[m].key == r.key && Asks(rows, r, rows[m])
    case Conflict =>
      rows' == rows && (retryable ==> exists k :: 0 <= k < |rows| && rows[k].key == r.key && !Asks(rows, r, rows[k]))
  }

  /** Insert if absent; a retry needs a failed original of its shop; an existing row must be the same intent. */
  function ClaimIntent(rows: seq<Message>, r: Request): (c: (Claimed, seq<Message>))
    ensures c.0.Created? ==> c.0.message == |rows| && |c.1| == |rows| + 1 && c.1[..|rows|] == rows
                             && c.1[|rows|].key == r.key && forall m :: 0 <= m < |rows| ==> rows[m].key != r.key
    ensures !c.0.Created? ==> c.1 == rows
    ensures ClaimAnswered(rows, r, c.0, c.1)
  {
    if r.Retry? && !CanRetry(rows, r) then (Conflict, rows)
    else
      var content := if r.Retry? then rows[r.original].content else r.content;
      var retryOf := if r.Retry? then Some(r.original) else None;
      var found := FindKey(rows, r.key);
      if found.None? then (Created(|rows|), rows + [Message(r.key, content, r.sender, retryOf, PENDING, None)])
      else if rows[found.value].content == content && rows[found.value].sender == r.sender
              && (r.SendTemplate? || rows[found.value].retryOf == retryOf) then (Existing(found.value), rows)
      else (Conflict, rows)
  }

  function AttachProvider(rows: seq<Message>, m: MessageId, provider: string): seq<Message>
    requires m < |rows|
  {
    rows[m := rows[m].(provider := Some(provider), status := SENT)]
  }

  predicate Failable(rows: seq<Message>, m: MessageId)
    requires m < |rows|
  {
    rows[m].status.FAILED? || (rows[m].status.PENDING? && rows[m].provider.None?)
  }

  function FailIntent(rows: seq<Message>, m: MessageId): seq<Message>
    requires m < |rows|
  {
    if Failable(rows, m) then rows[m := rows[m].(status := FAILED)] else rows
  }

  function Rank(s: Status): nat {
    match s case PENDING => 0 case SENT => 1 case DELIVERED => 2 case READ => 3 case FAILED => 4
  }

  /** A delivery callback finds its row by provider message ID and never moves it backwards. */
  function Callback(row: Message, status: Status): Message {
    if row.provider.None? || row.status.FAILED? || (status.FAILED? && !row.status.PENDING?)
       || (!status.FAILED? && Rank(status) < Rank(row.status)) then row
    else row.(status := status)
  }

  // ---- the handlers --------------------------------------------------------------------------

  /** `existingClaimResponse`: a claim that was already there is never sent again. */
  function ExistingReply(rows: seq<Message>, m: MessageId): Reply
    requires m < |rows|
  {
    if rows[m].status.PENDING? && rows[m].provider.None? then Uncertain503(m) else Sent200(rows[m])
  }

  predicate Definite(outcome: ProviderOutcome) {
    outcome.HttpStatus? && outcome.status >= 400
  }

  /** The settling store call that a provider answer leads to, if any. */
  function SettlementFor(m: MessageId, outcome: ProviderOutcome): Option<Settlement> {
    if outcome.Accepted? then Some(Attach(m, outcome.id))
    else if Definite(outcome) then Some(Fail(m, outcome.status))
    else None
  }

  /** The handler hears from the provider and makes the settling call, if any. */
  function Learned(s: Server, m: MessageId, outcome: ProviderOutcome): Server {
    var settlement := SettlementFor(m, outcome);
    s.(replies := s.replies[m := outcome],
       settlements := s.settlements + if settlement.Some? then [settlement.value] else [])
  }

  /** Continue with the claimed message: the next awaited call, or the provider call itself. */
  function Proceed(r: Request, m: MessageId, stage: Stage, s: Server): (Pc, Server) {
    match NextStage(r, stage)
    case Some(next) => (Preparing(m, next), s)
    case None => (AwaitProvider(m), s.(calls := s.calls + [m]))
  }

  predicate Fits(pc: Pc, s: Server) {
    match pc
    case Preparing(m, _) => m < |s.rows|
    case AwaitProvider(m) => m < |s.rows|
    case AwaitAttach(m, _) => m < |s.rows|
    case AwaitFail(m, _) => m < |s.rows|
    case _ => true
  }

  function Turn(r: Request, pc: Pc, s: Server, a: Answer): (Pc, Server)
    requires Fits(pc, s)
  {
    match pc
    case Asking(stage) =>
      if stage.Claim? then ClaimTurn(r, s, a)
      else if a.Pass? && NextStage(r, stage).Some? then (Asking(NextStage(r, stage).value), s)
      else (Responded(Refused(if a.Refuse? then a.code else 503)), s)
    case Preparing(m, stage) =>
      if a.Pass? then Proceed(r, m, stage, s)
      else if a.Refuse? && r.SendMedia? && stage.Download? then (Responded(Uncertain503(m)), s)
      else (Responded(Refused(if a.Refuse? then a.code else 503)), s)
    case AwaitProvider(m) =>
      var outcome := if a.Provider? then a.outcome else Unknown;
      (if outcome.Accepted? then AwaitAttach(m, outcome.id)
       else if Definite(outcome) then AwaitFail(m, outcome.status)
       else Responded(Uncertain503(m)), Learned(s, m, outcome))
    case AwaitAttach(m, provider) =>
      var delivery := if a.Stored? then a.delivery else Failed;
      var before := s.rows[m];
      var s' := if delivery.Failed? then s else s.(rows := AttachProvider(s.rows, m, provider));
      (Responded(if delivery.Heard? && a.invariantHolds then Sent200(before.(provider := Some(provider), status := SENT))
                 else Uncertain503(m)), s')
    case AwaitFail(m, _) =>
      var delivery := if a.Stored? then a.delivery else Failed;
      var s' := if delivery.Failed? then s else s.(rows := FailIntent(s.rows, m));
      (Responded(if delivery.Heard? && Failable(s.rows, m) then Rejected502(m)
                 else if a.Stored? && a.errorCode.Some? then Refused(a.errorCode.value)
                 else Uncertain503(m)), s')
    case Responded(_) => (pc, s)
    case Crashed => (pc, s)
  }

  function ClaimTurn(r: Request, s: Server, a: Answer): (Pc, Server) {
    var delivery := if a.Stored? then a.delivery else Failed;
    var error := Refused(if a.Stored? && a.errorCode.Some? then a.errorCode.value else 503);
    if delivery.Failed? then (Responded(error), s)
    else
      var (claimed, rows) := ClaimIntent(s.rows, r);
      var s' := s.(rows := rows);
      if delivery.Lost? then (Responded(error), s')
      else match claimed
        case Created(m) => Proceed(r, m, Claim, s')
        case Existing(m) => (Responded(ExistingReply(rows, m)), s')
        case Conflict => (Responded(Refused(409)), s')
  }

  // ---- all requests together -----------------------------------------------------------------

  datatype Handler = Handler(request: Request, pc: Pc)

  datatype World = World(handlers: seq<Handler>, server: Server)

  datatype Event =
    | Arrive(request: Request)
    | Step(i: nat, answer: Answer)
    | Crash(i: nat)
    | StatusCallback(m: MessageId, status: Status)

  predicate Possible(w: World, e: Event) {
    match e
    case Arrive(_) => true
    case Step(i, _) => i < |w.handlers| && Fits(w.handlers[i].pc, w.server)
    case Crash(i) => i < |w.handlers|
    case StatusCallback(m, _) => m < |w.server.rows|
  }

  function After(w: World, e: Event): World
    requires Possible(w, e)
  {
    match e
    case Arrive(r) => w.(handlers := w.handlers + [Handler(r, Asking(FirstStage(r)))])
    case Step(i, a) =>
      var (pc, s) := Turn(w.handlers[i].request, w.handlers[i].pc, w.server, a);
      World(w.handlers[i := w.handlers[i].(pc := pc)], s)
    case Crash(i) => w.(handlers := w.handlers[i := w.handlers[i].(pc := Crashed)])
    case StatusCallback(m, status) =>
      w.(server := w.server.(rows := w.server.rows[m := Callback(w.server.rows[m], status)]))
  }

  const START := World([], Server([], [], map[], []))

  /** The claimed message a handler still works on. */
  function Owned(pc: Pc): Option<MessageId> {
    match pc
    case Preparing(m, _) => Some(m)
    case AwaitProvider(m) => Some(m)
    case AwaitAttach(m, _) => Some(m)
    case AwaitFail(m, _) => Some(m)
    case _ => None
  }

  /** What has been done for the message a handler works on. */
  ghost predicate Progress(pc: Pc, s: Server) {
    Owned(pc).Some? ==>
      var m := Owned(pc).value;
      && m < |s.rows| && s.rows[m].status.PENDING? && s.rows[m].provider.None?
      && (if pc.Preparing? then m !in s.calls else m in s.calls)
      && (pc.AwaitProvider? ==> m !in s.replies)
      && (pc.AwaitAttach? ==> m in s.replies && s.replies[m] == Accepted(pc.provider))
      && (pc.AwaitFail? ==> && m in s.replies && s.replies[m] == HttpStatus(pc.status) && Definite(s.replies[m]))
  }

  ghost predicate ReplyOk(pc: Pc, s: Server) {
    pc.Responded? ==>
      match pc.reply
      case Sent200(message) => !(message.status.PENDING? && message.provider.None?)
      case Rejected502(m) => m < |s.rows| && s.rows[m].status.FAILED?
      case _ => true
  }

  /** A row's state is explained by what the provider answered. */
  ghost predicate RowOk(s: Server, m: MessageId)
    requires m < |s.rows|
  {
    var row := s.rows[m];
    && (row.status.FAILED? ==> row.provider.None? && m in s.replies && Definite(s.replies[m]))
    && (row.provider.Some? ==> !row.status.PENDING? && m in s.replies && s.replies[m] == Accepted(row.provider.value))
    && (row.provider.None? ==> row.status.PENDING? || row.status.FAILED?)
    && (row.retryOf.Some? ==>
          var o := row.retryOf.value;
          o < m && s.rows[o].status.FAILED? && s.rows[o].key.shop == row.key.shop)
  }

  /** The settling calls made are exactly those that the provider's answers lead to. */
  ghost predicate SettledAsAnswered(s: Server) {
    forall x :: x in s.settlements <==> x.message in s.replies && SettlementFor(x.message, s.replies[x.message]) == Some(x)
  }

  ghost predicate ServerOk(s: Server) {
    && (forall i, j :: 0 <= i < j < |s.rows| ==> s.rows[i].key != s.rows[j].key)
    && (forall i :: 0 <= i < |s.calls| ==> s.calls[i] < |s.rows|)
    && (forall i, j :: 0 <= i < j < |s.calls| ==> s.calls[i] != s.calls[j])
    && (forall i, j :: 0 <= i < j < |s.settlements| ==> s.settlements[i].message != s.settlements[j].message)
    && (forall m :: m in s.replies ==> m in s.calls)
    && SettledAsAnswered(s)
    && (forall m :: 0 <= m < |s.rows| ==> RowOk(s, m))
  }

  ghost predicate WorldOk(w: World) {
    && ServerOk(w.server)
    && (forall i :: 0 <= i < |w.handlers| ==> Progress(w.handlers[i].pc, w.server) && ReplyOk(w.handlers[i].pc, w.server))
    && (forall i, j :: 0 <= i < j < |w.handlers| && Owned(w.handlers[i].pc).Some? ==>
          Owned(w.handlers[i].pc) != Owned(w.handlers[j].pc))
  }

  /** Nothing but message `t` is touched, and a failed message stays as it is. */
  ghost predicate Touches(s: Server, s': Server, t: nat) {
    && |s.rows| <= |s'.rows|
    && (forall m :: 0 <= m < |s.rows| && (m != t || s.rows[m].status.FAILED?) ==> s'.rows[m] == s.rows[m])
    && (forall c :: c in s.calls ==> c in s'.calls)
    && (forall c :: c in s'.calls ==> c in s.calls || c == t)
    && (forall m :: m in s.replies ==> m in s'.replies && s'.replies[m] == s.replies[m])
    && (forall m :: m in s'.replies ==> m in s.replies || m == t)
  }

  lemma OthersUnaffected(pc: Pc, s: Server, s': Server, t: nat)
    requires Progress(pc, s) && ReplyOk(pc, s) && Touches(s, s', t) && Owned(pc) != Some(t)
    ensures Progress(pc, s') && ReplyOk(pc, s')
  {
  }

  /** The message a turn may touch: the one the handler owns, or the row it is about to insert. */
  function Target(pc: Pc, s: Server): nat {
    if Owned(pc).Some? then Owned(pc).value else |s.rows|
  }

  ghost predicate TurnGood(pc: Pc, s: Server, pc': Pc, s': Server) {
    && ServerOk(s') && Progress(pc', s') && ReplyOk(pc', s')
    && Touches(s, s', Target(pc, s))
    && (Owned(pc').Some? ==> Owned(pc').value == Target(pc, s))
  }

  lemma AppendCall(s: Server, m: MessageId)
    requires ServerOk(s) && m < |s.rows| && m !in s.calls
    ensures ServerOk(s.(calls := s.calls + [m]))
  {
    var s' := s.(calls := s.calls + [m]);
    forall k | 0 <= k < |s'.rows| ensures RowOk(s', k) { assert RowOk(s, k); }
  }

  lemma LearnReply(s: Server, m: MessageId, outcome: ProviderOutcome)
    requires ServerOk(s) && m < |s.rows| && m in s.calls && m !in s.replies
    ensures ServerOk(Learned(s, m, outcome))
  {
    var s' := Learned(s, m, outcome);
    var settlement := SettlementFor(m, outcome);
    forall k | 0 <= k < |s'.rows| ensures RowOk(s', k) { assert RowOk(s, k); }
    forall x ensures x in s'.settlements <==> x.message in s'.replies && SettlementFor(x.message, s'.replies[x.message]) == Some(x) {
      assert x in s'.settlements <==> x in s.settlements || Some(x) == settlement;
      assert x in s.settlements ==> x.message != m;
    }
    forall x | x in s.settlements ensures x.message != m {}
  }

  lemma InsertRow(s: Server, row: Message)
    requires ServerOk(s) && row.status.PENDING? && row.provider.None?
    requires forall m :: 0 <= m < |s.rows| ==> s.rows[m].key != row.key
    requires row.retryOf.Some? ==>
      var o := row.retryOf.value;
      o < |s.rows| && s.rows[o].status.FAILED? && s.rows[o].key.shop == row.key.shop
    ensures ServerOk(s.(rows := s.rows + [row])) && |s.rows| !in s.calls
  {
    var s' := s.(rows := s.rows + [row]);
    assert |s.rows| !in s.calls;
    forall k | 0 <= k < |s'.rows| ensures RowOk(s', k) { if k < |s.rows| { assert RowOk(s, k); } }
  }

  lemma UpdateRow(s: Server, m: MessageId, row: Message)
    requires ServerOk(s) && m < |s.rows| && !s.rows[m].status.FAILED?
    requires row.key == s.rows[m].key && row.retryOf == s.rows[m].retryOf
    requires row.status.FAILED? ==> row.provider.None? && m in s.replies && Definite(s.replies[m])
    requires row.provider.Some? ==> !row.status.PENDING? && m in s.replies && s.replies[m] == Accepted(row.provider.value)
    requires row.provider.None? ==> row.status.PENDING? || row.status.FAILED?
    ensures ServerOk(s.(rows := s.rows[m := row]))
  {
    var s' := s.(rows := s.rows[m := row]);
    forall k | 0 <= k < |s'.rows| ensures RowOk(s', k) {
      assert RowOk(s, k);
      assert RowOk(s, m);
    }
  }

  lemma ProceedGood(r: Request, m: MessageId, stage: Stage, s: Server)
    requires ServerOk(s) && m < |s.rows| && m !in s.calls && s.rows[m].status.PENDING? && s.rows[m].provider.None?
    ensures
      var (pc', s') := Proceed(r, m, stage, s);
      ServerOk(s') && Progress(pc', s') && ReplyOk(pc', s') && Touches(s, s', m) && Owned(pc') == Some(m) && s'.rows == s.rows
  {
    AppendCall(s, m);
  }

  /** The row that a fresh claim inserts. */
  lemma CreatedGood(s: Server, r: Request)
    requires ServerOk(s) && ClaimIntent(s.rows, r).0.Created?
    ensures ServerOk(s.(rows := ClaimIntent(s.rows, r).1)) && |s.rows| !in s.calls
    ensures Touches(s, s.(rows := ClaimIntent(s.rows, r).1), |s.rows|)
  {
    var rows := ClaimIntent(s.rows, r).1;
    var row := rows[|s.rows|];
    assert rows == s.rows + [row];
    InsertRow(s, row);
  }

  lemma FreshClaimGood(r: Request, s: Server)
    requires ServerOk(s) && ClaimIntent(s.rows, r).0.Created?
    ensures
      var (pc', s') := Proceed(r, |s.rows|, Claim, s.(rows := ClaimIntent(s.rows, r).1));
      TurnGood(Asking(Claim), s, pc', s')
  {
    CreatedGood(s, r);
    ProceedGood(r, |s.rows|, Claim, s.(rows := ClaimIntent(s.rows, r).1));
  }

  lemma RefusedClaimGood(s: Server, s': Server, reply: Reply)
    requires ServerOk(s') && Touches(s, s', |s.rows|) && (reply.Refused? || reply.Uncertain503? || ReplyOk(Responded(reply), s'))
    ensures TurnGood(Asking(Claim), s, Responded(reply), s')
  {
  }

  lemma ClaimGood(r: Request, s: Server, a: Answer)
    requires ServerOk(s)
    ensures TurnGood(Asking(Claim), s, ClaimTurn(r, s, a).0, ClaimTurn(r, s, a).1)
  {
    var claimed := ClaimIntent(s.rows, r).0;
    var (pc', s') := ClaimTurn(r, s, a);
    if claimed.Created? { CreatedGood(s, r); }
    if claimed.Created? && a.Stored? && a.delivery.Heard? {
      FreshClaimGood(r, s);
    } else {
      RefusedClaimGood(s, s', pc'.reply);
    }
  }

  lemma AttachGood(m: MessageId, provider: string, s: Server)
    requires ServerOk(s) && Progress(AwaitAttach(m, provider), s)
    ensures !s.rows[m].status.FAILED? && ServerOk(s.(rows := AttachProvider(s.rows, m, provider)))
  {
    assert RowOk(s, m);
    UpdateRow(s, m, s.rows[m].(provider := Some(provider), status := SENT));
  }

  lemma FailGood(m: MessageId, status: nat, s: Server)
    requires ServerOk(s) && Progress(AwaitFail(m, status), s)
    ensures Failable(s.rows, m) && ServerOk(s.(rows := FailIntent(s.rows, m)))
  {
    UpdateRow(s, m, s.rows[m].(status := FAILED));
  }

  lemma AskGood(r: Request, stage: Stage, s: Server, a: Answer)
    requires ServerOk(s)
    ensures TurnGood(Asking(stage), s, Turn(r, Asking(stage), s, a).0, Turn(r, Asking(stage), s, a).1)
  {
    if stage.Claim? { ClaimGood(r, s, a); }
  }

  lemma PrepareGood(r: Request, m: MessageId, stage: Stage, s: Server, a: Answer)
    requires ServerOk(s) && Progress(Preparing(m, stage), s)
    ensures TurnGood(Preparing(m, stage), s, Turn(r, Preparing(m, stage), s, a).0, Turn(r, Preparing(m, stage), s, a).1)
  {
    ProceedGood(r, m, stage, s);
  }

  lemma AttachTurnGood(r: Request, m: MessageId, provider: string, s: Server, a: Answer)
    requires ServerOk(s) && Progress(AwaitAttach(m, provider), s)
    ensures TurnGood(AwaitAttach(m, provider), s,
                     Turn(r, AwaitAttach(m, provider), s, a).0, Turn(r, AwaitAttach(m, provider), s, a).1)
  {
    AttachGood(m, provider, s);
  }

  lemma FailTurnGood(r: Request, m: MessageId, status: nat, s: Server, a: Answer)
    requires ServerOk(s) && Progress(AwaitFail(m, status), s)
    ensures TurnGood(AwaitFail(m, status), s, Turn(r, AwaitFail(m, status), s, a).0, Turn(r, AwaitFail(m, status), s, a).1)
  {
    FailGood(m, status, s);
  }

  lemma TurnIsGood(r: Request, pc: Pc, s: Server, a: Answer)
    requires ServerOk(s) && Progress(pc, s) && ReplyOk(pc, s)
    ensures TurnGood(pc, s, Turn(r, pc, s, a).0, Turn(r, pc, s, a).1)
  {
    match pc
    case Asking(stage) => AskGood(r, stage, s, a);
    case Preparing(m, stage) => PrepareGood(r, m, stage, s, a);
    case AwaitProvider(m) => ProviderGood(r, m, s, a);
    case AwaitAttach(m, provider) => AttachTurnGood(r, m, provider, s, a);
    case AwaitFail(m, status) => FailTurnGood(r, m, status, s, a);
    case Responded(_) =>
    case Crashed =>
  }

  lemma ProviderGood(r: Request, m: MessageId, s: Server, a: Answer)
    requires ServerOk(s) && Progress(AwaitProvider(m), s)
    ensures TurnGood(AwaitProvider(m), s, Turn(r, AwaitProvider(m), s, a).0, Turn(r, AwaitProvider(m), s, a).1)
  {
    var outcome := if a.Provider? then a.outcome else Unknown;
    assert RowOk(s, m);
    LearnReply(s, m, outcome);
  }

  lemma CallbackGood(s: Server, m: MessageId, status: Status)
    requires ServerOk(s) && m < |s.rows|
    ensures
      var s' := s.(rows := s.rows[m := Callback(s.rows[m], status)]);
      && ServerOk(s')
      && (forall k :: 0 <= k < |s.rows| && (s.rows[k].status.FAILED? || s.rows[k].provider.None?) ==> s'.rows[k] == s.rows[k])
  {
    assert RowOk(s, m);
    var row := Callback(s.rows[m], status);
    if row != s.rows[m] {
      UpdateRow(s, m, row);
    } else {
      assert s.rows[m := row] == s.rows;
    }
  }

  lemma EventKeepsWorldOk(w: World, e: Event)
    requires WorldOk(w) && Possible(w, e)
    ensures WorldOk(After(w, e))
  {
    var w' := After(w, e);
    match e {
      case Arrive(r) =>
      case Crash(i) =>
      case StatusCallback(m, status) => CallbackGood(w.server, m, status);
      case Step(i, a) => StepKeepsWorldOk(w, i, a);
    }
  }

  lemma StepKeepsWorldOk(w: World, i: nat, a: Answer)
    requires WorldOk(w) && Possible(w, Step(i, a))
    ensures WorldOk(After(w, Step(i, a)))
  {
    var w' := After(w, Step(i, a));
    var pc := w.handlers[i].pc;
    TurnIsGood(w.handlers[i].request, pc, w.server, a);
    var t := Target(pc, w.server);
    forall j | 0 <= j < |w.handlers| && j != i
      ensures Progress(w'.handlers[j].pc, w'.server) && ReplyOk(w'.handlers[j].pc, w'.server)
      ensures Owned(w'.handlers[j].pc) != Some(t)
    {
      assert w'.handlers[j] == w.handlers[j];
      assert Progress(w.handlers[j].pc, w.server);
      OthersUnaffected(w.handlers[j].pc, w.server, w'.server, t);
    }
  }

  ghost predicate Leads(w: World, history: seq<Event>, w': World)
    decreases |history|
  {
    if history == [] then w == w'
    else Possible(w, history[0]) && Leads(After(w, history[0]), history[1..], w')
  }

  lemma {:induction false} HistoryKeepsWorldOk(w: World, history: seq<Event>, w': World)
    requires WorldOk(w) && Leads(w, history, w')
    ensures WorldOk(w')
    decreases |history|
  {
    if history != [] {
      EventKeepsWorldOk(w, history[0]);
      HistoryKeepsWorldOk(After(w, history[0]), history[1..], w');
    }
  }

  /**
    At most one provider call per (shop, intent key), over every interleaving of concurrent and
    repeated requests, crashes and lost store replies.
   */
  lemma AtMostOnceSend(history: seq<Event>, w: World, i: nat, j: nat)
    requires Leads(START, history, w) && i < j < |w.server.calls|
    ensures w.server.calls[i] < |w.server.rows| && w.server.calls[j] < |w.server.rows|
    ensures w.server.rows[w.server.calls[i]].key != w.server.rows[w.server.calls[j]].key
  {
    HistoryKeepsWorldOk(START, history, w);
  }

  /**
    Settlement: each message gets at most one of attach and fail, only after its provider call, and
    exactly the one that the provider's answer leads to: attach under the ID of an acceptance, fail
    on a status of 400 or more, neither on anything else or while no answer is known; a 200 reply never carries a pending message
    without a provider ID; a rejection reply means the row is failed, and it stays so.
   */
  lemma SettlementSafety(history: seq<Event>, w: World)
    requires Leads(START, history, w)
    ensures forall i, j :: 0 <= i < j < |w.server.settlements| ==> w.server.settlements[i].message != w.server.settlements[j].message
    ensures forall m, provider :: Attach(m, provider) in w.server.settlements <==>
              m in w.server.replies && w.server.replies[m] == Accepted(provider)
    ensures forall m, status :: Fail(m, status) in w.server.settlements <==>
              m in w.server.replies && w.server.replies[m] == HttpStatus(status) && status >= 400
    ensures forall m :: m in w.server.replies ==> m in w.server.calls
    ensures forall i :: 0 <= i < |w.handlers| ==> ReplyOk(w.handlers[i].pc, w.server)
  {
    HistoryKeepsWorldOk(START, history, w);
  }

  /**
    An explicit retry never repeats an uncertain send: the message it retries is failed for good,
    on the strength of its own provider call having been answered with 400 or more.
   */
  lemma RetryFollowsDefiniteFailure(history: seq<Event>, w: World, m: MessageId)
    requires Leads(START, history, w) && m < |w.server.rows| && w.server.rows[m].retryOf.Some?
    ensures
      var o := w.server.rows[m].retryOf.value;
      && o < m && w.server.rows[o].status.FAILED? && w.server.rows[o].provider.None?
      && w.server.rows[o].key.shop == w.server.rows[m].key.shop
      && o in w.server.replies && w.server.replies[o].HttpStatus? && w.server.replies[o].status >= 400
  {
    HistoryKeepsWorldOk(START, history, w);
    assert RowOk(w.server, m);
    assert RowOk(w.server, w.server.rows[m].retryOf.value);
  }

  /**
    No blind resend: a claimed message whose handler has stopped is never called again, whatever
    requests arrive later; if it was pending without a provider ID then it stays so.
   */
  lemma {:induction false} NoBlindResend(w: World, m: MessageId, history: seq<Event>, w': World)
    requires WorldOk(w) && Leads(w, history, w') && m < |w.server.rows|
    requires forall i :: 0 <= i < |w.handlers| ==> Owned(w.handlers[i].pc) != Some(m)
    ensures m in w'.server.calls <==> m in w.server.calls
    ensures |w.server.rows| <= |w'.server.rows|
    ensures w.server.rows[m].provider.None? ==> w'.server.rows[m] == w.server.rows[m]
    decreases |history|
  {
    if history != [] {
      var mid := After(w, history[0]);
      EventKeepsWorldOk(w, history[0]);
      match history[0] {
        case Step(i, a) => TurnIsGood(w.handlers[i].request, w.handlers[i].pc, w.server, a);
        case StatusCallback(k, status) => CallbackGood(w.server, k, status);
        case _ =>
      }
      NoBlindResend(mid, m, history[1..], w');
    }
  }

  // ---- the object ----------------------------------------------------------------------------

  /** The path of `sendClaimedProviderMessage` through the turns above, when nothing runs in between. */
  ghost function SendPath(r: Request, m: MessageId, s: Server, outcome: ProviderOutcome, stored: Answer): (Pc, Server)
    requires m < |s.rows|
  {
    var called := s.(calls := s.calls + [m]);
    var (pc, s') := Turn(r, AwaitProvider(m), called, Provider(outcome));
    if pc.Responded? || !Fits(pc, s') then (pc, s') else Turn(r, pc, s', stored)
  }

  lemma ProviderCalled(r: Request, m: MessageId, s: Server, outcome: ProviderOutcome)
    requires ServerOk(s) && m < |s.rows| && m !in s.calls && s.rows[m].status.PENDING? && s.rows[m].provider.None?
    ensures
      var (pc, s') := Turn(r, AwaitProvider(m), s.(calls := s.calls + [m]), Provider(outcome));
      && ServerOk(s') && Progress(pc, s') && s'.rows == s.rows
      && pc == if outcome.Accepted? then AwaitAttach(m, outcome.id)
               else if Definite(outcome) then AwaitFail(m, outcome.status) else Responded(Uncertain503(m))
  {
    AppendCall(s, m);
    ProviderGood(r, m, s.(calls := s.calls + [m]), Provider(outcome));
  }

  class WhatsAppOutbound {
    var rows: seq<Message>
    var calls: seq<MessageId>
    var replies: map<MessageId, ProviderOutcome>
    var settlements: seq<Settlement>

    function State(): Server
      reads this
    {
      Server(rows, calls, replies, settlements)
    }

    constructor ()
      ensures State() == START.server && ServerOk(State())
    {
      rows, calls, replies, settlements := [], [], map[], [];
    }

    /** Insert the intent if its key is free; otherwise say what is there. */
    method Claim(r: Request) returns (claimed: Claimed)
      requires ServerOk(State())
      modifies this`rows
      ensures (claimed, rows) == ClaimIntent(old(rows), r) && ServerOk(State())
      ensures ClaimAnswered(old(rows), r, claimed, rows)
      ensures claimed.Created? ==> claimed.message !in calls
    {
      if r.Retry? {
        if !CanRetry(rows, r) { return Conflict; }
      }
      var content := if r.Retry? then rows[r.original].content else r.content;
      var retryOf := if r.Retry? then Some(r.original) else None;
      var found := FindKey(rows, r.key);
      if found.None? {
        var row := Message(r.key, content, r.sender, retryOf, PENDING, None);
        InsertRow(State(), row);
        claimed := Created(|rows|);
        rows := rows + [row];
      } else if rows[found.value].content == content && rows[found.value].sender == r.sender
                && (r.SendTemplate? || rows[found.value].retryOf == retryOf) {
        claimed := Existing(found.value);
      } else {
        claimed := Conflict;
      }
    }

    /** Attach the ID of an accepted message. */
    method Attach(r: Request, m: MessageId, provider: string, stored: Answer) returns (reply: Reply)
      requires ServerOk(State()) && Progress(AwaitAttach(m, provider), State())
      modifies this`rows
      ensures (Responded(reply), State()) == Turn(r, AwaitAttach(m, provider), old(State()), stored) && ServerOk(State())
      ensures rows == if !stored.Stored? || stored.delivery == Failed then old(rows)
                      else old(rows)[m := old(rows[m]).(provider := Some(provider), status := SENT)]
      ensures reply == if stored.Stored? && stored.delivery == Heard && stored.invariantHolds then Sent200(rows[m]) else Uncertain503(m)
    {
      AttachGood(m, provider, State());
      var delivery := if stored.Stored? then stored.delivery else Failed;
      var sent := rows[m].(provider := Some(provider), status := SENT);
      if !delivery.Failed? { rows := rows[m := sent]; }
      reply := if delivery.Heard? && stored.invariantHolds then Sent200(sent) else Uncertain503(m);
    }

    /** Record the refusal of a message; a refused message is not sent, so the reply is never a 200. */
    method MarkProviderFailure(r: Request, m: MessageId, status: nat, stored: Answer) returns (reply: Reply)
      requires ServerOk(State()) && Progress(AwaitFail(m, status), State())
      modifies this`rows
      ensures (Responded(reply), State()) == Turn(r, AwaitFail(m, status), old(State()), stored) && ServerOk(State())
      ensures rows == if !stored.Stored? || stored.delivery == Failed then old(rows) else old(rows)[m := old(rows[m]).(status := FAILED)]
      ensures reply == Rejected502(m) <==> stored.Stored? && stored.delivery == Heard
      ensures reply != Rejected502(m) ==> reply == if stored.Stored? && stored.errorCode.Some? then Refused(stored.errorCode.value) else Uncertain503(m)
    {
      FailGood(m, status, State());
      var delivery := if stored.Stored? then stored.delivery else Failed;
      var failable := Failable(rows, m);
      if !delivery.Failed? { rows := FailIntent(rows, m); }
      reply := if delivery.Heard? && failable then Rejected502(m)
               else if stored.Stored? && stored.errorCode.Some? then Refused(stored.errorCode.value)
               else Uncertain503(m);
    }

    /** Call the provider for a fresh claim, then attach its ID or record its refusal. */
    method SendClaimed(r: Request, m: MessageId, outcome: ProviderOutcome, stored: Answer) returns (reply: Reply)
      requires ServerOk(State()) && m < |rows| && m !in calls && rows[m].status.PENDING? && rows[m].provider.None?
      modifies this
      ensures (Responded(reply), State()) == SendPath(r, m, old(State()), outcome, stored) && ServerOk(State())
      ensures reply.Sent200? <==> outcome.Accepted? && stored.Stored? && stored.delivery == Heard && stored.invariantHolds
      ensures reply.Sent200? ==> reply.message == rows[m]
      ensures reply.Rejected502? <==> outcome.HttpStatus? && outcome.status >= 400 && stored.Stored? && stored.delivery == Heard
      ensures reply.Rejected502? ==> reply.id == m
      ensures reply.Refused? ==> outcome.HttpStatus? && outcome.status >= 400 && stored.Stored? && stored.errorCode == Some(reply.code)
      ensures reply.Uncertain503? ==> reply.id == m
      ensures rows == if !stored.Stored? || stored.delivery == Failed then old(rows)
                      else if outcome.Accepted? then old(rows)[m := old(rows[m]).(provider := Some(outcome.id), status := SENT)]
                      else if outcome.HttpStatus? && outcome.status >= 400 then old(rows)[m := old(rows[m]).(status := FAILED)]
                      else old(rows)
      ensures calls == old(calls) + [m]
    {
      ProviderCalled(r, m, State(), outcome);
      calls := calls + [m];
      replies := replies[m := outcome];
      if outcome.Accepted? {
        settlements := settlements + [Settlement.Attach(m, outcome.id)];
        reply := Attach(r, m, outcome.id, stored);
      } else if outcome.HttpStatus? && outcome.status >= 400 {
        settlements := settlements + [Fail(m, outcome.status)];
        reply := MarkProviderFailure(r, m, outcome.status, stored);
      } else {
        assert settlements + [] == settlements;
        reply := Uncertain503(m);
      }
    }
  }
}
