/**
  What a claim answers, in terms of the rows and over whole runs: who gets a row back, who gets a
  conflict, how the status of a row moves, and which checks precede a claim and a provider call.
 */
module OutboundClaims {
  import opened Wrappers
  import opened OutboundDelivery

  /** The relation leaves no choice: it holds of the store's answer and of nothing else. */
  lemma ClaimExactly(s: Server, r: Request, claimed: Claimed, rows: seq<Message>)
    requires ServerOk(s)
    ensures ClaimAnswered(s.rows, r, claimed, rows) <==> ClaimIntent(s.rows, r) == (claimed, rows)
  {
    var (answer, after) := ClaimIntent(s.rows, r);
    if ClaimAnswered(s.rows, r, claimed, rows) && claimed.Created? {
      assert answer.Created?;
      assert rows == rows[..|s.rows|] + [rows[|s.rows|]] && after == after[..|s.rows|] + [after[|s.rows|]];
    }
  }

  /** Two requests ask for the same intent. */
  predicate SameIntent(q: Request, r: Request) {
    && q.key == r.key && q.sender == r.sender && (q.Retry? <==> r.Retry?)
    && if r.Retry? then q.original == r.original else q.content == r.content
  }

  /** A template with the sender and the content of a retry. */
  predicate TemplateOfRetry(q: Request, r: Request, rows: seq<Message>) {
    q.SendTemplate? && r.Retry? && q.sender == r.sender && r.original < |rows| && q.content == rows[r.original].content
  }

  /** From `s` to `s'` rows are only added; none changes its intent and no failed one changes at all. */
  ghost predicate KeepsIntents(s: Server, s': Server) {
    && |s.rows| <= |s'.rows|
    && forall m :: 0 <= m < |s.rows| ==>
         && s'.rows[m].key == s.rows[m].key && s'.rows[m].content == s.rows[m].content
         && s'.rows[m].sender == s.rows[m].sender && s'.rows[m].retryOf == s.rows[m].retryOf
         && Forward(s.rows[m].status, s'.rows[m].status)
  }

  /** The ways in which the status of a message may move. */
  predicate Forward(before: Status, after: Status) {
    match before
    case PENDING => true
    case SENT => after == SENT || after == DELIVERED || after == READ
    case DELIVERED => after == DELIVERED || after == READ
    case READ => after == READ
    case FAILED => after == FAILED
  }

  /**
    A callback takes effect exactly when it is for a row with a provider ID and moves it one of the
    seven ways forward.
   */
  lemma CallbackExactly(row: Message, status: Status)
    ensures Callback(row, status) == row || Callback(row, status) == row.(status := status)
    ensures Callback(row, status) != row <==>
            && row.provider.Some?
            && (row.status, status) in {(PENDING, SENT), (PENDING, DELIVERED), (PENDING, READ), (PENDING, FAILED),
                                        (SENT, DELIVERED), (SENT, READ), (DELIVERED, READ)}
  {
  }

  /** A claim leaves the rows that are there as they are. */
  lemma ClaimKeepsIntents(r: Request, s: Server, a: Answer)
    requires ServerOk(s)
    ensures KeepsIntents(s, ClaimTurn(r, s, a).1)
  {
    var rows := ClaimIntent(s.rows, r).1;
    assert |s.rows| <= |rows| && rows[..|s.rows|] == s.rows;
    forall m | 0 <= m < |s.rows| ensures rows[m] == s.rows[m] {
      assert rows[..|s.rows|][m] == s.rows[m];
    }
    assert ClaimTurn(r, s, a).1.rows in {s.rows, rows};
  }

  /** The calls before and after the claim change at most the row of their own message. */
  lemma TurnKeepsIntents(r: Request, pc: Pc, s: Server, a: Answer)
    requires ServerOk(s) && Progress(pc, s)
    ensures KeepsIntents(s, Turn(r, pc, s, a).1)
  {
    var s' := Turn(r, pc, s, a).1;
    match pc
    case Asking(stage) => if stage.Claim? { ClaimKeepsIntents(r, s, a); }
    case Preparing(m, stage) => assert s'.rows == s.rows;
    case AwaitProvider(m) => assert s'.rows == s.rows;
    case AwaitAttach(m, provider) =>
      assert s'.rows == s.rows || s'.rows == s.rows[m := s.rows[m].(provider := Some(provider), status := SENT)];
    case AwaitFail(m, status) =>
      assert s'.rows == s.rows || s'.rows == s.rows[m := s.rows[m].(status := FAILED)];
    case Responded(_) =>
    case Crashed =>
  }

  lemma EventKeepsIntents(w: World, e: Event)
    requires WorldOk(w) && Possible(w, e)
    ensures KeepsIntents(w.server, After(w, e).server)
  {
    match e {
      case Step(i, a) =>
        TurnKeepsIntents(w.handlers[i].request, w.handlers[i].pc, w.server, a);
      case StatusCallback(m, status) => CallbackExactly(w.server.rows[m], status);
      case _ =>
    }
  }

  lemma KeepsIntentsChain(s: Server, s1: Server, s2: Server)
    requires KeepsIntents(s, s1) && KeepsIntents(s1, s2)
    ensures KeepsIntents(s, s2)
  {
    forall m | 0 <= m < |s.rows| ensures Forward(s.rows[m].status, s2.rows[m].status) {
      assert Forward(s.rows[m].status, s1.rows[m].status) && Forward(s1.rows[m].status, s2.rows[m].status);
    }
  }

  /** Over every history the intent of a row stays and its status only moves forward. */
  lemma {:induction false} HistoryKeepsIntents(w: World, history: seq<Event>, w': World)
    requires WorldOk(w) && Leads(w, history, w')
    ensures WorldOk(w') && KeepsIntents(w.server, w'.server)
    decreases |history|
  {
    if history != [] {
      EventKeepsWorldOk(w, history[0]);
      EventKeepsIntents(w, history[0]);
      HistoryKeepsIntents(After(w, history[0]), history[1..], w');
      KeepsIntentsChain(w.server, After(w, history[0]).server, w'.server);
    }
  }

  /**
    Once the claim of a request has added a row, whether or not its reply arrived, every later claim
    of the same intent gets that row back and every claim of another intent under its key gets a
    conflict; only a template is also given the row of a retry with its content.
   */
  lemma RepetitionGetsItsRow(before: seq<Event>, w: World, i: nat, a: Answer, between: seq<Event>, w': World, q: Request)
    requires Leads(START, before, w) && i < |w.handlers| && w.handlers[i].pc == Asking(Claim)
    requires |After(w, Step(i, a)).server.rows| > |w.server.rows|
    requires Leads(After(w, Step(i, a)), between, w')
    requires q.key == w.handlers[i].request.key
    ensures
      var r, m := w.handlers[i].request, |w.server.rows|;
      && m < |w'.server.rows| && w'.server.rows[m].key == r.key
      && ClaimIntent(w'.server.rows, q) ==
           (if SameIntent(q, r) || TemplateOfRetry(q, r, w.server.rows) then Existing(m) else Conflict, w'.server.rows)
  {
    HistoryKeepsWorldOk(START, before, w);
    EventKeepsWorldOk(w, Step(i, a));
    ClaimAdds(w, i, a);
    HistoryKeepsIntents(After(w, Step(i, a)), between, w');
    RowIsGivenBack(w.server.rows, w.handlers[i].request, After(w, Step(i, a)).server.rows, w'.server, q);
  }

  lemma RowIsGivenBack(rows: seq<Message>, r: Request, rows1: seq<Message>, s: Server, q: Request)
    requires ClaimAnswered(rows, r, Created(|rows|), rows1) && ServerOk(s) && q.key == r.key
    requires KeepsIntents(Server(rows1, [], map[], []), s)
    ensures
      var m := |rows|;
      && m < |s.rows| && s.rows[m].key == r.key
      && ClaimIntent(s.rows, q) == (if SameIntent(q, r) || TemplateOfRetry(q, r, rows) then Existing(m) else Conflict, s.rows)
  {
    var m := |rows|;
    if r.Retry? {
      assert rows1[..m][r.original] == rows[r.original];
      assert s.rows[r.original].content == rows[r.original].content && s.rows[r.original].status == FAILED;
    }
    assert RowOk(s, m);
    if SameIntent(q, r) || TemplateOfRetry(q, r, rows) {
      ClaimExactly(s, q, Existing(m), s.rows);
    } else {
      assert !Asks(s.rows, q, s.rows[m]);
      ClaimExactly(s, q, Conflict, s.rows);
    }
  }

  /**
    A template is given the row of a retry, since its claim does not look at the lineage; a text with
    the same key, sender and content is not.
   */
  lemma TemplateGetsRetryRow(key: Key, other: Key, sender: string, content: string)
    requires key != other && key.shop == other.shop
    ensures
      var rows := [Message(other, content, sender, None, FAILED, None), Message(key, content, sender, Some(0), PENDING, None)];
      && ClaimIntent(rows[..1], Retry(key, sender, 0, false)) == (Created(1), rows)
      && ClaimIntent(rows, SendTemplate(key, sender, content)) == (Existing(1), rows)
      && ClaimIntent(rows, SendText(key, sender, content)) == (Conflict, rows)
  {
    var failed := Message(other, content, sender, None, FAILED, None);
    var rows := [failed, Message(key, content, sender, Some(0), PENDING, None)];
    assert rows[..1] == [failed] && [failed][..0] == [];
    assert FindKey([failed], key) == None && FindKey(rows, key) == Some(1);
    assert CanRetry([failed], Retry(key, sender, 0, false));
    assert rows == [failed] + [Message(key, content, sender, Some(0), PENDING, None)];
  }

  /** The claim that adds a row adds the one that its request asks for. */
  lemma ClaimAdds(w: World, i: nat, a: Answer)
    requires WorldOk(w) && i < |w.handlers| && w.handlers[i].pc == Asking(Claim)
    requires |After(w, Step(i, a)).server.rows| > |w.server.rows|
    ensures
      var r := w.handlers[i].request;
      && After(w, Step(i, a)).server.rows == ClaimIntent(w.server.rows, r).1
      && ClaimAnswered(w.server.rows, r, Created(|w.server.rows|), After(w, Step(i, a)).server.rows)
  {
  }

  /**
    What the handler of a claim says: one that failed or was not heard is never answered 200, and is
    not followed by a provider call; one that was heard is answered by what the store made of it.
   */
  lemma ClaimIsAnswered(w: World, i: nat, a: Answer)
    requires WorldOk(w) && i < |w.handlers| && w.handlers[i].pc == Asking(Claim)
    ensures
      var r, rows, w' := w.handlers[i].request, w.server.rows, After(w, Step(i, a));
      var heard, pc := a.Stored? && a.delivery == Heard, w'.handlers[i].pc;
      && (!a.Stored? || a.delivery == Failed ==> w'.server == w.server)
      && (a.Stored? && a.delivery == Lost ==> w'.server == w.server.(rows := ClaimIntent(rows, r).1))
      && (!heard ==> pc == Responded(Refused(if a.Stored? && a.errorCode.Some? then a.errorCode.value else 503)))
      && (heard ==>
            match ClaimIntent(rows, r).0
            case Created(m) => w'.server.rows == ClaimIntent(rows, r).1 && Owned(pc) == Some(m)
            case Existing(m) =>
              && w'.server == w.server
              && pc == Responded(if rows[m].status == PENDING && rows[m].provider == None then Uncertain503(m) else Sent200(rows[m]))
            case Conflict => w'.server == w.server && pc == Responded(Refused(409)))
  {
  }

  /**
    A check that does not pass ends the request: nothing in the store changes and no provider is
    called; after the claim only an expired download of media leaves its message as uncertain.
   */
  lemma RefusalEnds(w: World, i: nat, a: Answer)
    requires WorldOk(w) && i < |w.handlers| && a != Pass
    requires (w.handlers[i].pc.Asking? && w.handlers[i].pc.stage != Claim) || w.handlers[i].pc.Preparing?
    ensures
      var h, w' := w.handlers[i], After(w, Step(i, a));
      && w'.server == w.server
      && w'.handlers[i].pc ==
           Responded(if h.pc.Preparing? && h.request.SendMedia? && h.pc.stage == Download && a.Refuse? then Uncertain503(h.pc.message)
                     else Refused(if a.Refuse? then a.code else 503))
  {
  }

  // ---- checks before a claim and before a provider call --------------------------------------

  /** What has to pass, in order, until the provider is called; the claim itself is among it. */
  function Order(r: Request): seq<Stage> {
    match r
    case SendTemplate(_, _, _) => [Channel, Claim]
    case SendMedia(_, _, _) => [Operator, Policy, Inspection, Claim, Channel, Download]
    case Retry(_, _, _, ofMedia) => [Original, Operator, Policy, Channel, Claim] + if ofMedia then [MediaAccess, Download] else []
    case _ => [Operator, Policy, Channel, Claim]
  }

  /** At some moment of the history the handler asked this, and the answer was to pass. */
  ghost predicate Passed(history: seq<Event>, i: nat, stage: Stage) {
    exists k: nat, v: World :: k < |history| && PassesAt(history, k, v, i, stage)
  }

  ghost predicate PassesAt(history: seq<Event>, k: nat, v: World, i: nat, stage: Stage)
    requires k < |history|
  {
    && Leads(START, history[..k], v) && history[k] == Step(i, Pass) && i < |v.handlers|
    && (v.handlers[i].pc == Asking(stage) || (v.handlers[i].pc.Preparing? && v.handlers[i].pc.stage == stage))
  }

  ghost predicate Checked(history: seq<Event>, i: nat, r: Request, n: nat)
    requires n <= |Order(r)|
  {
    forall p :: 0 <= p < n && Order(r)[p] != Claim ==> Passed(history, i, Order(r)[p])
  }

  ghost predicate CheckedUpTo(history: seq<Event>, i: nat, r: Request, stage: Stage) {
    exists n: nat :: n < |Order(r)| && Order(r)[n] == stage && Checked(history, i, r, n)
  }

  ghost predicate CheckedAt(history: seq<Event>, i: nat, h: Handler) {
    match h.pc
    case Asking(stage) => CheckedUpTo(history, i, h.request, stage)
    case Preparing(_, stage) => CheckedUpTo(history, i, h.request, stage)
    case AwaitProvider(_) => Checked(history, i, h.request, |Order(h.request)|)
    case AwaitAttach(_, _) => Checked(history, i, h.request, |Order(h.request)|)
    case AwaitFail(_, _) => Checked(history, i, h.request, |Order(h.request)|)
    case _ => true
  }

  lemma {:induction false} LeadsSnoc(w: World, history: seq<Event>, w': World) returns (mid: World)
    requires history != [] && Leads(w, history, w')
    ensures Leads(w, history[..|history| - 1], mid)
    ensures Possible(mid, history[|history| - 1]) && After(mid, history[|history| - 1]) == w'
    decreases |history|
  {
    if |history| == 1 {
      mid := w;
    } else {
      mid := LeadsSnoc(After(w, history[0]), history[1..], w');
      assert history[1..][..|history| - 2] == history[..|history| - 1][1..];
    }
  }

  lemma {:induction false} LaterStillPassed(history: seq<Event>, e: Event, i: nat, h: Handler)
    requires CheckedAt(history, i, h)
    ensures CheckedAt(history + [e], i, h)
  {
    forall stage | Passed(history, i, stage) ensures Passed(history + [e], i, stage) {
      var k: nat, v :| k < |history| && PassesAt(history, k, v, i, stage);
      assert (history + [e])[..k] == history[..k];
      assert PassesAt(history + [e], k, v, i, stage);
    }
    match h.pc
    case Asking(stage) => CheckedStays(history, history + [e], i, h.request, stage);
    case Preparing(_, stage) => CheckedStays(history, history + [e], i, h.request, stage);
    case _ =>
  }

  lemma {:induction false} CheckedStays(history: seq<Event>, later: seq<Event>, i: nat, r: Request, stage: Stage)
    requires CheckedUpTo(history, i, r, stage)
    requires forall g :: Passed(history, i, g) ==> Passed(later, i, g)
    ensures CheckedUpTo(later, i, r, stage)
  {
    var n: nat :| n < |Order(r)| && Order(r)[n] == stage && Checked(history, i, r, n);
    assert Checked(later, i, r, n);
  }

  /** One more passed stage, or the claim: the handler is where `Order` says, or past its end. */
  lemma {:induction false} NextIsChecked(history: seq<Event>, i: nat, r: Request, stage: Stage)
    requires CheckedUpTo(history, i, r, stage) && (stage == Claim || Passed(history, i, stage))
    ensures NextStage(r, stage).Some? ==> CheckedUpTo(history, i, r, NextStage(r, stage).value)
    ensures NextStage(r, stage).None? ==> Checked(history, i, r, |Order(r)|)
  {
    var n: nat :| n < |Order(r)| && Order(r)[n] == stage && Checked(history, i, r, n);
    assert Checked(history, i, r, n + 1);
    OrderIsNextStage(r, n);
  }

  lemma OrderIsNextStage(r: Request, n: nat)
    requires n < |Order(r)|
    ensures NextStage(r, Order(r)[n]) == if n + 1 < |Order(r)| then Some(Order(r)[n + 1]) else None
  {
  }

  lemma {:induction false} StepIsChecked(history: seq<Event>, w: World, i: nat, a: Answer)
    requires Leads(START, history, w) && Possible(w, Step(i, a)) && CheckedAt(history, i, w.handlers[i])
    ensures CheckedAt(history + [Step(i, a)], i, After(w, Step(i, a)).handlers[i])
  {
    var h, later := w.handlers[i], history + [Step(i, a)];
    LaterStillPassed(history, Step(i, a), i, h);
    if a == Pass && (h.pc.Asking? || h.pc.Preparing?) {
      assert later[..|history|] == history;
      assert PassesAt(later, |history|, w, i, h.pc.stage);
      if h.pc.Preparing? || h.pc.stage != Claim { NextIsChecked(later, i, h.request, h.pc.stage); }
    } else if h.pc == Asking(Claim) {
      NextIsChecked(later, i, h.request, Claim);
    }
  }

  /**
    Whatever the interleaving, a handler that is about to claim, or that has called the provider,
    had every check before it pass in the order given; in particular no text, media or location is
    claimed unless the operator and the free-form window passed.
   */
  lemma {:induction false} ChecksPrecede(history: seq<Event>, w: World, i: nat)
    requires Leads(START, history, w) && i < |w.handlers|
    ensures CheckedAt(history, i, w.handlers[i])
    decreases |history|
  {
    if history != [] {
      var e, before := history[|history| - 1], history[..|history| - 1];
      var mid := LeadsSnoc(START, history, w);
      assert history == before + [e];
      if i < |mid.handlers| {
        ChecksPrecede(before, mid, i);
        if e.Step? && e.i == i {
          StepIsChecked(before, mid, i, e.answer);
        } else {
          LaterStillPassed(before, e, i, mid.handlers[i]);
        }
      } else {
        var r := w.handlers[i].request;
        assert Order(r)[0] == FirstStage(r) && Checked(history, i, r, 0);
      }
    }
  }
}
