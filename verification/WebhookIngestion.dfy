/**
  Ingestion of WhatsApp webhook payloads. A delivery stops at the first transient failure and
  counts on the provider to deliver the whole payload again.
 */
module WebhookIngestion {
  import opened Wrappers
  import opened WebhookPayload

  /** One awaited unit of work of the nested loop. */
  datatype Work = Resolve(phoneNumberId: string) | PutText(key: Key, content: string) | PutMedia(media: Media)

  /** `translateProviderMessage` and the sender check: the work for one message, if any. */
  function MessageWork(shop: string, m: RawMessage): seq<Work> {
    if m.id.None? || m.from.None? then []
    else
      var key := Key(shop, m.id.value);
      var valid := m.phone.Some?;
      match m.body
      case Text(body) => if body.Some? && valid then [PutText(key, body.value)] else []
      case Binary(kind, mediaId, fileName) =>
        if mediaId.Some? && valid then [PutMedia(Media(key, kind, mediaId.value, fileName))] else []
      case Location(at) => if at.Some? && valid then [PutText(key, at.value)] else []
      case Other => []
  }

  function MessagesWork(shop: string, ms: seq<Option<RawMessage>>): seq<Work> {
    if ms == [] then []
    else
      var last := ms[|ms| - 1];
      MessagesWork(shop, ms[..|ms| - 1]) + if last.Some? then MessageWork(shop, last.value) else []
  }

  function Records(ms: seq<Option<RawMessage>>): nat {
    if ms == [] then 0 else Records(ms[..|ms| - 1]) + if ms[|ms| - 1].Some? then 1 else 0
  }

  function ChangeWork(env: Env, c: Change): seq<Work> {
    if !c.isMessages || c.value.None? || Records(c.value.value.messages) == 0 || c.value.value.phoneNumberId.None? then []
    else
      var id := c.value.value.phoneNumberId.value;
      [Resolve(id)] + if id in env.channels then MessagesWork(env.channels[id], c.value.value.messages) else []
  }

  function ChangesWork(env: Env, cs: seq<Option<Change>>): seq<Work> {
    if cs == [] then []
    else
      var last := cs[|cs| - 1];
      ChangesWork(env, cs[..|cs| - 1]) + if last.Some? then ChangeWork(env, last.value) else []
  }

  function PayloadWork(env: Env, es: Payload): seq<Work> {
    if es == [] then []
    else
      var last := es[|es| - 1];
      PayloadWork(env, es[..|es| - 1]) + if last.Some? then ChangesWork(env, last.value.changes) else []
  }

  // ---- one delivery --------------------------------------------------------------------------

  datatype Outcome = Fine | Throws | ThrowsAfterEffect

  /** How the awaited call of one unit of work ends, and the clock when its media is stored. */
  datatype Hear = Hear(outcome: Outcome, now: int)

  function InsertIfAbsent<R>(store: map<Key, R>, key: Key, row: R): map<Key, R> {
    if key in store then store else store[key := row]
  }

  /**
    Text rows are inserted if absent. The media materializer also inserts if absent, but raises a
    conflict when the row that is there differs in any field, the storing time among them.
   */
  function Do(env: Env, store: Store, w: Work, h: Hear): (Store, bool) {
    if h.outcome.Throws? then (store, false)
    else match w
      case Resolve(_) => (store, h.outcome.Fine?)
      case PutText(key, content) => (InsertIfAbsent(store, key, TextRow(content)), h.outcome.Fine?)
      case PutMedia(media) =>
        if media !in env.accepted then (store, h.outcome.Fine?)
        else
          var key, row := media.key, MediaRow(env.accepted[media], h.now);
          if key in store && store[key] != row then (store, false)
          else (InsertIfAbsent(store, key, row), h.outcome.Fine?)
  }

  /** The store after a delivery, and whether it was answered 200. */
  function Deliver(env: Env, store: Store, works: seq<Work>, heard: seq<Hear>): (Store, bool)
    requires |works| <= |heard|
  {
    if works == [] then (store, true)
    else
      var n := |works| - 1;
      var before := Deliver(env, store, works[..n], heard);
      if before.1 then Do(env, before.0, works[n], heard[n]) else before
  }

  lemma {:induction false} FailureStops(env: Env, store: Store, works: seq<Work>, heard: seq<Hear>, n: nat)
    requires n <= |works| <= |heard| && !Deliver(env, store, works[..n], heard).1
    ensures Deliver(env, store, works, heard) == Deliver(env, store, works[..n], heard)
    decreases |works|
  {
    if n == |works| {
      assert works[..n] == works;
    } else {
      var shorter := works[..|works| - 1];
      assert shorter[..n] == works[..n];
      FailureStops(env, store, shorter, heard, n);
    }
  }

  // ---- convergence ---------------------------------------------------------------------------

  function Erase(store: Store): map<Key, View> {
    map k | k in store :: ViewOf(store[k])
  }

  /** The messages a list of work stands for, inserted if absent: one failure-free delivery. */
  function Ideal(env: Env, v: map<Key, View>, works: seq<Work>): map<Key, View> {
    if works == [] then v
    else
      var before := Ideal(env, v, works[..|works| - 1]);
      match works[|works| - 1]
      case Resolve(_) => before
      case PutText(key, content) => InsertIfAbsent(before, key, TextView(content))
      case PutMedia(media) =>
        if media in env.accepted then InsertIfAbsent(before, media.key, MediaView(env.accepted[media])) else before
  }

  /** The first unit of work that inserts under `key`. */
  function First(env: Env, works: seq<Work>, key: Key): Option<View> {
    if works == [] then None
    else
      var earlier := First(env, works[..|works| - 1], key);
      if earlier.Some? then earlier
      else match works[|works| - 1]
        case Resolve(_) => None
        case PutText(k, content) => if k == key then Some(TextView(content)) else None
        case PutMedia(media) => if media.key == key && media in env.accepted then Some(MediaView(env.accepted[media])) else None
  }

  lemma {:induction false} IdealPointwise(env: Env, v: map<Key, View>, works: seq<Work>, key: Key)
    ensures key in Ideal(env, v, works) <==> key in v || First(env, works, key).Some?
    ensures key in v ==> Ideal(env, v, works)[key] == v[key]
    ensures key !in v && First(env, works, key).Some? ==> Ideal(env, v, works)[key] == First(env, works, key).value
  {
    if works != [] { IdealPointwise(env, v, works[..|works| - 1], key); }
  }

  lemma {:induction false} FirstOfPrefix(env: Env, works: seq<Work>, n: nat, key: Key)
    requires n <= |works| && First(env, works[..n], key).Some?
    ensures First(env, works, key) == First(env, works[..n], key)
    decreases |works|
  {
    if n == |works| {
      assert works[..n] == works;
    } else {
      assert works[..|works| - 1][..n] == works[..n];
      FirstOfPrefix(env, works[..|works| - 1], n, key);
    }
  }

  /** Delivering again after any prefix has been applied adds just what is missing. */
  lemma PrefixIsAbsorbed(env: Env, v: map<Key, View>, works: seq<Work>, n: nat, m: nat)
    requires n <= |works| && m <= |works|
    ensures var k := if n < m then m else n;
            Ideal(env, Ideal(env, v, works[..n]), works[..m]) == Ideal(env, v, works[..k])
  {
    var k := if n < m then m else n;
    var left, right := Ideal(env, Ideal(env, v, works[..n]), works[..m]), Ideal(env, v, works[..k]);
    forall key
      ensures key in left <==> key in right
      ensures key in left ==> left[key] == right[key]
    {
      IdealPointwise(env, v, works[..n], key);
      IdealPointwise(env, Ideal(env, v, works[..n]), works[..m], key);
      IdealPointwise(env, v, works[..k], key);
      assert works[..k][..n] == works[..n] && works[..k][..m] == works[..m];
      if First(env, works[..n], key).Some? { FirstOfPrefix(env, works[..k], n, key); }
      if First(env, works[..m], key).Some? { FirstOfPrefix(env, works[..k], m, key); }
    }
  }

  lemma EraseInsert(store: Store, key: Key, row: Row)
    ensures Erase(InsertIfAbsent(store, key, row)) == InsertIfAbsent(Erase(store), key, ViewOf(row))
  {
    var left, right := Erase(InsertIfAbsent(store, key, row)), InsertIfAbsent(Erase(store), key, ViewOf(row));
    forall k
      ensures k in left <==> k in right
      ensures k in left ==> left[k] == right[k]
    {
    }
  }

  lemma IdealNext(env: Env, v: map<Key, View>, before: seq<Work>, w: Work)
    ensures w.PutText? ==> Ideal(env, v, before + [w]) == InsertIfAbsent(Ideal(env, v, before), w.key, TextView(w.content))
    ensures w.PutMedia? && w.media in env.accepted ==>
      Ideal(env, v, before + [w]) == InsertIfAbsent(Ideal(env, v, before), w.media.key, MediaView(env.accepted[w.media]))
    ensures w.Resolve? || (w.PutMedia? && w.media !in env.accepted) ==> Ideal(env, v, before + [w]) == Ideal(env, v, before)
  {
    assert (before + [w])[..|before|] == before;
  }

  lemma DoAppliesOrNot(env: Env, store: Store, w: Work, h: Hear, v: map<Key, View>, before: seq<Work>)
    requires Erase(store) == Ideal(env, v, before)
    ensures
      var (store', ok) := Do(env, store, w, h);
      && (Erase(store') == Ideal(env, v, before) || Erase(store') == Ideal(env, v, before + [w]))
      && (ok ==> Erase(store') == Ideal(env, v, before + [w]))
  {
    IdealNext(env, v, before, w);
    if w.PutText? {
      EraseInsert(store, w.key, TextRow(w.content));
    } else if w.PutMedia? && w.media in env.accepted {
      EraseInsert(store, w.media.key, MediaRow(env.accepted[w.media], h.now));
    }
  }

  /** Each delivery applies a prefix of the payload's effects, and all of it when it is answered 200. */
  lemma {:induction false} DeliveryAppliesPrefix(env: Env, store: Store, works: seq<Work>, heard: seq<Hear>) returns (k: nat)
    requires |works| <= |heard|
    ensures k <= |works| && Erase(Deliver(env, store, works, heard).0) == Ideal(env, Erase(store), works[..k])
    ensures Deliver(env, store, works, heard).1 ==> k == |works|
  {
    if works == [] {
      k := 0;
    } else {
      var n := |works| - 1;
      var before := Deliver(env, store, works[..n], heard);
      k := DeliveryAppliesPrefix(env, store, works[..n], heard);
      assert works[..n][..k] == works[..k];
      if before.1 {
        DoAppliesOrNot(env, before.0, works[n], heard[n], Erase(store), works[..n]);
        assert works[..n] + [works[n]] == works && works[..n + 1] == works;
        if Erase(Deliver(env, store, works, heard).0) == Ideal(env, Erase(store), works) { k := n + 1; }
      }
    }
  }

  /** A history of deliveries of one payload. */
  function Redeliver(env: Env, store: Store, works: seq<Work>, deliveries: seq<seq<Hear>>): (Store, bool)
    requires forall h :: h in deliveries ==> |works| <= |h|
  {
    if deliveries == [] then (store, false)
    else
      var n := |deliveries| - 1;
      assert deliveries[n] in deliveries;
      Deliver(env, Redeliver(env, store, works, deliveries[..n]).0, works, deliveries[n])
  }

  lemma {:induction false} HistoryAppliesPrefix(env: Env, store: Store, works: seq<Work>, deliveries: seq<seq<Hear>>) returns (k: nat)
    requires forall h :: h in deliveries ==> |works| <= |h|
    ensures k <= |works| && Erase(Redeliver(env, store, works, deliveries).0) == Ideal(env, Erase(store), works[..k])
    ensures Redeliver(env, store, works, deliveries).1 ==> k == |works|
  {
    if deliveries == [] {
      k := 0;
    } else {
      var n := |deliveries| - 1;
      assert deliveries[n] in deliveries;
      var before := HistoryAppliesPrefix(env, store, works, deliveries[..n]);
      var m := DeliveryAppliesPrefix(env, Redeliver(env, store, works, deliveries[..n]).0, works, deliveries[n]);
      PrefixIsAbsorbed(env, Erase(store), works, before, m);
      k := if before < m then m else before;
    }
  }

  /**
    Convergence: whatever deliveries failed before, and wherever, once one is answered 200 the
    messages are those of one failure-free delivery, media rows up to their storing time.
   */
  lemma RedeliveryConverges(env: Env, store: Store, payload: Payload, deliveries: seq<seq<Hear>>)
    requires forall h :: h in deliveries ==> |PayloadWork(env, payload)| <= |h|
    requires Redeliver(env, store, PayloadWork(env, payload), deliveries).1
    ensures Erase(Redeliver(env, store, PayloadWork(env, payload), deliveries).0) == Ideal(env, Erase(store), PayloadWork(env, payload))
  {
    var works := PayloadWork(env, payload);
    var k := HistoryAppliesPrefix(env, store, works, deliveries);
    assert works[..k] == works;
  }

  // ---- which messages a payload holds ---------------------------------------------------------

  lemma {:induction false} FirstOfConcat(env: Env, a: seq<Work>, b: seq<Work>, key: Key)
    ensures First(env, a + b, key) == if First(env, a, key).Some? then First(env, a, key) else First(env, b, key)
  {
    if b == [] {
      assert a + b == a;
    } else {
      var n := |b| - 1;
      assert (a + b)[..|a| + n] == a + b[..n];
      FirstOfConcat(env, a, b[..n], key);
    }
  }

  lemma FirstOfMessage(env: Env, shop: string, m: RawMessage, key: Key)
    ensures First(env, MessageWork(shop, m), key) == HeldBy(env, shop, Some(m), key)
  {
    var works := MessageWork(shop, m);
    if works != [] { assert works[..0] == [] && works == [works[0]]; }
  }

  lemma LastMessage(env: Env, shop: string, ms: seq<Option<RawMessage>>, key: Key)
    requires ms != []
    ensures
      var earlier := First(env, MessagesWork(shop, ms[..|ms| - 1]), key);
      First(env, MessagesWork(shop, ms), key) == if earlier.Some? then earlier else HeldBy(env, shop, ms[|ms| - 1], key)
  {
    var last, earlier := ms[|ms| - 1], MessagesWork(shop, ms[..|ms| - 1]);
    if last.Some? {
      FirstOfConcat(env, earlier, MessageWork(shop, last.value), key);
      FirstOfMessage(env, shop, last.value, key);
    } else {
      assert MessagesWork(shop, ms) == earlier;
    }
  }

  lemma {:induction false} FirstOfMessages(env: Env, shop: string, ms: seq<Option<RawMessage>>, key: Key) returns (j: nat)
    ensures First(env, MessagesWork(shop, ms), key).None? ==> forall i :: 0 <= i < |ms| ==> HeldBy(env, shop, ms[i], key).None?
    ensures First(env, MessagesWork(shop, ms), key).Some? ==>
      && j < |ms| && HeldBy(env, shop, ms[j], key) == First(env, MessagesWork(shop, ms), key)
      && forall i :: 0 <= i < j ==> HeldBy(env, shop, ms[i], key).None?
  {
    if ms == [] {
      j := 0;
    } else {
      var n := |ms| - 1;
      j := FirstOfMessages(env, shop, ms[..n], key);
      LastMessage(env, shop, ms, key);
      forall i | 0 <= i < n && HeldBy(env, shop, ms[..n][i], key).None? ensures HeldBy(env, shop, ms[i], key).None? {}
      if First(env, MessagesWork(shop, ms[..n]), key).None? { j := n; }
    }
  }

  lemma {:induction false} NoRecords(ms: seq<Option<RawMessage>>)
    requires Records(ms) == 0
    ensures forall i :: 0 <= i < |ms| ==> ms[i].None?
  {
    if ms != [] { NoRecords(ms[..|ms| - 1]); }
  }

  lemma FirstOfChange(env: Env, c: Change, key: Key) returns (j: nat)
    ensures First(env, ChangeWork(env, c), key).None? ==> forall i: nat :: HeldIn(env, Some(c), i, key).None?
    ensures First(env, ChangeWork(env, c), key).Some? ==>
      && HeldIn(env, Some(c), j, key) == First(env, ChangeWork(env, c), key)
      && forall i: nat :: i < j ==> HeldIn(env, Some(c), i, key).None?
  {
    j := 0;
    if ShopOf(env, Some(c)).Some? {
      var ms, shop := c.value.value.messages, ShopOf(env, Some(c)).value;
      var resolve := [Resolve(c.value.value.phoneNumberId.value)];
      assert resolve[..0] == [] && First(env, resolve, key).None?;
      FirstOfConcat(env, resolve, MessagesWork(shop, ms), key);
      if Records(ms) == 0 { NoRecords(ms); } else { j := FirstOfMessages(env, shop, ms, key); }
    } else if c.isMessages && c.value.Some? && c.value.value.phoneNumberId.Some? {
      var resolve := [Resolve(c.value.value.phoneNumberId.value)];
      assert resolve[..0] == [] && resolve + [] == resolve && First(env, resolve, key).None?;
    }
  }

  lemma {:induction false} FirstOfChanges(env: Env, cs: seq<Option<Change>>, key: Key) returns (i: nat, j: nat)
    ensures First(env, ChangesWork(env, cs), key).None? ==>
      forall k: nat, l: nat :: k < |cs| ==> HeldIn(env, cs[k], l, key).None?
    ensures First(env, ChangesWork(env, cs), key).Some? ==>
      && i < |cs| && HeldIn(env, cs[i], j, key) == First(env, ChangesWork(env, cs), key)
      && forall k: nat, l: nat :: k < |cs| && (k < i || (k == i && l < j)) ==> HeldIn(env, cs[k], l, key).None?
  {
    if cs == [] {
      i, j := 0, 0;
    } else {
      var n := |cs| - 1;
      i, j := FirstOfChanges(env, cs[..n], key);
      var works := if cs[n].Some? then ChangeWork(env, cs[n].value) else [];
      assert ChangesWork(env, cs) == ChangesWork(env, cs[..n]) + works;
      FirstOfConcat(env, ChangesWork(env, cs[..n]), works, key);
      forall k: nat, l: nat | k < n && HeldIn(env, cs[..n][k], l, key).None? ensures HeldIn(env, cs[k], l, key).None? {}
      if First(env, ChangesWork(env, cs[..n]), key).None? {
        i, j := n, 0;
        if cs[n].Some? { j := FirstOfChange(env, cs[n].value, key); }
      }
    }
  }

  lemma {:induction false} FirstOfPayload(env: Env, es: Payload, key: Key) returns (p: Place)
    ensures First(env, PayloadWork(env, es), key).None? ==> forall q :: HeldAt(env, es, q, key).None?
    ensures First(env, PayloadWork(env, es), key).Some? ==>
      IsFirst(env, es, p, key) && HeldAt(env, es, p, key) == First(env, PayloadWork(env, es), key)
  {
    if es == [] {
      p := Place(0, 0, 0);
    } else {
      var n := |es| - 1;
      p := FirstOfPayload(env, es[..n], key);
      var works := if es[n].Some? then ChangesWork(env, es[n].value.changes) else [];
      assert PayloadWork(env, es) == PayloadWork(env, es[..n]) + works;
      FirstOfConcat(env, PayloadWork(env, es[..n]), works, key);
      forall q: Place | q.entry != n ensures HeldAt(env, es, q, key) == HeldAt(env, es[..n], q, key) {}
      if First(env, PayloadWork(env, es[..n]), key).None? {
        var i, j := 0, 0;
        if es[n].Some? { i, j := FirstOfChanges(env, es[n].value.changes, key); }
        p := Place(n, i, j);
      } else {
        forall q: Place | Before(q, p) ensures HeldAt(env, es, q, key).None? { assert HeldAt(env, es[..n], q, key).None?; }
      }
    }
  }

  lemma {:induction false} DeliveryKeepsRows(env: Env, store: Store, works: seq<Work>, heard: seq<Hear>, key: Key)
    requires |works| <= |heard| && key in store
    ensures key in Deliver(env, store, works, heard).0 && Deliver(env, store, works, heard).0[key] == store[key]
  {
    if works != [] { DeliveryKeepsRows(env, store, works[..|works| - 1], heard, key); }
  }

  lemma {:induction false} RedeliveryKeepsRows(env: Env, store: Store, works: seq<Work>, deliveries: seq<seq<Hear>>, key: Key)
    requires (forall h :: h in deliveries ==> |works| <= |h|) && key in store
    ensures key in Redeliver(env, store, works, deliveries).0 && Redeliver(env, store, works, deliveries).0[key] == store[key]
  {
    if deliveries != [] {
      var n := |deliveries| - 1;
      assert deliveries[n] in deliveries;
      RedeliveryKeepsRows(env, store, works, deliveries[..n], key);
      DeliveryKeepsRows(env, Redeliver(env, store, works, deliveries[..n]).0, works, deliveries[n], key);
    }
  }

  /** A store that one failure-free delivery would give, with the old rows as they were, has ingested the payload. */
  lemma IdealIsIngested(env: Env, payload: Payload, before: Store, after: Store)
    requires Erase(after) == Ideal(env, Erase(before), PayloadWork(env, payload))
    requires forall key :: key in before ==> key in after && after[key] == before[key]
    ensures Ingested(env, payload, before, after)
  {
    forall key
      ensures key in after <==> key in before || exists p :: HeldAt(env, payload, p, key).Some?
      ensures key in after && key !in before ==> exists p :: IsFirst(env, payload, p, key) && HeldAt(env, payload, p, key) == Some(ViewOf(after[key]))
    {
      IdealPointwise(env, Erase(before), PayloadWork(env, payload), key);
      var p := FirstOfPayload(env, payload, key);
      assert key in after <==> key in Erase(after);
      assert key in before <==> key in Erase(before);
    }
  }

  /**
    What deliveries of a payload leave, once one of them is answered 200, said of the payload: key
    (shop, id) is in the store if and only if it was there before, or a change with a channel of that
    shop holds a message with that ID, a sender with a valid phone, and a text, coordinates or media
    that passes validation; its content is the old row's, or that of the first such message.
   */
  lemma AnsweredPayloadIsIngested(env: Env, store: Store, payload: Payload, deliveries: seq<seq<Hear>>)
    requires forall h :: h in deliveries ==> |PayloadWork(env, payload)| <= |h|
    requires Redeliver(env, store, PayloadWork(env, payload), deliveries).1
    ensures Ingested(env, payload, store, Redeliver(env, store, PayloadWork(env, payload), deliveries).0)
  {
    RedeliveryConverges(env, store, payload, deliveries);
    forall key | key in store
      ensures key in Redeliver(env, store, PayloadWork(env, payload), deliveries).0
           && Redeliver(env, store, PayloadWork(env, payload), deliveries).0[key] == store[key]
    {
      RedeliveryKeepsRows(env, store, PayloadWork(env, payload), deliveries, key);
    }
    IdealIsIngested(env, payload, store, Redeliver(env, store, PayloadWork(env, payload), deliveries).0);
  }

  /** The same of a single delivery. */
  lemma DeliveryIngests(env: Env, store: Store, payload: Payload, heard: seq<Hear>)
    requires |PayloadWork(env, payload)| <= |heard| && Deliver(env, store, PayloadWork(env, payload), heard).1
    ensures Ingested(env, payload, store, Deliver(env, store, PayloadWork(env, payload), heard).0)
  {
    assert [heard][..0] == [];
    AnsweredPayloadIsIngested(env, store, payload, [heard]);
  }

  // ---- when a redelivery can be answered 200 --------------------------------------------------

  ghost predicate NoFaults(heard: seq<Hear>) {
    forall h :: h in heard ==> h.outcome.Fine?
  }

  /** The row unit `i` of the work would write. */
  function RowFor(env: Env, works: seq<Work>, heard: seq<Hear>, i: nat): Option<(Key, Row)>
    requires i < |works| <= |heard|
  {
    match works[i]
    case Resolve(_) => None
    case PutText(key, content) => Some((key, TextRow(content)))
    case PutMedia(media) =>
      if media in env.accepted then Some((media.key, MediaRow(env.accepted[media], heard[i].now))) else None
  }

  /** The row a key holds before any of the work, or that the first unit of it among `n` writes. */
  function Holder(env: Env, store: Store, works: seq<Work>, heard: seq<Hear>, n: nat, key: Key): Option<Row>
    requires n <= |works| <= |heard|
  {
    if key in store then Some(store[key])
    else if n == 0 then None
    else
      var earlier := Holder(env, store, works, heard, n - 1, key);
      var row := RowFor(env, works, heard, n - 1);
      if earlier.Some? then earlier
      else if row.Some? && row.value.0 == key then Some(row.value.1) else None
  }

  /** No accepted media message meets a row that was stored at another time or with other content. */
  ghost predicate NoClash(env: Env, store: Store, works: seq<Work>, heard: seq<Hear>, n: nat)
    requires n <= |works| <= |heard|
  {
    forall i :: 0 <= i < n && works[i].PutMedia? && works[i].media in env.accepted ==>
      var held := Holder(env, store, works, heard, i, works[i].media.key);
      held.Some? ==> held.value == MediaRow(env.accepted[works[i].media], heard[i].now)
  }

  lemma {:induction false} HoldersAreRows(env: Env, store: Store, works: seq<Work>, heard: seq<Hear>, n: nat, key: Key)
    requires n <= |works| <= |heard| && NoFaults(heard) && Deliver(env, store, works[..n], heard).1
    ensures
      var now := Deliver(env, store, works[..n], heard).0;
      && (key in now <==> Holder(env, store, works, heard, n, key).Some?)
      && (key in now ==> now[key] == Holder(env, store, works, heard, n, key).value)
  {
    if n > 0 {
      assert works[..n][..n - 1] == works[..n - 1];
      HoldersAreRows(env, store, works, heard, n - 1, key);
      assert heard[n - 1] in heard;
    }
  }

  /**
    The exact condition: a delivery in which no call fails is answered 200 if and only if no
    accepted media message meets a row stored at another time.
   */
  lemma {:induction false} AnsweredExactlyWithoutClash(env: Env, store: Store, works: seq<Work>, heard: seq<Hear>, n: nat)
    requires n <= |works| <= |heard| && NoFaults(heard)
    ensures Deliver(env, store, works[..n], heard).1 <==> NoClash(env, store, works, heard, n)
  {
    if n > 0 {
      assert works[..n][..n - 1] == works[..n - 1];
      AnsweredExactlyWithoutClash(env, store, works, heard, n - 1);
      assert heard[n - 1] in heard;
      if Deliver(env, store, works[..n - 1], heard).1 && works[n - 1].PutMedia? {
        HoldersAreRows(env, store, works, heard, n - 1, works[n - 1].media.key);
      }
    }
  }

  /** A payload without accepted media is answered 200 as soon as no call fails, whatever came before. */
  lemma TextIsAnswered(env: Env, store: Store, works: seq<Work>, deliveries: seq<seq<Hear>>, heard: seq<Hear>)
    requires (forall h :: h in deliveries ==> |works| <= |h|) && |works| <= |heard| && NoFaults(heard)
    requires forall i :: 0 <= i < |works| && works[i].PutMedia? ==> works[i].media !in env.accepted
    ensures var before := Redeliver(env, store, works, deliveries).0; Deliver(env, before, works, heard).1
  {
    var before := Redeliver(env, store, works, deliveries).0;
    AnsweredExactlyWithoutClash(env, before, works, heard, |works|);
    assert works[..|works|] == works;
  }

  /** A picture that passes validation, and a text after it. */
  const PICTURE := Media(Key("shop", "picture"), "IMAGE", "media", None)
  const TEXT := Key("shop", "text")

  function StuckEnv(): Env {
    Env(map["phone" := "shop"], map[PICTURE := "meta"])
  }

  function StuckPayload(): Payload {
    [Some(Entry([Some(Change(true, Some(Value(Some("phone"), [
      Some(RawMessage(Some("picture"), Some("sender"), Some("sender"), Binary("IMAGE", Some("media"), None))),
      Some(RawMessage(Some("text"), Some("sender"), Some("sender"), Text(Some("hello"))))]))))]))]
  }

  lemma StuckWork()
    ensures PayloadWork(StuckEnv(), StuckPayload()) == StuckWorks()
  {
    var env := StuckEnv();
    var e := StuckPayload()[0];
    var c := e.value.changes[0];
    var m1, m2 := c.value.value.value.messages[0], c.value.value.value.messages[1];
    assert c.value.value.value.messages == [m1, m2] && [m1, m2][..1] == [m1] && [m1][..0] == [];
    assert MessageWork("shop", m1.value) == [PutMedia(PICTURE)];
    assert MessageWork("shop", m2.value) == [PutText(TEXT, "hello")];
    assert MessagesWork("shop", [m1]) == [PutMedia(PICTURE)];
    assert MessagesWork("shop", [m1, m2]) == [PutMedia(PICTURE), PutText(TEXT, "hello")];
    assert Records([m1]) == 1 && Records([m1, m2]) == 2;
    assert e.value.changes == [c] && [c][..0] == [];
    assert ChangesWork(env, [c]) == ChangeWork(env, c.value);
    assert StuckPayload() == [e] && [e][..0] == [];
    assert PayloadWork(env, [e]) == ChangesWork(env, [c]);
  }

  /**
    Redelivery does not always converge: a first delivery stores a picture at time 1 and then
    fails on the text after it; no later delivery at another time is answered 200, and the text is
    never stored.
   */
  lemma RedeliveryCanBeStuck(later: seq<seq<Hear>>)
    requires forall h: seq<Hear> :: h in later ==> |h| == 3 && h[1].now != 1
    ensures |PayloadWork(StuckEnv(), StuckPayload())| == 3
    ensures
      var first := [Hear(Fine, 0), Hear(Fine, 1), Hear(Throws, 1)];
      Redeliver(StuckEnv(), map[], PayloadWork(StuckEnv(), StuckPayload()), [first] + later)
        == (STUCK, false)
  {
    StuckWork();
    StuckAfter(later);
  }

  function StuckWorks(): seq<Work> {
    [Resolve("phone"), PutMedia(PICTURE), PutText(TEXT, "hello")]
  }

  const STUCK: Store := map[PICTURE.key := MediaRow("meta", 1)]

  /** The first delivery: the picture is stored, the text fails. */
  lemma StuckFirst()
    ensures Deliver(StuckEnv(), map[], StuckWorks(), [Hear(Fine, 0), Hear(Fine, 1), Hear(Throws, 1)]) == (STUCK, false)
  {
    var env, works, first := StuckEnv(), StuckWorks(), [Hear(Fine, 0), Hear(Fine, 1), Hear(Throws, 1)];
    assert works[..2][..1] == works[..1] && works[..1][..0] == [];
    assert Deliver(env, map[], works[..1], first) == (map[], true);
    assert Deliver(env, map[], works[..2], first) == (STUCK, true);
  }

  /** Every later delivery meets the stored picture before the text. */
  lemma {:induction false} StuckAgain(h: seq<Hear>)
    requires |h| == 3 && h[1].now != 1
    ensures Deliver(StuckEnv(), STUCK, StuckWorks(), h) == (STUCK, false)
  {
    var env, works := StuckEnv(), StuckWorks();
    assert works[..2][..1] == works[..1] && works[..1][..0] == [];
    assert Deliver(env, STUCK, works[..1], h).0 == STUCK;
    assert Deliver(env, STUCK, works[..2], h) == (STUCK, false);
    FailureStops(env, STUCK, works, h, 2);
  }

  lemma {:induction false} StuckAfter(later: seq<seq<Hear>>)
    requires forall h: seq<Hear> :: h in later ==> |h| == 3 && h[1].now != 1
    ensures
      var first := [Hear(Fine, 0), Hear(Fine, 1), Hear(Throws, 1)];
      Redeliver(StuckEnv(), map[], StuckWorks(), [first] + later) == (STUCK, false)
  {
    var first := [Hear(Fine, 0), Hear(Fine, 1), Hear(Throws, 1)];
    var all := [first] + later;
    if later == [] {
      assert all[..0] == [];
      StuckFirst();
    } else {
      var n := |later| - 1;
      assert all[..|all| - 1] == [first] + later[..n];
      StuckAfter(later[..n]);
      assert all[|all| - 1] == later[n] && later[n] in later;
      StuckAgain(later[n]);
    }
  }

  // ---- the nested loop -----------------------------------------------------------------------

  lemma {:induction false} DeliverWithFault(env: Env, store: Store, works: seq<Work>, more: seq<Work>, heard: seq<Hear>)
    requires works <= more && |more| <= |heard| && !Deliver(env, store, works, heard).1
    ensures Deliver(env, store, more, heard) == Deliver(env, store, works, heard)
  {
    assert more[..|works|] == works;
    FailureStops(env, store, more, heard, |works|);
  }

  lemma DeliverNext(env: Env, store: Store, done: seq<Work>, w: Work, heard: seq<Hear>)
    requires |done| < |heard| && Deliver(env, store, done, heard).1
    ensures Deliver(env, store, done + [w], heard) == Do(env, Deliver(env, store, done, heard).0, w, heard[|done|])
  {
    assert (done + [w])[..|done|] == done;
  }

  lemma {:induction false} MessagesPrefix(shop: string, ms: seq<Option<RawMessage>>, n: nat)
    requires n <= |ms|
    ensures MessagesWork(shop, ms[..n]) <= MessagesWork(shop, ms)
    decreases |ms|
  {
    if n < |ms| { assert ms[..|ms| - 1][..n] == ms[..n]; MessagesPrefix(shop, ms[..|ms| - 1], n); } else { assert ms[..n] == ms; }
  }

  lemma {:induction false} ChangesPrefix(env: Env, cs: seq<Option<Change>>, n: nat)
    requires n <= |cs|
    ensures ChangesWork(env, cs[..n]) <= ChangesWork(env, cs)
    decreases |cs|
  {
    if n < |cs| { assert cs[..|cs| - 1][..n] == cs[..n]; ChangesPrefix(env, cs[..|cs| - 1], n); } else { assert cs[..n] == cs; }
  }

  lemma {:induction false} PayloadPrefix(env: Env, es: Payload, n: nat)
    requires n <= |es|
    ensures PayloadWork(env, es[..n]) <= PayloadWork(env, es)
    decreases |es|
  {
    if n < |es| { assert es[..|es| - 1][..n] == es[..n]; PayloadPrefix(env, es[..|es| - 1], n); } else { assert es[..n] == es; }
  }

  /** The work of one more change, after `done` and the changes before. */
  lemma ChangesNext(env: Env, done: seq<Work>, cs: seq<Option<Change>>, i: nat)
    requires i < |cs|
    ensures cs[i].None? ==> ChangesWork(env, cs[..i + 1]) == ChangesWork(env, cs[..i])
    ensures cs[i].Some? ==>
              done + ChangesWork(env, cs[..i + 1]) == (done + ChangesWork(env, cs[..i])) + ChangeWork(env, cs[i].value)
    ensures done + ChangesWork(env, cs[..i + 1]) <= done + ChangesWork(env, cs)
    ensures |ChangesWork(env, cs[..i + 1])| <= |ChangesWork(env, cs)|
  {
    assert cs[..i + 1][..i] == cs[..i];
    ChangesPrefix(env, cs, i + 1);
  }

  /** The work of one more message, after `done` and the messages before. */
  lemma MessagesNext(shop: string, done: seq<Work>, ms: seq<Option<RawMessage>>, i: nat)
    requires i < |ms|
    ensures ms[i].None? || MessageWork(shop, ms[i].value) == [] ==> MessagesWork(shop, ms[..i + 1]) == MessagesWork(shop, ms[..i])
    ensures ms[i].Some? && MessageWork(shop, ms[i].value) != [] ==>
              done + MessagesWork(shop, ms[..i + 1]) == (done + MessagesWork(shop, ms[..i])) + [MessageWork(shop, ms[i].value)[0]]
    ensures done + MessagesWork(shop, ms[..i + 1]) <= done + MessagesWork(shop, ms)
    ensures |MessagesWork(shop, ms[..i + 1])| <= |MessagesWork(shop, ms)|
  {
    assert ms[..i + 1][..i] == ms[..i];
    MessagesPrefix(shop, ms, i + 1);
    if ms[i].Some? && MessageWork(shop, ms[i].value) != [] {
      assert MessageWork(shop, ms[i].value) == [MessageWork(shop, ms[i].value)[0]];
    }
  }

  /** Where a messages change with a channel ID has the resolution first, then its messages. */
  lemma ChangeResolves(env: Env, done: seq<Work>, c: Change)
    requires c.isMessages && c.value.Some? && Records(c.value.value.messages) > 0 && c.value.value.phoneNumberId.Some?
    ensures var id := c.value.value.phoneNumberId.value;
      && done + [Resolve(id)] <= done + ChangeWork(env, c)
      && |ChangeWork(env, c)| >= 1
      && (id !in env.channels ==> ChangeWork(env, c) == [Resolve(id)])
      && (id in env.channels ==>
            && done + ChangeWork(env, c) == (done + [Resolve(id)]) + MessagesWork(env.channels[id], c.value.value.messages)
            && |ChangeWork(env, c)| == 1 + |MessagesWork(env.channels[id], c.value.value.messages)|)
  {
  }

  class InboundStore {
    var messages: Store

    constructor ()
      ensures messages == map[]
    {
      messages := map[];
    }

    /** One awaited call; `false` makes the handler answer 503. */
    method Perform(env: Env, w: Work, h: Hear) returns (ok: bool)
      modifies this
      ensures (messages, ok) == Do(env, old(messages), w, h)
    {
      if h.outcome.Throws? { return false; }
      match w {
        case Resolve(_) =>
        case PutText(key, content) =>
          if key !in messages { messages := messages[key := TextRow(content)]; }
        case PutMedia(media) =>
          if media in env.accepted {
            var key, row := media.key, MediaRow(env.accepted[media], h.now);
            if key in messages {
              if messages[key] != row { return false; }
            } else {
              messages := messages[key := row];
            }
          }
      }
      ok := h.outcome.Fine?;
    }

    /** The messages of one change; `done` is the work of the delivery before them. */
    method HandleMessages(env: Env, shop: string, ms: seq<Option<RawMessage>>, heard: seq<Hear>, next: nat, ghost start: Store, ghost done: seq<Work>)
      returns (ok: bool, next': nat)
      requires next == |done| && |done| + |MessagesWork(shop, ms)| <= |heard|
      requires Deliver(env, start, done, heard) == (messages, true)
      modifies this
      ensures (messages, ok) == Deliver(env, start, done + MessagesWork(shop, ms), heard)
      ensures ok ==> next' == |done| + |MessagesWork(shop, ms)|
    {
      next' := next;
      assert done + MessagesWork(shop, ms[..0]) == done;
      for i := 0 to |ms|
        invariant next' == |done| + |MessagesWork(shop, ms[..i])| <= |heard|
        invariant Deliver(env, start, done + MessagesWork(shop, ms[..i]), heard) == (messages, true)
      {
        ghost var sofar := done + MessagesWork(shop, ms[..i]);
        MessagesNext(shop, done, ms, i);
        if ms[i].Some? && MessageWork(shop, ms[i].value) != [] {
          var w := MessageWork(shop, ms[i].value)[0];
          DeliverNext(env, start, sofar, w, heard);
          ok := Perform(env, w, heard[next']);
          if !ok {
            DeliverWithFault(env, start, sofar + [w], done + MessagesWork(shop, ms), heard);
            return;
          }
          next' := next' + 1;
        }
      }
      assert ms[..|ms|] == ms;
      ok := true;
    }

    /** One change of an entry. */
    method HandleChange(env: Env, c: Change, heard: seq<Hear>, next: nat, ghost start: Store, ghost done: seq<Work>)
      returns (ok: bool, next': nat)
      requires next == |done| && |done| + |ChangeWork(env, c)| <= |heard|
      requires Deliver(env, start, done, heard) == (messages, true)
      modifies this
      ensures (messages, ok) == Deliver(env, start, done + ChangeWork(env, c), heard)
      ensures ok ==> next' == |done| + |ChangeWork(env, c)|
    {
      assert done + [] == done;
      if !c.isMessages || c.value.None? { return true, next; }
      var value := c.value.value;
      if Records(value.messages) == 0 || value.phoneNumberId.None? { return true, next; }
      var w := Resolve(value.phoneNumberId.value);
      ChangeResolves(env, done, c);
      DeliverNext(env, start, done, w, heard);
      ok := Perform(env, w, heard[next]);
      if !ok {
        DeliverWithFault(env, start, done + [w], done + ChangeWork(env, c), heard);
        return false, next;
      }
      if w.phoneNumberId !in env.channels {
        return true, next + 1;
      }
      var shop := env.channels[w.phoneNumberId];
      ok, next' := HandleMessages(env, shop, value.messages, heard, next + 1, start, done + [w]);
    }

    /** The loop over the changes of one entry. */
    method HandleEntry(env: Env, cs: seq<Option<Change>>, heard: seq<Hear>, next: nat, ghost start: Store, ghost done: seq<Work>)
      returns (ok: bool, next': nat)
      requires next == |done| && |done| + |ChangesWork(env, cs)| <= |heard|
      requires Deliver(env, start, done, heard) == (messages, true)
      modifies this
      ensures (messages, ok) == Deliver(env, start, done + ChangesWork(env, cs), heard)
      ensures ok ==> next' == |done| + |ChangesWork(env, cs)|
    {
      next' := next;
      assert done + ChangesWork(env, cs[..0]) == done;
      for i := 0 to |cs|
        invariant next' == |done| + |ChangesWork(env, cs[..i])| <= |heard|
        invariant Deliver(env, start, done + ChangesWork(env, cs[..i]), heard) == (messages, true)
      {
        ghost var sofar := done + ChangesWork(env, cs[..i]);
        ChangesNext(env, done, cs, i);
        if cs[i].Some? {
          ok, next' := HandleChange(env, cs[i].value, heard, next', start, sofar);
          if !ok {
            DeliverWithFault(env, start, sofar + ChangeWork(env, cs[i].value), done + ChangesWork(env, cs), heard);
            return;
          }
        }
      }
      assert cs[..|cs|] == cs;
      ok := true;
    }

    /** `handleVerifiedPost` after parsing: answered 200 if `ok`, else 503. */
    method HandleVerifiedPost(env: Env, payload: Payload, heard: seq<Hear>) returns (ok: bool)
      requires |PayloadWork(env, payload)| <= |heard|
      modifies this
      ensures (messages, ok) == Deliver(env, old(messages), PayloadWork(env, payload), heard)
      ensures ok ==> Ingested(env, payload, old(messages), messages)
    {
      ghost var start := messages;
      var next := 0;
      for i := 0 to |payload|
        invariant next == |PayloadWork(env, payload[..i])| <= |heard|
        invariant Deliver(env, start, PayloadWork(env, payload[..i]), heard) == (messages, true)
      {
        ghost var sofar := PayloadWork(env, payload[..i]);
        assert payload[..i + 1][..i] == payload[..i];
        PayloadPrefix(env, payload, i + 1);
        if payload[i].Some? {
          ok, next := HandleEntry(env, payload[i].value.changes, heard, next, start, sofar);
          if !ok {
            DeliverWithFault(env, start, PayloadWork(env, payload[..i + 1]), PayloadWork(env, payload), heard);
            return;
          }
        } else {
          assert PayloadWork(env, payload[..i + 1]) == PayloadWork(env, payload[..i]);
        }
      }
      assert payload[..|payload|] == payload;
      DeliveryIngests(env, start, payload, heard);
      ok := true;
    }
  }
}
