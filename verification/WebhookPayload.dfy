/**
  WhatsApp webhook payloads, the message store, and which of the messages a payload holds belong in
  the store, said of the payload itself.
 */
module WebhookPayload {
  import opened Wrappers

  datatype Key = Key(shop: string, providerMessageId: string)

  /** Optional strings are as `nonEmptyString` gives them; `phone` is the normalized sender, if valid. */
  datatype RawBody =
    | Text(body: Option<string>)
    | Binary(kind: string, mediaId: Option<string>, fileName: Option<string>)
    | Location(coordinates: Option<string>)
    | Other

  datatype RawMessage = RawMessage(id: Option<string>, from: Option<string>, phone: Option<string>, body: RawBody)

  /** `None` elements stand for array items that are not objects. */
  datatype Value = Value(phoneNumberId: Option<string>, messages: seq<Option<RawMessage>>)
  datatype Change = Change(isMessages: bool, value: Option<Value>)
  datatype Entry = Entry(changes: seq<Option<Change>>)

  type Payload = seq<Option<Entry>>

  /** A binary message, with what its verdict and its stored metadata depend on. */
  datatype Media = Media(key: Key, kind: string, id: string, fileName: Option<string>)

  /**
    What stays the same over redeliveries: the shop each channel resolves to, and for each binary
    message that passes validation the metadata of its stored object.
   */
  datatype Env = Env(channels: map<string, string>, accepted: map<Media, string>)

  datatype Row = TextRow(content: string) | MediaRow(meta: string, storedAt: int)

  type Store = map<Key, Row>

  /** A row without its storing time. */
  datatype View = TextView(content: string) | MediaView(meta: string)

  function ViewOf(row: Row): View {
    match row case TextRow(c) => TextView(c) case MediaRow(m, _) => MediaView(m)
  }

  /** A message in a payload: its entry, the change in it, and the message in that. */
  datatype Place = Place(entry: nat, change: nat, message: nat)

  /** In payload order. */
  predicate Before(p: Place, q: Place) {
    p.entry < q.entry
    || (p.entry == q.entry && (p.change < q.change || (p.change == q.change && p.message < q.message)))
  }

  /** The shop that the messages of a change are for. */
  function ShopOf(env: Env, c: Option<Change>): Option<string> {
    if c.Some? && c.value.isMessages && c.value.value.Some? && c.value.value.value.phoneNumberId.Some?
       && c.value.value.value.phoneNumberId.value in env.channels
    then Some(env.channels[c.value.value.value.phoneNumberId.value])
    else None
  }

  /**
    What a message holds for a key of its shop: it has that ID, a sender with a valid phone, and a
    text, or coordinates, or media that passes validation.
   */
  function HeldBy(env: Env, shop: string, m: Option<RawMessage>, key: Key): Option<View> {
    if m.None? || key.shop != shop || m.value.id != Some(key.providerMessageId) || m.value.from.None? || m.value.phone.None? then None
    else match m.value.body
      case Text(Some(body)) => Some(TextView(body))
      case Location(Some(coordinates)) => Some(TextView(coordinates))
      case Binary(kind, Some(id), fileName) =>
        if Media(key, kind, id, fileName) in env.accepted then Some(MediaView(env.accepted[Media(key, kind, id, fileName)])) else None
      case _ => None
  }

  /** What message `j` of a change holds for a key. */
  function HeldIn(env: Env, c: Option<Change>, j: nat, key: Key): Option<View> {
    if ShopOf(env, c).None? || |c.value.value.value.messages| <= j then None
    else HeldBy(env, ShopOf(env, c).value, c.value.value.value.messages[j], key)
  }

  /** What the message at a place of the payload holds for a key. */
  function HeldAt(env: Env, payload: Payload, p: Place, key: Key): Option<View> {
    if |payload| <= p.entry || payload[p.entry].None? || |payload[p.entry].value.changes| <= p.change then None
    else HeldIn(env, payload[p.entry].value.changes[p.change], p.message, key)
  }

  ghost predicate IsFirst(env: Env, payload: Payload, p: Place, key: Key) {
    HeldAt(env, payload, p, key).Some? && forall q :: Before(q, p) ==> HeldAt(env, payload, q, key).None?
  }

  /**
    The store has just the messages it had, as they were, and those the payload holds; of several
    under one key the first in payload order.
   */
  ghost predicate Ingested(env: Env, payload: Payload, before: Store, after: Store) {
    forall key ::
      && (key in after <==> key in before || exists p :: HeldAt(env, payload, p, key).Some?)
      && (key in before ==> after[key] == before[key])
      && (key in after && key !in before ==> exists p :: IsFirst(env, payload, p, key) && HeldAt(env, payload, p, key) == Some(ViewOf(after[key])))
  }
}
