/** The two collections a send writes to, as an abstract document store.

    - `messages/{owner}/{peer}/{auto-id}`: the log of one participant's view
      of a conversation, here a sequence per `(owner, peer)` key in write order.
    - `recent_messages/{owner}/messages/{peer}`: one summary row per
      `(owner, peer)` key, overwritten on every send. */
module MessageStore {
  import opened Firestore

  /** `(owner, peer)`: the partition key of both collections. */
  type Key = (string, string)

  /** The key the other participant uses for the same conversation. */
  function Swap(k: Key): Key
  {
    (k.1, k.0)
  }

  /** One message document: the dictionary `messageData` of `handleSend`. */
  datatype StoredMessage = StoredMessage(fromId: string, toId: string, text: string, timestamp: int)

  /** One recent-conversation row: the dictionary of `persistRecentMessage`. */
  datatype RecentEntry = RecentEntry(
    timestamp: int,
    text: string,
    fromId: string,
    toId: string,
    profileImageURL: string,
    email: string,
    status: bool)

  datatype Store = Store(messages: map<Key, seq<StoredMessage>>, recent: map<Key, RecentEntry>)

  const EmptyStore := Store(map[], map[])

  /** The documents under one conversation key; a key never written holds none. */
  function Log(st: Store, k: Key): seq<StoredMessage>
  {
    if k in st.messages then st.messages[k] else []
  }

  /** The document dictionary a stored message is written as. */
  function MessageData(m: StoredMessage): (d: Data)
    ensures d.Keys == {FromIdKey, ToIdKey, TextKey, TimestampKey}
    ensures FromIdKey in d && d[FromIdKey] == StringValue(m.fromId)
    ensures ToIdKey in d && d[ToIdKey] == StringValue(m.toId)
    ensures TextKey in d && d[TextKey] == StringValue(m.text)
    ensures StringField(d, FromIdKey) == m.fromId
    ensures StringField(d, ToIdKey) == m.toId
    ensures StringField(d, TextKey) == m.text
    ensures TimestampKey in d && d[TimestampKey] == TimestampValue(m.timestamp)
  {
    map[FromIdKey := StringValue(m.fromId), ToIdKey := StringValue(m.toId),
        TextKey := StringValue(m.text), TimestampKey := TimestampValue(m.timestamp)]
  }

  /** `document().setData(...)` on a fresh auto-id document: the log under
      `k` gains `m` at its end and nothing else in the store changes. */
  function AddMessage(st: Store, k: Key, m: StoredMessage): (r: Store)
    ensures Log(r, k) == Log(st, k) + [m]
    ensures forall k' :: k' != k ==> Log(r, k') == Log(st, k')
    ensures r.messages - {k} == st.messages - {k}
    ensures r.recent == st.recent
  {
    st.(messages := st.messages[k := Log(st, k) + [m]])
  }

  /** `document(k).setData(e)`: the row under `k` becomes `e`, whatever it
      held before, and nothing else in the store changes. */
  function SetRecent(st: Store, k: Key, e: RecentEntry): (r: Store)
    ensures k in r.recent && r.recent[k] == e
    ensures r.recent - {k} == st.recent - {k}
    ensures r.messages == st.messages
  {
    st.(recent := st.recent[k := e])
  }

  /** Both participants see the same conversation: the log under `(a, b)` is
      the log under `(b, a)`, and the two recent rows exist together and agree. */
  ghost predicate Mirrored(st: Store)
  {
    && (forall k :: Log(st, Swap(k)) == Log(st, k))
    && (forall k :: k in st.recent ==> Swap(k) in st.recent && st.recent[Swap(k)] == st.recent[k])
  }

  lemma EmptyStoreMirrored()
    ensures Mirrored(EmptyStore)
  {
  }
}
