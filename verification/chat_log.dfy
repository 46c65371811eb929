/** The chat screen's view model (`ChatLogViewModel`): the decoded message
    list fed by the conversation listener, the draft text, the last error and
    the scroll counter. The send half of the view model is in `ChatSend`. */
module ChatLog {
  import opened Wrappers
  import opened Firestore
  import opened Users
  import opened MessageStore

  /** One message as the chat screen shows it; its identity is `documentId`. */
  datatype ChatMessage = ChatMessage(documentId: string, fromId: string, toId: string, text: string)

  /** One document change delivered by the conversation listener. */
  datatype MessageChange = MessageChange(documentId: string, data: Data)

  datatype ChatLogState = ChatLogState(
    chatMessage: seq<ChatMessage>,
    chatText: string,
    errorMessage: string,
    count: int)

  /** The view model right after `init`: nothing received, nothing typed. */
  const InitialState := ChatLogState([], "", "", 0)

  /** `ChatMessage.init(documentId:data:)`. Decoding never fails: each of the
      three fields is the document's string under that name, or "" when the
      field is missing or holds something other than a string. */
  function Decode(documentId: string, data: Data): (m: ChatMessage)
    ensures m.documentId == documentId
    ensures FromIdKey in data && data[FromIdKey].StringValue? ==> m.fromId == data[FromIdKey].str
    ensures !(FromIdKey in data && data[FromIdKey].StringValue?) ==> m.fromId == ""
    ensures ToIdKey in data && data[ToIdKey].StringValue? ==> m.toId == data[ToIdKey].str
    ensures !(ToIdKey in data && data[ToIdKey].StringValue?) ==> m.toId == ""
    ensures TextKey in data && data[TextKey].StringValue? ==> m.text == data[TextKey].str
    ensures !(TextKey in data && data[TextKey].StringValue?) ==> m.text == ""
  {
    ChatMessage(documentId, StringField(data, FromIdKey), StringField(data, ToIdKey), StringField(data, TextKey))
  }

  /** Decoding reads only the three string fields: two documents that agree on
      them decode alike, whatever else they hold. */
  lemma DecodeReadsOnlyStringFields(id: string, d1: Data, d2: Data)
    requires StringField(d1, FromIdKey) == StringField(d2, FromIdKey)
    requires StringField(d1, ToIdKey) == StringField(d2, ToIdKey)
    requires StringField(d1, TextKey) == StringField(d2, TextKey)
    ensures Decode(id, d1) == Decode(id, d2)
  {
  }

  /** A message written by a send reads back with the sender, recipient and
      text it was written with. */
  lemma DecodeMessageData(id: string, m: StoredMessage)
    ensures Decode(id, MessageData(m)) == ChatMessage(id, m.fromId, m.toId, m.text)
  {
  }

  /** The messages a batch of changes decodes to, one per change, in
      delivery order. */
  function DecodeChanges(changes: seq<MessageChange>): (ms: seq<ChatMessage>)
    ensures |ms| == |changes|
    ensures forall i :: 0 <= i < |changes| ==> ms[i] == Decode(changes[i].documentId, changes[i].data)
  {
    if |changes| == 0 then []
    else [Decode(changes[0].documentId, changes[0].data)] + DecodeChanges(changes[1..])
  }

  /** The `documentChanges.forEach` loop of the listener: every change is
      decoded and appended, in order, with no check for an id already in the
      list. */
  method AppendChanges(messages: seq<ChatMessage>, changes: seq<MessageChange>) returns (r: seq<ChatMessage>)
    ensures |r| == |messages| + |changes|
    ensures r[..|messages|] == messages
    ensures forall i :: 0 <= i < |changes| ==> r[|messages| + i] == Decode(changes[i].documentId, changes[i].data)
    ensures r == messages + DecodeChanges(changes)
  {
    r := messages;
    var i := 0;
    while i < |changes|
      invariant 0 <= i <= |changes|
      invariant |r| == |messages| + i
      invariant r[..|messages|] == messages
      invariant forall j :: 0 <= j < i ==> r[|messages| + j] == Decode(changes[j].documentId, changes[j].data)
    {
      r := r + [Decode(changes[i].documentId, changes[i].data)];
      i := i + 1;
    }
  }

  /** The key whose log the chat screen listens to: the signed-in user's view
      of the conversation with the partner, or none when either is missing. */
  function ListenedKey(currentUid: Option<string>, chatUser: Option<ChatUser>): (k: Option<Key>)
    ensures k.Some? <==> currentUid.Some? && chatUser.Some?
    ensures k.Some? ==> k.value.0 == currentUid.value && k.value.1 == chatUser.value.uid
  {
    if currentUid.None? || chatUser.None? then None else Some((currentUid.value, chatUser.value.uid))
  }

  /** One callback of the conversation listener. An error replaces the error
      message and changes nothing else; a snapshot appends its decoded changes
      and bumps the scroll counter, even when the snapshot itself is absent. */
  function ApplyMessageEvent(s: ChatLogState, event: QueryResult<MessageChange>): (r: ChatLogState)
    ensures event.QueryFailed? ==>
      r.errorMessage == event.description && r.chatMessage == s.chatMessage
      && r.chatText == s.chatText && r.count == s.count
    ensures event.QueryDelivered? ==>
      r.errorMessage == s.errorMessage && r.chatText == s.chatText && r.count == s.count + 1
    ensures event.QueryDelivered? && event.snapshot.None? ==> r.chatMessage == s.chatMessage
    ensures event.QueryDelivered? && event.snapshot.Some? ==>
      var changes := event.snapshot.value;
      && |r.chatMessage| == |s.chatMessage| + |changes|
      && r.chatMessage[..|s.chatMessage|] == s.chatMessage
      && forall i :: 0 <= i < |changes| ==>
           r.chatMessage[|s.chatMessage| + i] == Decode(changes[i].documentId, changes[i].data)
  {
    match event
    case QueryFailed(description) => s.(errorMessage := description)
    case QueryDelivered(None) => s.(count := s.count + 1)
    case QueryDelivered(Some(changes)) =>
      s.(chatMessage := s.chatMessage + DecodeChanges(changes), count := s.count + 1)
  }

  /** There is no de-duplication: a change delivered twice shows up twice. */
  lemma RedeliveryDuplicates(s: ChatLogState, c: MessageChange)
    ensures var once := ApplyMessageEvent(s, QueryDelivered(Some([c])));
            var twice := ApplyMessageEvent(once, QueryDelivered(Some([c])));
            var m := Decode(c.documentId, c.data);
            twice.chatMessage == s.chatMessage + [m, m]
  {
  }
}
