/** `ChatLogViewModel.handleSend` together with `persistRecentMessage`, as one
    sequential transition of the view model and the document store.

    A send issues four independent writes, in this order: the sender's copy of
    the message, the sender's recent row, the recipient's recent row, the
    recipient's copy of the message. Each write either lands or fails on its
    own; a failure only sets the error message. Whatever happens to the writes,
    the draft is cleared and the scroll counter advances. */
module ChatSend {
  import opened Wrappers
  import opened Firestore
  import opened Users
  import opened MessageStore
  import opened ChatLog

  /** The inputs a send takes from outside the app: the two `Timestamp()`
      clock readings (one for the message dictionary, one for the recent-row
      dictionary) and the outcome of each of the four writes. */
  datatype SendEnv = SendEnv(
    messageTime: int,
    recentTime: int,
    senderCopy: WriteResult,
    senderRecent: WriteResult,
    recipientRecent: WriteResult,
    recipientCopy: WriteResult)

  datatype SendResult = SendResult(state: ChatLogState, store: Store)

  const SaveMessageFailure := "Failed to save message into Firestore: "

  predicate AllWritten(env: SendEnv)
  {
    && env.senderCopy.Written? && env.senderRecent.Written?
    && env.recipientRecent.Written? && env.recipientCopy.Written?
  }

  /** The message dictionary: one record, used for both copies. */
  function MessageRecord(fromId: string, partner: ChatUser, text: string, time: int): StoredMessage
  {
    StoredMessage(fromId, partner.uid, text, time)
  }

  /** The recent-row dictionary: one record, used for both rows. It carries
      the partner's email and avatar, whichever row it lands in. */
  function RecentRecord(fromId: string, partner: ChatUser, text: string, time: int): RecentEntry
  {
    RecentEntry(time, text, fromId, partner.uid, partner.profileImageURL, partner.email, true)
  }

  /** The error message after one write's completion handler has run. */
  function AfterWrite(errorMessage: string, w: WriteResult, prefix: string): (e: string)
    ensures w.Written? ==> e == errorMessage
    ensures w.WriteFailed? ==> e == prefix + w.description
  {
    if w.WriteFailed? then prefix + w.description else errorMessage
  }

  /** The error message after all four handlers have run, taken in the order
      the writes were issued: the last failure wins. */
  function ErrorAfterSend(errorMessage: string, env: SendEnv): (e: string)
    ensures AllWritten(env) ==> e == errorMessage
    ensures env.recipientCopy.WriteFailed? ==> e == SaveMessageFailure + env.recipientCopy.description
    ensures env.recipientCopy.Written? && env.recipientRecent.WriteFailed? ==>
      e == env.recipientRecent.description
    ensures env.recipientCopy.Written? && env.recipientRecent.Written? && env.senderRecent.WriteFailed? ==>
      e == env.senderRecent.description
    ensures env.recipientCopy.Written? && env.recipientRecent.Written? && env.senderRecent.Written?
            && env.senderCopy.WriteFailed? ==>
      e == SaveMessageFailure + env.senderCopy.description
  {
    var e1 := AfterWrite(errorMessage, env.senderCopy, SaveMessageFailure);
    var e2 := AfterWrite(e1, env.senderRecent, "");
    var e3 := AfterWrite(e2, env.recipientRecent, "");
    AfterWrite(e3, env.recipientCopy, SaveMessageFailure)
  }

  /** The store update of one write: applied when the write lands, skipped when it fails. */
  function WriteIf(w: WriteResult, before: Store, after: Store): Store
  {
    if w.Written? then after else before
  }

  /** The four writes of a send from `fromId` to `partner`, and the view-model
      update that follows them. */
  function FanOut(s: ChatLogState, st: Store, fromId: string, partner: ChatUser, env: SendEnv): (r: SendResult)
    // the draft is cleared and the counter advances whatever the writes do
    ensures r.state.chatText == "" && r.state.count == s.count + 1
    ensures r.state.chatMessage == s.chatMessage
    ensures r.state.errorMessage == ErrorAfterSend(s.errorMessage, env)
  {
    var toId := partner.uid;
    var m := MessageRecord(fromId, partner, s.chatText, env.messageTime);
    var e := RecentRecord(fromId, partner, s.chatText, env.recentTime);
    var st1 := WriteIf(env.senderCopy, st, AddMessage(st, (fromId, toId), m));
    var st2 := WriteIf(env.senderRecent, st1, SetRecent(st1, (fromId, toId), e));
    var st3 := WriteIf(env.recipientRecent, st2, SetRecent(st2, (toId, fromId), e));
    var st4 := WriteIf(env.recipientCopy, st3, AddMessage(st3, (toId, fromId), m));
    SendResult(
      s.(chatText := "", count := s.count + 1, errorMessage := ErrorAfterSend(s.errorMessage, env)),
      st4)
  }

  /** Removing more keys from two maps that agree off one key keeps them equal. */
  lemma AgreeOffKeys<K, V>(m1: map<K, V>, m2: map<K, V>, k: K, keys: set<K>)
    requires m1 - {k} == m2 - {k}
    requires k in keys
    ensures m1 - keys == m2 - keys
  {
    assert forall x :: x in m1 - keys ==> x in m1 - {k} && (m1 - keys)[x] == (m1 - {k})[x];
    assert forall x :: x in m2 - keys ==> x in m2 - {k} && (m2 - keys)[x] == (m2 - {k})[x];
  }

  /** A send touches the two conversation keys and no other key of either collection. */
  lemma FanOutTouchesOnlyConversation(s: ChatLogState, st: Store, fromId: string, partner: ChatUser, env: SendEnv)
    ensures var r := FanOut(s, st, fromId, partner, env);
            var keys := {(fromId, partner.uid), (partner.uid, fromId)};
            r.store.messages - keys == st.messages - keys && r.store.recent - keys == st.recent - keys
  {
    var toId := partner.uid;
    var keys := {(fromId, toId), (toId, fromId)};
    var m := MessageRecord(fromId, partner, s.chatText, env.messageTime);
    var e := RecentRecord(fromId, partner, s.chatText, env.recentTime);
    var st1 := WriteIf(env.senderCopy, st, AddMessage(st, (fromId, toId), m));
    var st2 := WriteIf(env.senderRecent, st1, SetRecent(st1, (fromId, toId), e));
    var st3 := WriteIf(env.recipientRecent, st2, SetRecent(st2, (toId, fromId), e));
    var st4 := WriteIf(env.recipientCopy, st3, AddMessage(st3, (toId, fromId), m));
    assert FanOut(s, st, fromId, partner, env).store == st4;
    if env.senderCopy.Written? { AgreeOffKeys(st1.messages, st.messages, (fromId, toId), keys); }
    if env.recipientCopy.Written? { AgreeOffKeys(st4.messages, st3.messages, (toId, fromId), keys); }
    if env.senderRecent.Written? { AgreeOffKeys(st2.recent, st1.recent, (fromId, toId), keys); }
    if env.recipientRecent.Written? { AgreeOffKeys(st3.recent, st2.recent, (toId, fromId), keys); }
  }

  /** Each copy of the message is the pre-send draft, appended to its log
      (never replacing what is there) when its write lands; both copies are
      the same record, timestamp included. */
  lemma FanOutAppendsCopies(s: ChatLogState, st: Store, fromId: string, partner: ChatUser, env: SendEnv)
    requires fromId != partner.uid
    ensures var r := FanOut(s, st, fromId, partner, env);
            var m := StoredMessage(fromId, partner.uid, s.chatText, env.messageTime);
            && Log(r.store, (fromId, partner.uid)) == Log(st, (fromId, partner.uid)) + (if env.senderCopy.Written? then [m] else [])
            && Log(r.store, (partner.uid, fromId)) == Log(st, (partner.uid, fromId)) + (if env.recipientCopy.Written? then [m] else [])
  {
  }

  /** Each recent row is overwritten, when its write lands, with the one
      shared record: the pre-send draft, status true, and the partner's email
      and avatar in both rows. A row whose write fails keeps what it held. */
  lemma FanOutOverwritesRecentRows(s: ChatLogState, st: Store, fromId: string, partner: ChatUser, env: SendEnv)
    ensures var r := FanOut(s, st, fromId, partner, env);
            var e := RecentEntry(env.recentTime, s.chatText, fromId, partner.uid, partner.profileImageURL, partner.email, true);
            && (env.senderRecent.Written? ==> (fromId, partner.uid) in r.store.recent && r.store.recent[(fromId, partner.uid)] == e)
            && (env.recipientRecent.Written? ==> (partner.uid, fromId) in r.store.recent && r.store.recent[(partner.uid, fromId)] == e)
    ensures var r := FanOut(s, st, fromId, partner, env);
            var k := (fromId, partner.uid);
            fromId != partner.uid && env.senderRecent.WriteFailed? ==>
              (k in r.store.recent <==> k in st.recent) && (k in st.recent ==> r.store.recent[k] == st.recent[k])
    ensures var r := FanOut(s, st, fromId, partner, env);
            var k := (partner.uid, fromId);
            fromId != partner.uid && env.recipientRecent.WriteFailed? ==>
              (k in r.store.recent <==> k in st.recent) && (k in st.recent ==> r.store.recent[k] == st.recent[k])
  {
  }

  /** When every write lands, a send keeps the two participants' views of
      every conversation identical. */
  lemma FanOutPreservesMirror(s: ChatLogState, st: Store, fromId: string, partner: ChatUser, env: SendEnv)
    requires AllWritten(env)
    requires Mirrored(st)
    ensures Mirrored(FanOut(s, st, fromId, partner, env).store)
  {
  }

  /** One send as the store sees it: sender, partner, draft and the outside
      inputs of that send. */
  datatype Send = Send(fromId: string, partner: ChatUser, text: string, env: SendEnv)

  /** The store after a history of sends, in order, from an empty database. */
  function StoreAfter(sends: seq<Send>): Store
  {
    if |sends| == 0 then EmptyStore
    else
      var last := sends[|sends| - 1];
      FanOut(InitialState.(chatText := last.text), StoreAfter(sends[..|sends| - 1]),
             last.fromId, last.partner, last.env).store
  }

  /** As long as every write of every send lands, any history of sends
      between any users leaves both participants of every conversation with
      the same view. */
  lemma {:induction false} SuccessfulHistoryMirrored(sends: seq<Send>)
    requires forall i :: 0 <= i < |sends| ==> AllWritten(sends[i].env)
    ensures Mirrored(StoreAfter(sends))
  {
    if |sends| == 0 {
      EmptyStoreMirrored();
    } else {
      var last := sends[|sends| - 1];
      SuccessfulHistoryMirrored(sends[..|sends| - 1]);
      FanOutPreservesMirror(InitialState.(chatText := last.text), StoreAfter(sends[..|sends| - 1]),
                            last.fromId, last.partner, last.env);
    }
  }

  /** Without a rollback, one failed write is enough to leave the two
      participants with different views: when only the recipient's copy
      fails, the sender sees the message, the recipient never does, and all
      that remains of the failure is the error message. */
  lemma PartialFailureBreaksMirror(s: ChatLogState, st: Store, fromId: string, partner: ChatUser, env: SendEnv)
    requires Mirrored(st) && fromId != partner.uid
    requires env.senderCopy.Written? && env.senderRecent.Written? && env.recipientRecent.Written?
    requires env.recipientCopy.WriteFailed?
    ensures var r := FanOut(s, st, fromId, partner, env);
            var m := StoredMessage(fromId, partner.uid, s.chatText, env.messageTime);
            && Log(r.store, (fromId, partner.uid)) == Log(st, (fromId, partner.uid)) + [m]
            && Log(r.store, (partner.uid, fromId)) == Log(st, (partner.uid, fromId))
            && !Mirrored(r.store)
            && r.state.errorMessage == SaveMessageFailure + env.recipientCopy.description
  {
  }

  /** An empty draft is not rejected: it is sent like any other, to both logs. */
  lemma EmptyDraftIsSent(s: ChatLogState, st: Store, uid: string, partner: ChatUser, env: SendEnv)
    requires s.chatText == ""
    requires uid != partner.uid && AllWritten(env)
    ensures var r := HandleSend(s, st, Some(uid), Some(partner), env);
            var m := StoredMessage(uid, partner.uid, "", env.messageTime);
            Log(r.store, (uid, partner.uid)) == Log(st, (uid, partner.uid)) + [m]
            && Log(r.store, (partner.uid, uid)) == Log(st, (partner.uid, uid)) + [m]
  {
  }

  /** `handleSend`: without a signed-in user or a chat partner nothing is
      written and the view model is left as it was; otherwise the fan-out runs,
      whatever the draft holds (an empty draft is sent too). */
  function HandleSend(s: ChatLogState, st: Store, currentUid: Option<string>, chatUser: Option<ChatUser>, env: SendEnv): (r: SendResult)
    ensures currentUid.None? || chatUser.None? ==> r == SendResult(s, st)
    ensures currentUid.Some? && chatUser.Some? ==>
      r.state.chatText == "" && r.state.count == s.count + 1
  {
    if currentUid.None? || chatUser.None? then SendResult(s, st)
    else FanOut(s, st, currentUid.value, chatUser.value, env)
  }
}
