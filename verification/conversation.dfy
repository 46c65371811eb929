/** How the pieces fit together: what a send writes is what the two listeners
    later deliver to the chat screen and to each participant's main screen. */
module Conversation {
  import opened Wrappers
  import opened Firestore
  import opened Users
  import opened MessageStore
  import opened ChatLog
  import opened ChatSend
  import opened RecentMessages

  /** The sender's chat screen listens to exactly the log the sender's copy
      is appended to, and when that copy arrives it shows the pre-send draft
      at the end of the list. */
  lemma SentMessageReachesSenderScreen(
    s: ChatLogState, st: Store, uid: string, partner: ChatUser, env: SendEnv, documentId: string)
    requires uid != partner.uid
    requires env.senderCopy.Written?
    ensures var r := HandleSend(s, st, Some(uid), Some(partner), env);
            var k := ListenedKey(Some(uid), Some(partner)).value;
            var log := Log(r.store, k);
            && |log| > 0
            && var shown := ApplyMessageEvent(r.state, QueryDelivered(Some([MessageChange(documentId, MessageData(log[|log| - 1]))])));
               shown.chatMessage == s.chatMessage + [ChatMessage(documentId, uid, partner.uid, s.chatText)]
  {
    var r := HandleSend(s, st, Some(uid), Some(partner), env);
    FanOutAppendsCopies(s, st, uid, partner, env);
    var log := Log(r.store, (uid, partner.uid));
    var m := StoredMessage(uid, partner.uid, s.chatText, env.messageTime);
    assert log[|log| - 1] == m;
    DecodeMessageData(documentId, m);
  }

  /** Once the sender's recent row lands and is delivered to the sender's
      main screen, that conversation is first in the list and shows the
      pre-send draft. */
  lemma SendMovesConversationToFront(
    s: ChatLogState, st: Store, uid: string, partner: ChatUser, env: SendEnv, l: seq<RecentMessage>)
    requires env.senderRecent.Written?
    ensures var r := HandleSend(s, st, Some(uid), Some(partner), env);
            var k := (uid, partner.uid);
            && k in r.store.recent
            && var front := ApplyRecentChange(l, RecentChange(partner.uid, Some(r.store.recent[k])))[0];
               front.id == partner.uid && front.entry.text == s.chatText
               && front.entry.status && front.entry.fromId == uid
  {
  }

  /** Both recent rows carry the partner's profile, so the recipient's own
      main screen lists the conversation under the recipient's own email and
      avatar rather than the sender's. */
  lemma RecipientRowShowsOwnProfile(
    s: ChatLogState, st: Store, uid: string, partner: ChatUser, env: SendEnv, l: seq<RecentMessage>)
    requires env.recipientRecent.Written?
    ensures var r := HandleSend(s, st, Some(uid), Some(partner), env);
            var k := (partner.uid, uid);
            && k in r.store.recent
            && var front := ApplyRecentChange(l, RecentChange(uid, Some(r.store.recent[k])))[0];
               front.id == uid && front.entry.text == s.chatText
               && front.entry.email == partner.email && front.entry.profileImageURL == partner.profileImageURL
  {
  }

  /** "u1" sends "hi" to "u2" at time 100 and every write lands: both logs
      hold the same record, both rows hold the same summary, and the two
      views of the store agree. */
  lemma SendHiScenario()
    ensures var u2 := ChatUser("u2", "u2@gmail.com", "https://u2");
            var env := SendEnv(100, 100, Written, Written, Written, Written);
            var r := HandleSend(InitialState.(chatText := "hi"), EmptyStore, Some("u1"), Some(u2), env);
            var m := StoredMessage("u1", "u2", "hi", 100);
            var e := RecentEntry(100, "hi", "u1", "u2", "https://u2", "u2@gmail.com", true);
            && Log(r.store, ("u1", "u2")) == [m]
            && Log(r.store, ("u2", "u1")) == [m]
            && r.store.recent == map[("u1", "u2") := e, ("u2", "u1") := e]
            && r.state.chatText == "" && r.state.count == 1
            && Mirrored(r.store)
  {
  }
}
