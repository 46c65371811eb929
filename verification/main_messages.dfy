/** The main screen's view model (`MainMessagesViewModel`): the signed-in
    user's profile, the last error, the signed-out flag and the
    recent-conversations list; and the name shown in the screen's header. */
module MainMessages {
  import opened Wrappers
  import opened Firestore
  import opened Users
  import opened Text
  import opened RecentMessages

  datatype MainState = MainState(
    errorMessage: string,
    chatUser: Option<ChatUser>,
    isUserCurrentlyLoggedOut: bool,
    recentMessages: seq<RecentMessage>)

  /** `init`: the signed-out flag says whether anyone is signed in; nothing
      has been fetched yet. */
  function Initial(currentUid: Option<string>): (s: MainState)
    ensures s.isUserCurrentlyLoggedOut <==> currentUid.None?
    ensures s.chatUser.None? && s.recentMessages == [] && s.errorMessage == ""
  {
    MainState("", None, currentUid.None?, [])
  }

  /** One callback of the recent-rows listener. An error replaces the error
      message and leaves the list alone; a snapshot applies its changes in
      delivery order; an absent snapshot changes nothing. */
  function ApplyRecentEvent(s: MainState, event: QueryResult<RecentChange>): (r: MainState)
    ensures event.QueryFailed? ==>
      r == s.(errorMessage := event.description) && r.recentMessages == s.recentMessages
    ensures event.QueryDelivered? ==> r.errorMessage == s.errorMessage && r.chatUser == s.chatUser
    ensures event.QueryDelivered? && event.snapshot.None? ==> r == s
    ensures event.QueryDelivered? && event.snapshot.Some? ==>
      r == s.(recentMessages := ApplyRecentChanges(s.recentMessages, event.snapshot.value))
  {
    match event
    case QueryFailed(description) => s.(errorMessage := description)
    case QueryDelivered(None) => s
    case QueryDelivered(Some(cs)) =>
      s.(recentMessages := ApplyRecentChanges(s.recentMessages, cs))
  }

  /** The listener never lets an id appear twice in the list. */
  lemma RecentListenerKeepsIdsUnique(s: MainState, event: QueryResult<RecentChange>)
    requires UniqueIds(s.recentMessages)
    ensures UniqueIds(ApplyRecentEvent(s, event).recentMessages)
  {
    if event.QueryDelivered? && event.snapshot.Some? {
      ApplyAllKeepsIdsUnique(s.recentMessages, event.snapshot.value);
    }
  }

  /** What reading `users/{uid}` can end in. The profile decoding itself
      (`ChatUser.init(data:)`) is not part of this model. */
  datatype UserFetch = FetchFailed(description: string) | NoData | Fetched(user: ChatUser)

  const FetchUserFailure := "\U{1F6A8} Failed to fetch current user: "
  const NoDataFound := "No data found."

  /** `fetchCurrentUser`: nothing happens when nobody is signed in; otherwise
      exactly one of three outcomes. */
  function FetchCurrentUser(s: MainState, currentUid: Option<string>, outcome: UserFetch): (r: MainState)
    ensures currentUid.None? ==> r == s
    ensures currentUid.Some? && outcome.FetchFailed? ==>
      r == s.(errorMessage := FetchUserFailure + outcome.description + ".")
    ensures currentUid.Some? && outcome.NoData? ==> r == s.(errorMessage := NoDataFound)
    ensures currentUid.Some? && outcome.Fetched? ==> r == s.(chatUser := Some(outcome.user))
  {
    if currentUid.None? then s
    else match outcome
      case FetchFailed(description) => s.(errorMessage := FetchUserFailure + description + ".")
      case NoData => s.(errorMessage := NoDataFound)
      case Fetched(user) => s.(chatUser := Some(user))
  }

  /** The two error outcomes leave different messages, so the message tells
      which outcome it was. */
  lemma FetchFailuresDistinguishable(s: MainState, uid: string, description: string)
    ensures FetchCurrentUser(s, Some(uid), FetchFailed(description)).errorMessage
         != FetchCurrentUser(s, Some(uid), NoData).errorMessage
  {
  }

  /** `handleSignOut`: a toggle of the signed-out flag, not a set; the
      sign-out call's own failure is ignored. */
  function SignOut(s: MainState): (r: MainState)
    ensures r.isUserCurrentlyLoggedOut == !s.isUserCurrentlyLoggedOut
    ensures r.(isUserCurrentlyLoggedOut := s.isUserCurrentlyLoggedOut) == s
  {
    s.(isUserCurrentlyLoggedOut := !s.isUserCurrentlyLoggedOut)
  }

  /** Because it toggles, signing out twice restores the flag. */
  lemma SignOutTwiceRestores(s: MainState)
    ensures SignOut(SignOut(s)) == s
  {
  }

  const GmailSuffix := "@gmail.com"

  /** The name in the header: the profile's email with every "@gmail.com"
      removed, or "" when no profile is loaded. */
  function HeaderEmail(chatUser: Option<ChatUser>): (r: string)
    ensures chatUser.None? ==> r == ""
    ensures chatUser.Some? ==> |r| <= |chatUser.value.email|
  {
    match chatUser
    case None => ""
    case Some(user) => RemoveAll(user.email, GmailSuffix)
  }

  lemma GmailSuffixHeadNotRepeated()
    ensures HeadNotRepeated(GmailSuffix)
  {
  }

  /** An email without "@gmail.com" is shown as it is. */
  lemma HeaderEmailOtherDomain(user: ChatUser)
    requires !Occurs(user.email, GmailSuffix)
    ensures HeaderEmail(Some(user)) == user.email
  {
    RemoveAllWithoutOccurrence(user.email, GmailSuffix);
  }

  /** "x@gmail.com" is shown as "x" (for an `x` that does not itself contain
      the suffix). */
  lemma HeaderEmailStripsGmail(user: ChatUser, x: string)
    requires user.email == x + GmailSuffix
    requires !Occurs(x, GmailSuffix)
    ensures HeaderEmail(Some(user)) == x
  {
    GmailSuffixHeadNotRepeated();
    RemoveAllTrailing(x, GmailSuffix);
    RemoveAllWithoutOccurrence(x, GmailSuffix);
  }
}
