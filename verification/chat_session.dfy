/** The chat room as the authentication provider feeds it: the room reads
    the signed-in user and the service flag from the provider's state. */
module ChatSession {
  import opened Wrappers
  import AuthProvider
  import ChatRoom

  /** The user id the room sees for a provider state. */
  function SignedInUid(auth: AuthProvider.AuthState): (uid: Option<string>)
    ensures uid.Some? <==> auth.user.Some?
  {
    match auth.user
    case Some(u) => Some(u.uid)
    case None => None
  }

  /** Without the authentication service nobody is ever signed in, so the
      send handler's guard stops every offline send: its local-append path
      cannot be reached from any state the provider can be in. */
  lemma OfflineSendNeverRuns(auth: AuthProvider.AuthState, room: ChatRoom.Room, calls: ChatRoom.CallResults)
    requires AuthProvider.Reachable(auth) && !auth.firebaseReady
    ensures ChatRoom.HandleSend(room, SignedInUid(auth), auth.firebaseReady, calls)
      == ChatRoom.SendOutcome(room, [], None, false)
  {
    assert ChatRoom.SendBlocked(room, SignedInUid(auth));
  }

  /** With the service up and a user signed in, a send the button allows
      always reaches the model once the user's message is stored. */
  lemma OnlineSendReachesModel(auth: AuthProvider.AuthState, room: ChatRoom.Room, calls: ChatRoom.CallResults)
    requires auth.firebaseReady && auth.user.Some?
    requires ChatRoom.PersonaReady(room) && !ChatRoom.SendDisabled(room)
    ensures ChatRoom.HandleSend(room, SignedInUid(auth), auth.firebaseReady, calls).request.Some? <==> calls.userSaved
  {
    ChatRoom.EnabledButtonSends(room, SignedInUid(auth));
  }
}
