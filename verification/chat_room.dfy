/** The chat room a user has with one counsellor: persona loading, the send
    guard, the bounded context sent to the model, and what gets appended,
    where, and in what order. The document store, the persona lookup and the
    model are not modelled; what each call returned is an input. */
module ChatRoom {
  import opened Wrappers
  import CF = ChatFlow
  import Strings
  import Seqs

  /** A message as the room shows it: the store adds a timestamp. */
  datatype ChatMessage = ChatMessage(role: CF.Role, content: string, timestamp: Option<int>)

  /** The instruction used whenever a counsellor's own persona is unavailable. */
  const GenericPersona: string := "You are a friendly and supportive AI assistant. Your goal is to listen, be empathetic, and help the user talk through their feelings. You are not a licensed therapist, but a caring companion."

  /** The fixed reply appended when the exchange fails. */
  const ApologyText: string := "I'm having trouble connecting right now. Please try again in a moment."

  /** How many earlier messages go to the model as context. */
  const HistoryLimit: nat := 10

  /** The room's local state. `persona` is `None` until it has been resolved. */
  datatype Room = Room(
    messages: seq<ChatMessage>,
    input: string,
    isSending: bool,
    isPersonaLoading: bool,
    persona: Option<string>)

  /** A freshly opened room: no messages, empty input, persona loading. */
  function InitialRoom(): Room {
    Room([], "", false, true, None)
  }

  /** The answer of the persona lookup for a counsellor id. */
  datatype PersonaLookup = Fetched(value: string) | NotFound | LookupFailed

  /** Once loading is over, the room holds a usable (non-empty) persona. */
  predicate PersonaReady(room: Room) {
    !room.isPersonaLoading ==> room.persona.Some? && room.persona.value != ""
  }

  lemma InitialRoomPersonaReady()
    ensures PersonaReady(InitialRoom())
  {
  }

  /** The persona a completed lookup resolves to: the fetched prompt when it
      is a non-empty string, the generic persona when the lookup found
      nothing, returned an empty value or failed. */
  function ResolvePersona(lookup: PersonaLookup): (p: string)
    ensures p != ""
    ensures lookup.Fetched? && lookup.value != "" ==> p == lookup.value
    ensures !(lookup.Fetched? && lookup.value != "") ==> p == GenericPersona
  {
    match lookup
    case Fetched(v) => if v != "" then v else GenericPersona
    case NotFound => GenericPersona
    case LookupFailed => GenericPersona
  }

  /** The persona-loading effect. Without the store the generic persona is
      used at once; with the store but without a counsellor id or a user,
      loading stays on; otherwise the lookup decides. */
  function FetchPersona(room: Room, firebaseReady: bool, counsellorId: string, signedIn: bool, lookup: PersonaLookup): (r: Room)
    ensures r.messages == room.messages && r.input == room.input && r.isSending == room.isSending
    ensures !firebaseReady ==> r.persona == Some(GenericPersona) && !r.isPersonaLoading
    ensures firebaseReady && (counsellorId == "" || !signedIn) ==> r.isPersonaLoading && r.persona == room.persona
    ensures firebaseReady && counsellorId != "" && signedIn ==>
      !r.isPersonaLoading && r.persona == Some(ResolvePersona(lookup))
    ensures PersonaReady(r)
  {
    if !firebaseReady then
      room.(persona := Some(GenericPersona), isPersonaLoading := false)
    else if counsellorId == "" || !signedIn then
      room.(isPersonaLoading := true)
    else
      room.(persona := Some(ResolvePersona(lookup)), isPersonaLoading := false)
  }

  /** The chat document as the live listener sees it. */
  datatype ChatDocument = ChatDocument(messages: Option<seq<ChatMessage>>)

  /** The live listener: the room shows the stored list, or nothing when the
      document or its list is missing. Only the message list changes. */
  function OnSnapshot(room: Room, doc: Option<ChatDocument>): (r: Room)
    ensures r == room.(messages := r.messages)
    ensures doc.Some? && doc.value.messages.Some? ==> r.messages == doc.value.messages.value
    ensures doc.None? || doc.value.messages.None? ==> r.messages == []
  {
    match doc
    case None => room.(messages := [])
    case Some(d) => room.(messages := d.messages.GetOr([]))
  }

  /** `isButtonDisabled`: sending, blank input, or persona still loading. */
  predicate SendDisabled(room: Room) {
    room.isSending || Strings.IsBlank(room.input) || room.isPersonaLoading
  }

  /** The guard at the top of the send handler: already sending, blank input,
      no user, or no persona. */
  predicate SendBlocked(room: Room, uid: Option<string>) {
    room.isSending || Strings.IsBlank(room.input) || uid.None?
      || room.persona.None? || room.persona.value == ""
  }

  /** Both tests are written with `!input.trim()` in the page; that is
      exactly the blankness the two predicates test. */
  lemma GuardsAreTrimTests(room: Room, uid: Option<string>)
    ensures SendDisabled(room) <==> room.isSending || Strings.Trim(room.input) == [] || room.isPersonaLoading
    ensures SendBlocked(room, uid) <==> room.isSending || Strings.Trim(room.input) == [] || uid.None?
                                        || room.persona.None? || room.persona.value == ""
  {
    Strings.TrimEmptyIffBlank(room.input);
  }

  /** An enabled send button, a signed-in user and a loaded persona mean the
      handler goes past its guard. */
  lemma EnabledButtonSends(room: Room, uid: Option<string>)
    requires PersonaReady(room) && !SendDisabled(room) && uid.Some?
    ensures !SendBlocked(room, uid)
  {
  }

  /** The context sent with a message: the last `HistoryLimit` messages of
      the list seen at submit time, in order, reduced to role and text. */
  function History(messages: seq<ChatMessage>): (h: seq<CF.Message>)
    ensures |h| == if |messages| < HistoryLimit then |messages| else HistoryLimit
    ensures forall i :: 0 <= i < |h| ==>
      h[i] == CF.Message(messages[|messages| - |h| + i].role, messages[|messages| - |h| + i].content)
  {
    var w := Seqs.TakeLast(messages, HistoryLimit);
    seq(|w|, i requires 0 <= i < |w| => CF.Message(w[i].role, w[i].content))
  }

  /** What each outside call did during one send: whether the user message
      was stored, what the model returned, whether the reply was stored, and
      whether the apology was stored. Calls that are not reached are ignored. */
  datatype CallResults = CallResults(
    userSaved: bool,
    reply: CF.GenerationResult,
    replySaved: bool,
    apologySaved: bool)

  /** What one send did: the room afterwards, the messages appended to the
      store in order, the request made to the chat flow (if any), and whether
      an error escaped the handler. */
  datatype SendOutcome = SendOutcome(
    room: Room,
    saved: seq<ChatMessage>,
    request: Option<CF.ChatInput>,
    escaped: bool)

  function UserMessage(text: string): ChatMessage {
    ChatMessage(CF.User, text, None)
  }

  function ModelMessage(text: string): ChatMessage {
    ChatMessage(CF.Model, text, None)
  }

  /** The reply text a send ends with: the model's response when the flow
      succeeded, the apology otherwise. */
  function ReplyText(reply: CF.GenerationResult): (t: string)
    ensures t != ""
    ensures reply.Generated? && reply.text != "" ==> t == reply.text
    ensures reply.GenerationFailed? || reply == CF.Generated("") ==> t == ApologyText
  {
    match CF.Complete(reply)
    case Ok(out) => out.response
    case Err(_) => ApologyText
  }

  /** The catch branch: one apology message, stored online or appended
      after the user message offline. */
  function Apologise(room: Room, done: Room, firebaseReady: bool, savedSoFar: seq<ChatMessage>,
                     request: Option<CF.ChatInput>, apologySaved: bool): SendOutcome
  {
    if firebaseReady then
      if apologySaved then SendOutcome(done, savedSoFar + [ModelMessage(ApologyText)], request, false)
      else SendOutcome(done, savedSoFar, request, true)
    else
      SendOutcome(done.(messages := room.messages + [UserMessage(room.input), ModelMessage(ApologyText)]),
                  [], request, false)
  }

  /** `handleSendMessage`. */
  function HandleSend(room: Room, uid: Option<string>, firebaseReady: bool, calls: CallResults): (r: SendOutcome)
    // The guard: a blocked send changes nothing and calls nothing.
    ensures SendBlocked(room, uid) ==> r == SendOutcome(room, [], None, false)
    // Every send that passes the guard ends with an empty input and not sending.
    ensures !SendBlocked(room, uid) ==>
      r.room == room.(messages := r.room.messages, input := "", isSending := false)
    // The model is asked only after the user message is stored (online), and
    // is asked with the bounded history and the submitted text.
    ensures r.request.Some? <==> !SendBlocked(room, uid) && (!firebaseReady || calls.userSaved)
    ensures r.request.Some? ==>
      r.request.value == CF.ChatInput(room.persona.value, History(room.messages), room.input)
    // Online, the local list is left to the live listener.
    ensures firebaseReady ==> r.room.messages == room.messages
    // Offline, nothing is stored; the user message and then the reply or
    // apology are appended locally, and nothing else changes.
    ensures !firebaseReady ==> r.saved == [] && !r.escaped
    ensures !firebaseReady && !SendBlocked(room, uid) ==>
      r.room.messages == room.messages + [UserMessage(room.input), ModelMessage(ReplyText(calls.reply))]
    // Online success: exactly the user message, then the model's response.
    ensures firebaseReady && !SendBlocked(room, uid) && calls.userSaved
            && CF.Complete(calls.reply).Ok? && calls.replySaved ==>
      r.saved == [UserMessage(room.input), ModelMessage(calls.reply.text)] && !r.escaped
    // Online failure: whatever was stored of the user message, then exactly
    // one apology; if storing the apology fails, the error escapes.
    ensures firebaseReady && !SendBlocked(room, uid)
            && !(calls.userSaved && CF.Complete(calls.reply).Ok? && calls.replySaved) ==>
      r.saved == (if calls.userSaved then [UserMessage(room.input)] else [])
                 + (if calls.apologySaved then [ModelMessage(ApologyText)] else [])
      && r.escaped == !calls.apologySaved
  {
    if SendBlocked(room, uid) then SendOutcome(room, [], None, false)
    else
      var userMessage := UserMessage(room.input);
      var done := room.(input := "", isSending := false);
      if firebaseReady && !calls.userSaved then
        Apologise(room, done, firebaseReady, [], None, calls.apologySaved)
      else
        var savedUser := if firebaseReady then [userMessage] else [];
        var request := CF.ChatInput(room.persona.value, History(room.messages), room.input);
        match CF.Complete(calls.reply)
        case Err(_) =>
          Apologise(room, done, firebaseReady, savedUser, Some(request), calls.apologySaved)
        case Ok(out) =>
          var counsellorMessage := ModelMessage(out.response);
          if firebaseReady then
            if calls.replySaved then SendOutcome(done, savedUser + [counsellorMessage], Some(request), false)
            else Apologise(room, done, firebaseReady, savedUser, Some(request), calls.apologySaved)
          else
            SendOutcome(done.(messages := room.messages + [userMessage, counsellorMessage]), [], Some(request), false)
  }

  /** A send never touches the persona, so a room with a usable persona keeps it. */
  lemma SendKeepsPersona(room: Room, uid: Option<string>, firebaseReady: bool, calls: CallResults)
    requires PersonaReady(room)
    ensures PersonaReady(HandleSend(room, uid, firebaseReady, calls).room)
  {
  }

  /** Submitting again while an exchange is in flight is a no-op: nothing is
      stored and the model is not asked. */
  lemma NoSecondSendInFlight(room: Room, uid: Option<string>, firebaseReady: bool, calls: CallResults)
    requires room.isSending
    ensures HandleSend(room, uid, firebaseReady, calls) == SendOutcome(room, [], None, false)
  {
  }

  /** The end-to-end exchange: an empty conversation, "Hello" sent to a
      counsellor whose persona is "Be supportive.", the model answering
      "Hi there, I'm listening.". The store ends with exactly those two
      messages in that order, the model saw no history, and the listener
      then shows both. */
  lemma HelloExchange()
    ensures var room := Room([], "Hello", false, false, Some("Be supportive."));
      var calls := CallResults(true, CF.Generated("Hi there, I'm listening."), true, true);
      var out := HandleSend(room, Some("u1"), true, calls);
      && out.saved == [UserMessage("Hello"), ModelMessage("Hi there, I'm listening.")]
      && out.request == Some(CF.ChatInput("Be supportive.", [], "Hello"))
      && OnSnapshot(out.room, Some(ChatDocument(Some(out.saved)))).messages == out.saved
  {
    var room := Room([], "Hello", false, false, Some("Be supportive."));
    assert !Strings.IsBlank(room.input) by {
      assert !Strings.IsSpace(room.input[0]);
    }
  }
}
