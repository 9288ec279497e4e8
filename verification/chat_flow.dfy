/** The server-side chat flow: turns a persona, a bounded history and the
    new user text into one generation request, and turns the model's answer
    into the flow's output. The language model itself is not modelled; its
    answer is an input (`GenerationResult`). */
module ChatFlow {
  import opened Wrappers

  /** The two speakers of a conversation; there is no third role. */
  datatype Role = User | Model

  /** A chat message as the flow's input schema accepts it: role and text only. */
  datatype Message = Message(role: Role, content: string)

  /** The flow's input: system prompt, earlier turns, and the new user text. */
  datatype ChatInput = ChatInput(persona: string, history: seq<Message>, message: string)

  /** The flow's output. */
  datatype ChatOutput = ChatOutput(response: string)

  /** One text part of a generation message. */
  datatype Part = Part(text: string)

  /** A message in the shape the generation call takes: content is a list of parts. */
  datatype GenMessage = GenMessage(role: Role, content: seq<Part>)

  /** What the flow hands to the generation call: the system instruction and the turns. */
  datatype GenerateRequest = GenerateRequest(system: string, messages: seq<GenMessage>)

  /** What came back from the generation call: its text, or a thrown error. */
  datatype GenerationResult = Generated(text: string) | GenerationFailed

  /** Why the flow failed. */
  datatype FlowError = EmptyResponse | GenerationError

  /** The role names the message schema admits. */
  function RoleName(r: Role): string {
    match r
    case User => "user"
    case Model => "model"
  }

  /** Reading a role name back: exactly "user" and "model" are roles. */
  function ParseRole(s: string): (r: Option<Role>)
    ensures r.Some? <==> s == "user" || s == "model"
    ensures r.Some? ==> RoleName(r.value) == s
  {
    if s == "user" then Some(User)
    else if s == "model" then Some(Model)
    else None
  }

  lemma RoleNameRoundTrip(r: Role)
    ensures ParseRole(RoleName(r)) == Some(r)
  {
  }

  /** One history message as a generation message with a single text part. */
  function ToGenMessage(m: Message): GenMessage {
    GenMessage(m.role, [Part(m.content)])
  }

  /** The text of a generation message: its parts, concatenated. */
  function PartsText(parts: seq<Part>): string {
    if |parts| == 0 then "" else PartsText(parts[..|parts| - 1]) + parts[|parts| - 1].text
  }

  /** A generation message read back as a chat message. */
  function FromGenMessage(g: GenMessage): Message {
    Message(g.role, PartsText(g.content))
  }

  /** The turns sent to the model: the history, each message converted, in
      order, then the new text as a user turn. */
  function AssembleMessages(history: seq<Message>, message: string): (r: seq<GenMessage>)
    ensures |r| == |history| + 1
    ensures forall i :: 0 <= i < |history| ==> r[i].role == history[i].role
    ensures r[|history|].role == User
  {
    seq(|history|, i requires 0 <= i < |history| => ToGenMessage(history[i]))
      + [GenMessage(User, [Part(message)])]
  }

  /** The request the flow builds: the persona is the system instruction. */
  function BuildRequest(input: ChatInput): (req: GenerateRequest)
    ensures req.system == input.persona
    ensures |req.messages| == |input.history| + 1
  {
    GenerateRequest(input.persona, AssembleMessages(input.history, input.message))
  }

  /** Reading the assembled turns back gives the history followed by the new
      user message: nothing is dropped, reordered or altered. */
  lemma AssembleRoundTrip(history: seq<Message>, message: string)
    ensures var turns := AssembleMessages(history, message);
      seq(|turns|, i requires 0 <= i < |turns| => FromGenMessage(turns[i]))
        == history + [Message(User, message)]
  {
    var turns := AssembleMessages(history, message);
    var back := seq(|turns|, i requires 0 <= i < |turns| => FromGenMessage(turns[i]));
    forall i | 0 <= i < |turns|
      ensures back[i] == (history + [Message(User, message)])[i]
    {
      var ps := turns[i].content;
      assert |ps| == 1 && ps[..0] == [];
      assert PartsText(ps) == "" + ps[0].text == ps[0].text;
      if i < |history| {
        assert ps[0] == Part(history[i].content);
      } else {
        assert ps[0] == Part(message);
      }
    }
  }

  /** The flow's answer for the model's reply: an empty text is an error,
      otherwise the response is the generated text unchanged. */
  function Complete(reply: GenerationResult): (r: Result<ChatOutput, FlowError>)
    ensures r.Ok? <==> reply.Generated? && reply.text != ""
    ensures r.Ok? ==> r.value.response == reply.text
    ensures reply.GenerationFailed? ==> r == Err(GenerationError)
    ensures reply == Generated("") ==> r == Err(EmptyResponse)
  {
    match reply
    case GenerationFailed => Err(GenerationError)
    case Generated(text) => if text == "" then Err(EmptyResponse) else Ok(ChatOutput(text))
  }

  /** `chatWithCounsellor`: the request the flow makes, with the outcome the
      model's reply to it leads to. A successful response is never empty. */
  function ChatWithCounsellor(input: ChatInput, reply: GenerationResult): (r: (GenerateRequest, Result<ChatOutput, FlowError>))
    ensures r.0.system == input.persona
    ensures r.1.Ok? ==> r.1.value.response != "" && reply == Generated(r.1.value.response)
  {
    (BuildRequest(input), Complete(reply))
  }
}
