/** The values the gateway exchanges: the inbound request and the server
    environment, the answers of the conversational-AI service (Dust), the
    calls made to that service, and the response sent back to the caller. */
module Wire {

  datatype Option<+T> = None | Some(value: T)

  /** JavaScript truthiness of an optional string field: present and not "". */
  predicate Truthy(s: Option<string>) {
    s.Some? && s.value != ""
  }

  /** One message object of a conversation: its `type` discriminator, its
      `content`, and every other field, kept as it was received. */
  datatype Message = Message(kind: Option<string>, content: Option<string>, attributes: map<string, string>)

  /** A conversation as the service returns it: `content` is a list of message
      groups; `attributes` are all its other fields (sId, title, ...). */
  datatype Conversation = Conversation(content: seq<seq<Message>>, attributes: map<string, string>)

  /** The JSON body of an inbound request. */
  datatype RequestBody = RequestBody(prompt: Option<string>, assistantId: Option<string>)

  datatype Request = Request(httpMethod: string, body: RequestBody)

  /** The two secrets read from the process environment on every request. */
  datatype Env = Env(apiKey: Option<string>, workspaceId: Option<string>)

  /** What the conversation-creation call yields: a created conversation's id,
      a response that is not ok (its status and body text), or an exception
      (the call rejected, or the body had no `conversation`). */
  datatype CreateResult =
    | Created(sId: string)
    | CreateRejected(status: int, text: string)
    | CreateThrew

  /** What one polling fetch yields: the conversation, a response that is not
      ok, or an exception (the call rejected, or the body was not a
      conversation with a content list). */
  datatype FetchResult =
    | Fetched(conversation: Conversation)
    | FetchRejected
    | FetchThrew

  /** The JSON body of the conversation-creation call. */
  datatype CreatePayload = CreatePayload(
    content: string,
    mentions: seq<string>,
    timezone: string,
    username: string,
    assistantId: string,
    blocking: bool,
    title: string)

  /** A call made to the service, with the workspace in its path and the API
      key as bearer token. */
  datatype Call =
    | CreateConversation(workspaceId: string, apiKey: string, payload: CreatePayload)
    | FetchConversation(workspaceId: string, apiKey: string, conversationId: string)

  /** The JSON bodies the gateway sends. */
  datatype Body =
    | Empty
    | Error(error: string)
    | ErrorDetails(error: string, details: string)
    | ConversationBody(conversation: Conversation)
    | TimeoutBody(error: string, conversationId: string, attempts: nat, conversationUrl: string)
    | InternalErrorBody(withStack: bool)

  /** A response sent with a status and a body, or none sent at all. */
  datatype Response = Sent(status: int, body: Body) | NoResponse

  /** The response together with the service calls made before it, in order. */
  datatype Outcome = Outcome(response: Response, calls: seq<Call>)

  const MethodNotAllowedError := "Method not allowed"
  const MissingFieldsError := "Missing required fields: prompt and assistantId"
  const ConfigurationError := "Server configuration error: missing Dust credentials"
  const CreateError := "Dust API error (create)"
  const TimeoutError := "Timeout: assistant did not respond in time"
}
