/** The Express route `POST /api/proxy` of server.js: the shared resolution
    with a budget of 15 polling attempts and no stack trace in the 500 body.
    Preflight and other methods are answered by the cors() middleware and by
    Express routing, which are not part of this model. */
module ExpressRoute {
  import opened Wire
  import opened Resolution

  const MaxAttempts := 15
  const Settings := Config(MaxAttempts, false)

  /** The route callback. */
  method ProxyRoute(body: RequestBody, env: Env, create: CreateResult, fetch: nat -> FetchResult)
    returns (response: Response, calls: seq<Call>)
    ensures !Truthy(body.prompt) || !Truthy(body.assistantId) ==>
              response == Sent(400, Error(MissingFieldsError)) && calls == []
    ensures Truthy(body.prompt) && Truthy(body.assistantId) && !(Truthy(env.apiKey) && Truthy(env.workspaceId)) ==>
              response == Sent(500, Error(ConfigurationError)) && calls == []
    ensures Ready(body, env) && create.CreateRejected? ==>
              response == Sent(create.status, ErrorDetails(CreateError, create.text))
              && calls == [CreateCall(body, env)]
    ensures |calls| <= MaxAttempts + 1
    ensures forall i :: 0 < i < |calls| ==> calls[i].FetchConversation?
    ensures Ready(body, env) && create.Created? ==>
              forall i :: 0 < i < |calls| ==>
                calls[i] == FetchConversation(env.workspaceId.value, env.apiKey.value, create.sId)
    ensures response.Sent? && response.body.TimeoutBody? ==>
              response.status == 408 && response.body.attempts == MaxAttempts && |calls| == MaxAttempts + 1
    ensures Outcome(response, calls) == Resolve(Settings, body, env, create, fetch)
  {
    response, calls := Run(Settings, body, env, create, fetch);
    if response.Sent? && response.body.TimeoutBody? {
      TimeoutReportsBudget(Settings, body, env, create, fetch);
    }
  }

  /** When attempts 1 to 14 miss and attempt 15 fetches a conversation with
      no reply, the route answers 408 with the conversation id, 15 attempts
      and the conversation's URL in the workspace. */
  lemma TimeoutAfterFifteenAttempts(body: RequestBody, env: Env, conversationId: string,
                                    fetch: nat -> FetchResult)
    requires Ready(body, env)
    requires forall j :: 1 <= j < MaxAttempts ==> Miss(fetch(j))
    requires fetch(MaxAttempts).Fetched? && !Hit(fetch(MaxAttempts))
    ensures Resolve(Settings, body, env, Created(conversationId), fetch).response
         == Sent(408, TimeoutBody(TimeoutError, conversationId, 15,
                                  "https://dust.tt/w/" + env.workspaceId.value + "/conversation/" + conversationId))
  {
    TimeoutIffBudgetExhausted(Settings, body, env, conversationId, fetch);
    TimeoutReportsBudget(Settings, body, env, Created(conversationId), fetch);
  }

  /** When attempts 1 to 14 miss and the fetch of attempt 15 is not ok, the
      loop runs out and no response is sent. */
  lemma RejectedFifteenthFetchIsUnanswered(body: RequestBody, env: Env, conversationId: string,
                                           fetch: nat -> FetchResult)
    requires Ready(body, env)
    requires forall j :: 1 <= j < MaxAttempts ==> Miss(fetch(j))
    requires fetch(MaxAttempts).FetchRejected?
    ensures Resolve(Settings, body, env, Created(conversationId), fetch).response == NoResponse
    ensures |Resolve(Settings, body, env, Created(conversationId), fetch).calls| == 16
  {
    UnansweredIffFinalFetchRejected(Settings, body, env, conversationId, fetch);
  }
}
