/** The serverless `handler` of api/proxy.js: method dispatch, then the shared
    resolution with a budget of 4 polling attempts and a stack trace in the
    500 body of the catch branch. */
module ServerlessHandler {
  import opened Wire
  import opened Resolution

  const MaxAttempts := 4
  const Settings := Config(MaxAttempts, true)

  /** The exported handler. */
  method Handler(req: Request, env: Env, create: CreateResult, fetch: nat -> FetchResult)
    returns (response: Response, calls: seq<Call>)
    ensures req.httpMethod == "OPTIONS" ==> response == Sent(200, Empty) && calls == []
    ensures req.httpMethod != "OPTIONS" && req.httpMethod != "POST" ==>
              response == Sent(405, Error(MethodNotAllowedError)) && calls == []
    ensures req.httpMethod == "POST" && (!Truthy(req.body.prompt) || !Truthy(req.body.assistantId)) ==>
              response == Sent(400, Error(MissingFieldsError)) && calls == []
    ensures req.httpMethod == "POST" && Truthy(req.body.prompt) && Truthy(req.body.assistantId)
              && !(Truthy(env.apiKey) && Truthy(env.workspaceId)) ==>
              response == Sent(500, Error(ConfigurationError)) && calls == []
    ensures req.httpMethod == "POST" && Ready(req.body, env) && create.CreateRejected? ==>
              response == Sent(create.status, ErrorDetails(CreateError, create.text))
              && calls == [CreateCall(req.body, env)]
    ensures |calls| <= MaxAttempts + 1
    ensures forall i :: 0 < i < |calls| ==> calls[i].FetchConversation?
    ensures req.httpMethod == "POST" && Ready(req.body, env) && create.Created? ==>
              forall i :: 0 < i < |calls| ==>
                calls[i] == FetchConversation(env.workspaceId.value, env.apiKey.value, create.sId)
    ensures response.Sent? && response.body.TimeoutBody? ==>
              response.status == 408 && response.body.attempts == MaxAttempts && |calls| == MaxAttempts + 1
    ensures req.httpMethod == "POST" ==> Outcome(response, calls) == Resolve(Settings, req.body, env, create, fetch)
  {
    if req.httpMethod == "OPTIONS" {
      return Sent(200, Empty), [];
    }
    if req.httpMethod != "POST" {
      return Sent(405, Error(MethodNotAllowedError)), [];
    }
    response, calls := Run(Settings, req.body, env, create, fetch);
    if response.Sent? && response.body.TimeoutBody? {
      TimeoutReportsBudget(Settings, req.body, env, create, fetch);
    }
  }

  /** When attempts 1 to 3 miss and attempt 4 fetches a conversation with no
      reply, the handler answers 408 with the conversation id, 4 attempts and
      the conversation's URL in the workspace. */
  lemma TimeoutAfterFourAttempts(body: RequestBody, env: Env, conversationId: string,
                                 fetch: nat -> FetchResult)
    requires Ready(body, env)
    requires forall j :: 1 <= j < MaxAttempts ==> Miss(fetch(j))
    requires fetch(MaxAttempts).Fetched? && !Hit(fetch(MaxAttempts))
    ensures Resolve(Settings, body, env, Created(conversationId), fetch).response
         == Sent(408, TimeoutBody(TimeoutError, conversationId, 4,
                                  "https://dust.tt/w/" + env.workspaceId.value + "/conversation/" + conversationId))
  {
    TimeoutIffBudgetExhausted(Settings, body, env, conversationId, fetch);
    TimeoutReportsBudget(Settings, body, env, Created(conversationId), fetch);
  }

  /** When attempts 1 to 3 miss and the fetch of attempt 4 is not ok, the
      loop runs out and no response is sent. */
  lemma RejectedFourthFetchIsUnanswered(body: RequestBody, env: Env, conversationId: string,
                                        fetch: nat -> FetchResult)
    requires Ready(body, env)
    requires forall j :: 1 <= j < MaxAttempts ==> Miss(fetch(j))
    requires fetch(MaxAttempts).FetchRejected?
    ensures Resolve(Settings, body, env, Created(conversationId), fetch).response == NoResponse
    ensures |Resolve(Settings, body, env, Created(conversationId), fetch).calls| == 5
  {
    UnansweredIffFinalFetchRejected(Settings, body, env, conversationId, fetch);
  }
}
