/** The request-resolution logic shared by the serverless handler and the
    Express route: input validation, conversation creation, and the bounded,
    fixed-interval polling loop that waits for the assistant's answer.
    The two entry points differ only in the attempt budget and in whether the
    internal-error body carries a stack trace, which `Config` captures. */
module Resolution {
  import opened Wire
  import opened Selection

  datatype Config = Config(maxAttempts: nat, exposeStack: bool)

  const TitlePrefix := "Mockup: "
  const TitleSuffix := "..."
  const TitlePromptLength := 50
  const Timezone := "Europe/Paris"
  const Username := "Figma Plugin User"
  const WorkspaceUrl := "https://dust.tt/w/"
  const ConversationSegment := "/conversation/"

  /** The conversation title: a fixed prefix, at most the first 50 characters
      of the prompt, and an ellipsis. */
  function Title(prompt: string): (t: string)
    ensures |TitlePrefix| + |TitleSuffix| <= |t| <= |TitlePrefix| + TitlePromptLength + |TitleSuffix| == 61
    ensures t[..|TitlePrefix|] == TitlePrefix && t[|t| - |TitleSuffix|..] == TitleSuffix
    ensures t[|TitlePrefix|..|t| - |TitleSuffix|] <= prompt
    ensures |prompt| <= TitlePromptLength ==> t[|TitlePrefix|..|t| - |TitleSuffix|] == prompt
    ensures |prompt| >= TitlePromptLength ==> |t| == 61
  {
    var cut := if |prompt| < TitlePromptLength then |prompt| else TitlePromptLength;
    TitlePrefix + prompt[..cut] + TitleSuffix
  }

  /** The body of the conversation-creation call: the prompt as message
      content, no mentions, the fixed context, non-blocking creation. */
  function Payload(prompt: string, assistantId: string): (p: CreatePayload)
    ensures p.content == prompt && p.assistantId == assistantId && p.mentions == []
    ensures p.timezone == "Europe/Paris" && p.username == "Figma Plugin User"
    ensures !p.blocking && p.title == Title(prompt)
  {
    CreatePayload(prompt, [], Timezone, Username, assistantId, false, Title(prompt))
  }

  /** The human-facing URL of a conversation: the workspace, then the id. */
  function ConversationUrl(workspaceId: string, conversationId: string): (url: string)
    ensures |url| == |WorkspaceUrl| + |workspaceId| + |ConversationSegment| + |conversationId|
    ensures url[..|WorkspaceUrl| + |workspaceId|] == WorkspaceUrl + workspaceId
    ensures url[|url| - |conversationId|..] == conversationId
  {
    WorkspaceUrl + workspaceId + ConversationSegment + conversationId
  }

  /** The 200 envelope: the fetched conversation with every field kept except
      `content`, which holds only the selected message. */
  function Found(conversation: Conversation, m: Message): (r: Response)
    ensures r.Sent? && r.status == 200 && r.body.ConversationBody?
    ensures r.body.conversation.content == [[m]]
    ensures r.body.conversation.attributes == conversation.attributes
  {
    Sent(200, ConversationBody(conversation.(content := [[m]])))
  }

  /** The 408 envelope, with the debug fields. */
  function TimedOut(cfg: Config, workspaceId: string, conversationId: string): (r: Response)
    ensures r.Sent? && r.status == 408 && r.body.TimeoutBody? && r.body.error == TimeoutError
    ensures r.body.conversationId == conversationId && r.body.attempts == cfg.maxAttempts
    ensures r.body.conversationUrl == ConversationUrl(workspaceId, conversationId)
  {
    Sent(408, TimeoutBody(TimeoutError, conversationId, cfg.maxAttempts,
                          ConversationUrl(workspaceId, conversationId)))
  }

  /** The 500 envelope of the catch branch. */
  function Internal(cfg: Config): (r: Response)
    ensures r.Sent? && r.status == 500 && r.body.InternalErrorBody?
    ensures r.body.withStack == cfg.exposeStack
  {
    Sent(500, InternalErrorBody(cfg.exposeStack))
  }

  /** Both request fields and both secrets are truthy. */
  predicate Ready(body: RequestBody, env: Env) {
    Truthy(body.prompt) && Truthy(body.assistantId) && Truthy(env.apiKey) && Truthy(env.workspaceId)
  }

  /** The creation call a ready request makes. */
  function CreateCall(body: RequestBody, env: Env): Call
    requires Ready(body, env)
  {
    CreateConversation(env.workspaceId.value, env.apiKey.value,
                       Payload(body.prompt.value, body.assistantId.value))
  }

  /** An attempt that does not end the loop on its own: the fetch was not ok,
      or the conversation holds no reply yet. */
  predicate Miss(f: FetchResult) {
    f.FetchRejected? || (f.Fetched? && LastReply(f.conversation.content).None?)
  }

  /** An attempt whose conversation holds a reply. */
  predicate Hit(f: FetchResult) {
    f.Fetched? && LastReply(f.conversation.content).Some?
  }

  /** The polling loop from attempt `attempt` on, as a function: what is sent
      and which fetches are made. */
  function Poll(cfg: Config, workspaceId: string, apiKey: string, conversationId: string,
                fetch: nat -> FetchResult, attempt: nat): (o: Outcome)
    ensures |o.calls| <= if attempt <= cfg.maxAttempts then cfg.maxAttempts + 1 - attempt else 0
    ensures forall c :: c in o.calls ==> c == FetchConversation(workspaceId, apiKey, conversationId)
    decreases cfg.maxAttempts + 1 - attempt
  {
    if attempt > cfg.maxAttempts then Outcome(NoResponse, [])
    else
      var call := FetchConversation(workspaceId, apiKey, conversationId);
      match fetch(attempt)
      case FetchThrew => Outcome(Internal(cfg), [call])
      case FetchRejected =>
        var rest := Poll(cfg, workspaceId, apiKey, conversationId, fetch, attempt + 1);
        Outcome(rest.response, [call] + rest.calls)
      case Fetched(conversation) =>
        match LastReply(conversation.content)
        case Some(m) => Outcome(Found(conversation, m), [call])
        case None =>
          if attempt == cfg.maxAttempts then
            Outcome(TimedOut(cfg, workspaceId, conversationId), [call])
          else
            var rest := Poll(cfg, workspaceId, apiKey, conversationId, fetch, attempt + 1);
            Outcome(rest.response, [call] + rest.calls)
  }

  /** The whole POST handling, as a function of the request body, the
      environment and the service's answers. */
  function Resolve(cfg: Config, body: RequestBody, env: Env, create: CreateResult,
                   fetch: nat -> FetchResult): (o: Outcome)
    ensures |o.calls| <= cfg.maxAttempts + 1
    ensures forall i :: 0 < i < |o.calls| ==> o.calls[i].FetchConversation?
    ensures Ready(body, env) && create.Created? ==>
              forall i :: 0 < i < |o.calls| ==>
                o.calls[i] == FetchConversation(env.workspaceId.value, env.apiKey.value, create.sId)
  {
    if !Truthy(body.prompt) || !Truthy(body.assistantId) then
      Outcome(Sent(400, Error(MissingFieldsError)), [])
    else if !Truthy(env.apiKey) || !Truthy(env.workspaceId) then
      Outcome(Sent(500, Error(ConfigurationError)), [])
    else
      var createCall := CreateCall(body, env);
      match create
      case CreateThrew => Outcome(Internal(cfg), [createCall])
      case CreateRejected(status, text) =>
        Outcome(Sent(status, ErrorDetails(CreateError, text)), [createCall])
      case Created(conversationId) =>
        var polled := Poll(cfg, env.workspaceId.value, env.apiKey.value, conversationId, fetch, 1);
        var fetchCall := FetchConversation(env.workspaceId.value, env.apiKey.value, conversationId);
        assert forall i :: 0 < i < |[createCall] + polled.calls| ==>
          ([createCall] + polled.calls)[i] == fetchCall by {
          forall i | 0 < i < |[createCall] + polled.calls|
            ensures ([createCall] + polled.calls)[i] == fetchCall
          {
            assert ([createCall] + polled.calls)[i] == polled.calls[i - 1];
            assert polled.calls[i - 1] in polled.calls;
          }
        }
        Outcome(polled.response, [createCall] + polled.calls)
  }

  /** The handler body after method dispatch: early exits, creation, and the
      polling loop over attempts 1 .. cfg.maxAttempts. */
  method Run(cfg: Config, body: RequestBody, env: Env, create: CreateResult,
             fetch: nat -> FetchResult) returns (response: Response, calls: seq<Call>)
    ensures !Truthy(body.prompt) || !Truthy(body.assistantId) ==>
              response == Sent(400, Error(MissingFieldsError)) && calls == []
    ensures Truthy(body.prompt) && Truthy(body.assistantId) && !(Truthy(env.apiKey) && Truthy(env.workspaceId)) ==>
              response == Sent(500, Error(ConfigurationError)) && calls == []
    ensures Ready(body, env) ==> |calls| >= 1 && calls[0] == CreateCall(body, env)
    ensures Ready(body, env) && create.CreateRejected? ==>
              response == Sent(create.status, ErrorDetails(CreateError, create.text)) && |calls| == 1
    ensures Outcome(response, calls) == Resolve(cfg, body, env, create, fetch)
  {
    if !Truthy(body.prompt) || !Truthy(body.assistantId) {
      return Sent(400, Error(MissingFieldsError)), [];
    }
    if !Truthy(env.apiKey) || !Truthy(env.workspaceId) {
      return Sent(500, Error(ConfigurationError)), [];
    }
    var workspaceId, apiKey := env.workspaceId.value, env.apiKey.value;
    calls := [CreateConversation(workspaceId, apiKey, Payload(body.prompt.value, body.assistantId.value))];
    if create.CreateThrew? {
      return Internal(cfg), calls;
    }
    if create.CreateRejected? {
      return Sent(create.status, ErrorDetails(CreateError, create.text)), calls;
    }
    var polled, fetches := PollLoop(cfg, workspaceId, apiKey, create.sId, fetch);
    response, calls := polled, calls + fetches;
  }

  /** The polling loop over attempts 1 .. cfg.maxAttempts: one fetch per
      attempt; a fetch that is not ok moves on to the next attempt; a reply
      ends the loop with the 200 envelope; a reply-less last attempt with the
      408 envelope. When the last fetch is not ok the loop just runs out. */
  method PollLoop(cfg: Config, workspaceId: string, apiKey: string, conversationId: string,
                  fetch: nat -> FetchResult) returns (response: Response, calls: seq<Call>)
    ensures Outcome(response, calls) == Poll(cfg, workspaceId, apiKey, conversationId, fetch, 1)
  {
    var fetchCall := FetchConversation(workspaceId, apiKey, conversationId);
    calls := [];
    var attempt := 1;
    while attempt <= cfg.maxAttempts
      invariant 1 <= attempt <= cfg.maxAttempts + 1
      invariant var rest := Poll(cfg, workspaceId, apiKey, conversationId, fetch, attempt);
                Poll(cfg, workspaceId, apiKey, conversationId, fetch, 1)
                  == Outcome(rest.response, calls + rest.calls)
      decreases cfg.maxAttempts + 1 - attempt
    {
      calls := calls + [fetchCall];
      var result := fetch(attempt);
      if result.FetchThrew? {
        return Internal(cfg), calls;
      }
      if result.FetchRejected? {
        attempt := attempt + 1;
        continue;
      }
      var reply := LastReply(result.conversation.content);
      if reply.Some? {
        return Found(result.conversation, reply.value), calls;
      }
      if attempt == cfg.maxAttempts {
        return TimedOut(cfg, workspaceId, conversationId), calls;
      }
      attempt := attempt + 1;
    }
    response := NoResponse;
  }

  // ---------------------------------------------------------------------------
  // The polling loop decided by its first decisive attempt

  /** An attempt that ends the loop: anything but a miss, or any answer on
      the last attempt. */
  predicate Decisive(cfg: Config, f: FetchResult, attempt: nat) {
    !Miss(f) || attempt == cfg.maxAttempts
  }

  /** The first decisive attempt from `attempt` on. */
  function FirstDecisive(cfg: Config, fetch: nat -> FetchResult, attempt: nat): (k: nat)
    requires attempt <= cfg.maxAttempts
    ensures attempt <= k <= cfg.maxAttempts
    ensures Decisive(cfg, fetch(k), k)
    ensures forall j :: attempt <= j < k ==> !Decisive(cfg, fetch(j), j)
    decreases cfg.maxAttempts - attempt
  {
    if Decisive(cfg, fetch(attempt), attempt) then attempt
    else FirstDecisive(cfg, fetch, attempt + 1)
  }

  /** What a decisive attempt sends: an exception gives the 500 envelope, a
      reply the 200 envelope, a reply-less conversation the 408 envelope, and
      a fetch that was not ok nothing at all. */
  function Verdict(cfg: Config, workspaceId: string, conversationId: string, f: FetchResult): Response {
    match f
    case FetchThrew => Internal(cfg)
    case FetchRejected => NoResponse
    case Fetched(conversation) =>
      match LastReply(conversation.content)
      case Some(m) => Found(conversation, m)
      case None => TimedOut(cfg, workspaceId, conversationId)
  }

  /** The loop makes exactly one fetch per attempt up to the first decisive
      one, and what it sends is that attempt's verdict. */
  lemma {:induction false} PollDecided(cfg: Config, workspaceId: string, apiKey: string,
                                       conversationId: string, fetch: nat -> FetchResult, attempt: nat)
    requires attempt <= cfg.maxAttempts
    ensures var o := Poll(cfg, workspaceId, apiKey, conversationId, fetch, attempt);
            var k := FirstDecisive(cfg, fetch, attempt);
            o.response == Verdict(cfg, workspaceId, conversationId, fetch(k))
            && |o.calls| == k - attempt + 1
    decreases cfg.maxAttempts - attempt
  {
    if !Decisive(cfg, fetch(attempt), attempt) {
      PollDecided(cfg, workspaceId, apiKey, conversationId, fetch, attempt + 1);
    }
  }

  // ---------------------------------------------------------------------------
  // Properties of a whole request that got past creation

  /** The first attempt whose conversation holds a reply ends the loop with
      the 200 envelope around that conversation's last reply; exactly `k`
      fetches follow the creation call. */
  lemma FirstReplyWins(cfg: Config, body: RequestBody, env: Env, conversationId: string,
                       fetch: nat -> FetchResult, k: nat)
    requires Ready(body, env)
    requires 1 <= k <= cfg.maxAttempts
    requires forall j :: 1 <= j < k ==> Miss(fetch(j))
    requires Hit(fetch(k))
    ensures var o := Resolve(cfg, body, env, Created(conversationId), fetch);
            var c := fetch(k).conversation;
            o.response == Found(c, LastReply(c.content).value)
            && |o.calls| == k + 1
  {
    PollDecided(cfg, env.workspaceId.value, env.apiKey.value, conversationId, fetch, 1);
    assert FirstDecisive(cfg, fetch, 1) == k;
  }

  /** A 200 envelope is only ever sent for the first attempt with a reply:
      its conversation is that attempt's with `content` replaced by the one
      last reply, which is an agent message with non-empty content. */
  lemma SuccessIsFirstReply(cfg: Config, body: RequestBody, env: Env, create: CreateResult,
                            fetch: nat -> FetchResult)
    requires Resolve(cfg, body, env, create, fetch).response.Sent?
    requires Resolve(cfg, body, env, create, fetch).response.body.ConversationBody?
    ensures Ready(body, env) && create.Created?
    ensures exists k :: 1 <= k <= cfg.maxAttempts && Hit(fetch(k))
              && (forall j :: 1 <= j < k ==> Miss(fetch(j)))
              && var c := fetch(k).conversation;
                 var m := LastReply(c.content).value;
                 Resolve(cfg, body, env, create, fetch).response.body.conversation
                   == c.(content := [[m]])
                 && IsReply(m)
  {
    var o := Resolve(cfg, body, env, create, fetch);
    assert Ready(body, env) && create.Created?;
    var workspaceId := env.workspaceId.value;
    if cfg.maxAttempts > 0 {
      PollDecided(cfg, workspaceId, env.apiKey.value, create.sId, fetch, 1);
      var k := FirstDecisive(cfg, fetch, 1);
      assert Hit(fetch(k));
      assert forall j :: 1 <= j < k ==> Miss(fetch(j));
    }
  }

  /** A 408 envelope only comes out of the polling loop: the request was
      ready, the conversation was created, and the envelope reports
      `attempts == cfg.maxAttempts` and the conversation's id and URL after
      exactly `cfg.maxAttempts` fetches. */
  lemma TimeoutReportsBudget(cfg: Config, body: RequestBody, env: Env, create: CreateResult,
                             fetch: nat -> FetchResult)
    requires Resolve(cfg, body, env, create, fetch).response.Sent?
    requires Resolve(cfg, body, env, create, fetch).response.body.TimeoutBody?
    ensures Ready(body, env) && create.Created? && cfg.maxAttempts >= 1
    ensures var o := Resolve(cfg, body, env, create, fetch);
            o.response == TimedOut(cfg, env.workspaceId.value, create.sId)
            && o.response.status == 408
            && o.response.body.attempts == cfg.maxAttempts
            && |o.calls| == cfg.maxAttempts + 1
  {
    assert Ready(body, env) && create.Created?;
    if cfg.maxAttempts >= 1 {
      PollDecided(cfg, env.workspaceId.value, env.apiKey.value, create.sId, fetch, 1);
      var k := FirstDecisive(cfg, fetch, 1);
      assert k == cfg.maxAttempts by {
        assert Miss(fetch(k));
      }
    }
  }

  /** The 408 envelope is sent exactly when every attempt before the last
      missed and the last attempt fetched a conversation without a reply. */
  lemma TimeoutIffBudgetExhausted(cfg: Config, body: RequestBody, env: Env, conversationId: string,
                                  fetch: nat -> FetchResult)
    requires Ready(body, env)
    requires cfg.maxAttempts >= 1
    ensures var o := Resolve(cfg, body, env, Created(conversationId), fetch);
            (o.response.Sent? && o.response.body.TimeoutBody?)
            <==> ((forall j :: 1 <= j < cfg.maxAttempts ==> Miss(fetch(j)))
                  && fetch(cfg.maxAttempts).Fetched? && !Hit(fetch(cfg.maxAttempts)))
  {
    PollDecided(cfg, env.workspaceId.value, env.apiKey.value, conversationId, fetch, 1);
    var k := FirstDecisive(cfg, fetch, 1);
    if k < cfg.maxAttempts {
      assert !Miss(fetch(k));
    }
  }

  /** No response at all is sent exactly when every attempt before the last
      missed and the last fetch was not ok: `continue` skips the timeout
      branch and the loop runs out. */
  lemma UnansweredIffFinalFetchRejected(cfg: Config, body: RequestBody, env: Env, conversationId: string,
                                        fetch: nat -> FetchResult)
    requires Ready(body, env)
    requires cfg.maxAttempts >= 1
    ensures var o := Resolve(cfg, body, env, Created(conversationId), fetch);
            o.response == NoResponse
            <==> ((forall j :: 1 <= j < cfg.maxAttempts ==> Miss(fetch(j)))
                  && fetch(cfg.maxAttempts).FetchRejected?)
    ensures var o := Resolve(cfg, body, env, Created(conversationId), fetch);
            o.response == NoResponse ==> |o.calls| == cfg.maxAttempts + 1
  {
    PollDecided(cfg, env.workspaceId.value, env.apiKey.value, conversationId, fetch, 1);
    var k := FirstDecisive(cfg, fetch, 1);
    if k < cfg.maxAttempts {
      assert !Miss(fetch(k));
    }
  }

  /** From attempt `b` on, the loop cannot tell a fetch that was not ok at
      attempt `a` from a fetched conversation without a reply there. */
  lemma {:induction false} RejectedLikeMissFrom(cfg: Config, workspaceId: string, apiKey: string,
                                                conversationId: string, f: nat -> FetchResult,
                                                g: nat -> FetchResult, a: nat, c: Conversation, b: nat)
    requires a < cfg.maxAttempts
    requires f(a) == FetchRejected && g(a) == Fetched(c) && LastReply(c.content).None?
    requires forall j :: j != a ==> f(j) == g(j)
    ensures Poll(cfg, workspaceId, apiKey, conversationId, f, b)
         == Poll(cfg, workspaceId, apiKey, conversationId, g, b)
    decreases cfg.maxAttempts + 1 - b
  {
    if b <= cfg.maxAttempts {
      RejectedLikeMissFrom(cfg, workspaceId, apiKey, conversationId, f, g, a, c, b + 1);
    }
  }

  /** A fetch that was not ok before the last attempt is absorbed: it uses up
      its attempt on the same counter and counts exactly like a conversation
      without a reply, for the response and for the fetches made. */
  lemma RejectedFetchCountsAsMiss(cfg: Config, workspaceId: string, apiKey: string,
                                  conversationId: string, f: nat -> FetchResult,
                                  g: nat -> FetchResult, a: nat, c: Conversation)
    requires a < cfg.maxAttempts
    requires f(a) == FetchRejected && g(a) == Fetched(c) && LastReply(c.content).None?
    requires forall j :: j != a ==> f(j) == g(j)
    ensures Poll(cfg, workspaceId, apiKey, conversationId, f, 1)
         == Poll(cfg, workspaceId, apiKey, conversationId, g, 1)
  {
    RejectedLikeMissFrom(cfg, workspaceId, apiKey, conversationId, f, g, a, c, 1);
  }
}
