/** The endpoint handler: maps a request and the deployment's configuration
    to a status code and a JSON body.  Non-POST requests get 405, a request
    without thoughts or tone gets 400, the configured provider's adapter runs
    once otherwise, and whatever it throws becomes a 500 carrying the thrown
    message. */
module Handler {
  import opened JsStrings
  import opened Prompt
  import opened Providers

  /** The fields of the request's JSON body; `None` for an absent field. */
  datatype RequestBody = RequestBody(thoughts: Option<string>, tone: Option<string>, replyContext: Option<string>)

  datatype Request = Request(httpMethod: string, body: RequestBody)

  /** The deployment's environment: the provider setting and one API key per
      provider, each possibly unset. */
  datatype Config = Config(aiProvider: Option<string>, openAIKey: Option<string>,
                           anthropicKey: Option<string>, cohereKey: Option<string>) {
    function KeyFor(p: Provider): Option<string> {
      match p
      case OpenAI => openAIKey
      case Anthropic => anthropicKey
      case Cohere => cohereKey
    }
  }

  /** The three JSON shapes the handler answers with. */
  datatype ResponseBody =
    | ErrorBody(error: string)
    | FailureBody(error: string, details: string)
    | EmailBody(email: string)

  datatype Response = Response(status: nat, body: ResponseBody)

  /** The response, the adapters the handler invoked, and the requests they
      sent. */
  datatype Run = Run(response: Response, invoked: seq<Provider>, fetched: seq<FetchCall>)

  const DefaultProvider: string := "anthropic"
  const InvalidProviderMessage: string := "Invalid AI provider configured"
  const FailureError: string := "Failed to generate email"

  const MethodNotAllowed: Response := Response(405, ErrorBody("Method not allowed"))
  const MissingFields: Response := Response(400, ErrorBody("Missing required fields"))

  /** The 500 response for a thrown error with the given message. */
  function Failed(message: string): Response {
    Response(500, FailureBody(FailureError, message))
  }

  /** `process.env.AI_PROVIDER || 'anthropic'`, then the provider whose
      setting that is, or the invalid-provider error.  An unset or empty
      setting selects Anthropic. */
  function SelectProvider(setting: Option<string>): (r: Result<Provider, string>)
    ensures r.Ok? ==> r.value.Setting() == OrElse(setting, DefaultProvider)
    ensures r.Err? ==> r.error == InvalidProviderMessage
                       && forall p: Provider :: p.Setting() != OrElse(setting, DefaultProvider)
  {
    var name := OrElse(setting, DefaultProvider);
    if name == "openai" then Ok(OpenAI)
    else if name == "anthropic" then Ok(Anthropic)
    else if name == "cohere" then Ok(Cohere)
    else Err(InvalidProviderMessage)
  }

  /** Each provider's own setting selects it, and an unset or empty setting
      selects Anthropic. */
  lemma SettingSelectsItsProvider(p: Provider)
    ensures SelectProvider(Some(p.Setting())) == Ok(p)
    ensures SelectProvider(None) == Ok(Anthropic) && SelectProvider(Some("")) == Ok(Anthropic)
  {
  }

  /** `handler(req, res)`. */
  function Handle(req: Request, config: Config, network: Network): (r: Run)
    ensures r.response.status in {200, 400, 405, 500}
    ensures r.response.status == 200 <==> r.response.body.EmailBody?
    ensures r.response.status == 500 <==> r.response.body.FailureBody?
    ensures r.response.body.EmailBody? ==> Trimmed(r.response.body.email)
    ensures r.response.body.FailureBody? ==> r.response.body.error == FailureError
    ensures |r.invoked| <= 1 && |r.fetched| <= |r.invoked|
    ensures r.response.status in {400, 405} ==> r.invoked == [] && r.fetched == []
  {
    if req.httpMethod != "POST" then Run(MethodNotAllowed, [], [])
    else if !Truthy(req.body.thoughts) || !Truthy(req.body.tone) then Run(MissingFields, [], [])
    else
      match SelectProvider(config.aiProvider)
      case Err(message) => Run(Failed(message), [], [])
      case Ok(p) =>
        var run := Generate(p, config.KeyFor(p), req.body.thoughts.value, req.body.tone.value,
                            req.body.replyContext, network);
        match run.result
        case Ok(email) => Run(Response(200, EmailBody(email)), [p], run.fetched)
        case Err(message) => Run(Failed(message), [p], run.fetched)
  }

  /** A request that passes both checks. */
  predicate Accepted(req: Request) {
    req.httpMethod == "POST" && Truthy(req.body.thoughts) && Truthy(req.body.tone)
  }

  /** Any method other than POST gets 405 and nothing else happens, whatever
      the body and the configuration. */
  lemma NonPostIsNotAllowed(req: Request, config: Config, network: Network)
    ensures Handle(req, config, network).response.status == 405 <==> req.httpMethod != "POST"
    ensures req.httpMethod != "POST" ==> Handle(req, config, network) == Run(MethodNotAllowed, [], [])
  {
  }

  /** A POST whose thoughts or tone is absent or empty gets 400 and no
      adapter runs. */
  lemma MissingFieldIsRejected(req: Request, config: Config, network: Network)
    ensures Handle(req, config, network).response.status == 400
            <==> req.httpMethod == "POST" && (!Truthy(req.body.thoughts) || !Truthy(req.body.tone))
    ensures req.httpMethod == "POST" && (!Truthy(req.body.thoughts) || !Truthy(req.body.tone))
            ==> Handle(req, config, network) == Run(MissingFields, [], [])
  {
  }

  /** Thoughts made only of white space are not rejected. */
  lemma WhiteSpaceThoughtsPass(req: Request, config: Config, network: Network)
    requires req.httpMethod == "POST" && Truthy(req.body.tone)
    requires req.body.thoughts.Some? && |req.body.thoughts.value| > 0
    requires AllWhiteSpace(req.body.thoughts.value)
    ensures Handle(req, config, network).response.status != 400
  {
  }

  /** An accepted request with a valid provider setting runs that provider's
      adapter, and only it, exactly once, with the request's fields; at most
      one request goes out, to that provider, carrying the prompt built from
      the request. */
  lemma SelectedAdapterRunsOnce(req: Request, config: Config, network: Network, p: Provider)
    requires Accepted(req) && SelectProvider(config.aiProvider) == Ok(p)
    ensures var r := Handle(req, config, network);
            r.invoked == [p]
            && r.fetched == Generate(p, config.KeyFor(p), req.body.thoughts.value, req.body.tone.value,
                                     req.body.replyContext, network).fetched
            && (forall c :: c in r.fetched ==>
                  (c.provider == p
                   && c.prompt == CreatePrompt(req.body.thoughts.value, req.body.tone.value, req.body.replyContext)))
  {
  }

  /** An unknown provider setting is a 500 with the invalid-provider message,
      and no adapter runs. */
  lemma InvalidProviderFails(req: Request, config: Config, network: Network)
    requires Accepted(req)
    requires forall p: Provider :: p.Setting() != OrElse(config.aiProvider, DefaultProvider)
    ensures Handle(req, config, network) == Run(Failed(InvalidProviderMessage), [], [])
  {
  }

  /** Everything the selected adapter throws reaches the client as a 500
      whose details are the thrown message verbatim, and everything it
      returns as a 200 with that email. */
  lemma AdapterOutcomeIsForwarded(req: Request, config: Config, network: Network, p: Provider)
    requires Accepted(req) && SelectProvider(config.aiProvider) == Ok(p)
    ensures var g := Generate(p, config.KeyFor(p), req.body.thoughts.value, req.body.tone.value,
                              req.body.replyContext, network);
            Handle(req, config, network).response
            == match g.result
               case Ok(email) => Response(200, EmailBody(email))
               case Err(message) => Failed(message)
  {
  }

  /** A missing key for the selected provider is a 500 naming that
      provider's key, and no request goes out. */
  lemma MissingKeyFails(req: Request, config: Config, network: Network, p: Provider)
    requires Accepted(req) && SelectProvider(config.aiProvider) == Ok(p)
    requires !Truthy(config.KeyFor(p))
    ensures Handle(req, config, network) == Run(Failed(KeyMissingMessage(p)), [p], [])
  {
  }

  /** A non-OK upstream status is a 500 whose details name the provider and
      carry the status and the upstream text, all readable back; when the
      upstream text cannot be read, the details are the read's own error. */
  lemma UpstreamStatusFails(req: Request, config: Config, network: Network, p: Provider)
    requires Accepted(req) && SelectProvider(config.aiProvider) == Ok(p)
    requires Truthy(config.KeyFor(p))
    requires var o := network(FetchCall(p, config.KeyFor(p).value,
                                        CreatePrompt(req.body.thoughts.value, req.body.tone.value, req.body.replyContext)));
             o.Received? && !IsOkStatus(o.status)
    ensures var o := network(FetchCall(p, config.KeyFor(p).value,
                                       CreatePrompt(req.body.thoughts.value, req.body.tone.value, req.body.replyContext)));
            var r := Handle(req, config, network);
            (o.text.Ok? ==>
               r.response == Failed(UpstreamError(p, o.status, o.text.value).Message())
               && ParseUpstreamError(r.response.body.details) == Some(UpstreamError(p, o.status, o.text.value)))
            && (o.text.Err? ==> r.response == Failed(o.text.error))
  {
    GenerateReportsStatus(p, config.KeyFor(p).value, req.body.thoughts.value, req.body.tone.value,
                          req.body.replyContext, network);
  }

  /** The handler answers 200 exactly when an accepted request reaches a
      configured provider that returns an OK response with a readable text
      field; the email is then that field trimmed. */
  lemma SuccessIsTheTrimmedText(req: Request, config: Config, network: Network)
    ensures var r := Handle(req, config, network);
            r.response.status == 200 <==>
              (Accepted(req)
               && SelectProvider(config.aiProvider).Ok?
               && var p := SelectProvider(config.aiProvider).value;
                  Truthy(config.KeyFor(p))
                  && var o := network(FetchCall(p, config.KeyFor(p).value,
                                                CreatePrompt(req.body.thoughts.value, req.body.tone.value,
                                                             req.body.replyContext)));
                     o.Received? && IsOkStatus(o.status) && o.content.Ok?
                     && r.response.body == EmailBody(Trim(o.content.value)))
  {
    var r := Handle(req, config, network);
    if Accepted(req) && SelectProvider(config.aiProvider).Ok? {
      var p := SelectProvider(config.aiProvider).value;
      GenerateSucceedsOnOkResponse(p, config.KeyFor(p), req.body.thoughts.value, req.body.tone.value,
                                   req.body.replyContext, network);
    }
  }
}
