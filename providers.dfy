/** The three provider adapters (`generateWithOpenAI`, `generateWithAnthropic`,
    `generateWithCohere`).  Each checks that its API key is configured, sends
    the prompt once, turns a non-OK HTTP status into an error naming the
    provider, the status and the response text, and otherwise returns the
    generated text trimmed.  The HTTPS request itself is a parameter: the
    network is a function from the request an adapter makes to what comes
    back. */
module Providers {
  import opened JsStrings
  import opened Prompt

  datatype Provider = OpenAI | Anthropic | Cohere {
    /** The name the adapter puts at the head of its error messages. */
    function Name(): string {
      match this
      case OpenAI => "OpenAI"
      case Anthropic => "Anthropic"
      case Cohere => "Cohere"
    }

    /** The provider setting that selects this adapter. */
    function Setting(): string {
      match this
      case OpenAI => "openai"
      case Anthropic => "anthropic"
      case Cohere => "cohere"
    }
  }

  /** One outbound request: to which provider, authenticated by which key,
      carrying which prompt. */
  datatype FetchCall = FetchCall(provider: Provider, apiKey: string, prompt: string)

  /** What comes back for a request: either `fetch` rejects with an error, or
      a response arrives with its status, its body as text (read when the
      status is not OK) or the message of the error thrown reading it, and
      the generated-text field of its JSON body (read when the status is OK)
      or the message of the error thrown reading that field. */
  datatype HttpOutcome =
    | Rejected(message: string)
    | Received(status: nat, text: Result<string, string>, content: Result<string, string>)

  type Network = FetchCall -> HttpOutcome

  /** `response.ok`. */
  predicate IsOkStatus(status: nat) {
    200 <= status <= 299
  }

  /** The error an adapter throws when its key is not configured. */
  function KeyMissingMessage(p: Provider): (m: string)
    ensures StartsWith(m, p.Name() + " API ")
    ensures EndsWith(m, "key not configured")
  {
    StartsWithConcat(p.Name() + " API ", "key not configured");
    EndsWithConcat(p.Name() + " API ", "key not configured");
    p.Name() + " API " + "key not configured"
  }

  /** A missing-key message is never read as a status error: it differs from
      every provider's status-error lead. */
  lemma KeyMissingIsNotUpstreamError(p: Provider)
    ensures ParseUpstreamError(KeyMissingMessage(p)).None?
  {
    var m := KeyMissingMessage(p);
    var k := |p.Name()| + 5;
    // Right after "<Name> API " the key message has 'k' where a status error has 'e'.
    assert m[k] == 'k';
    assert (p.Name() + StatusErrorLead)[k] == 'e';
    DiffersAt(m, p.Name() + StatusErrorLead, k);
    // Against another provider's lead the first letters differ.
    assert m[0] == p.Name()[0];
    if p != OpenAI { DiffersAt(m, OpenAI.Name() + StatusErrorLead, 0); }
    if p != Anthropic { DiffersAt(m, Anthropic.Name() + StatusErrorLead, 0); }
    if p != Cohere { DiffersAt(m, Cohere.Name() + StatusErrorLead, 0); }
  }

  const StatusErrorLead: string := " API error: "
  const StatusErrorSeparator: string := " - "

  /** The error an adapter throws for a non-OK status. */
  datatype UpstreamError = UpstreamError(provider: Provider, status: nat, body: string) {
    /** `${Name} API error: ${response.status} - ${error}` */
    function Message(): (m: string)
      ensures StartsWith(m, provider.Name() + StatusErrorLead)
      ensures EndsWith(m, StatusErrorSeparator + body)
      ensures Contains(m, NatToString(status) + StatusErrorSeparator + body)
    {
      var lead := provider.Name() + StatusErrorLead;
      FourParts(lead, NatToString(status), StatusErrorSeparator, body);
      lead + NatToString(status) + StatusErrorSeparator + body
    }
  }

  /** Reads provider, status and response text back out of a status-error
      message. */
  function ParseUpstreamError(m: string): Option<UpstreamError> {
    if StartsWith(m, OpenAI.Name() + StatusErrorLead) then ParseStatusAndBody(OpenAI, m[|OpenAI.Name() + StatusErrorLead|..])
    else if StartsWith(m, Anthropic.Name() + StatusErrorLead) then ParseStatusAndBody(Anthropic, m[|Anthropic.Name() + StatusErrorLead|..])
    else if StartsWith(m, Cohere.Name() + StatusErrorLead) then ParseStatusAndBody(Cohere, m[|Cohere.Name() + StatusErrorLead|..])
    else None
  }

  function ParseStatusAndBody(p: Provider, rest: string): Option<UpstreamError> {
    var n := LeadingDigits(rest);
    if n > 0 && StartsWith(rest[n..], StatusErrorSeparator) then
      Some(UpstreamError(p, DecimalValue(rest[..n]), rest[n + |StatusErrorSeparator|..]))
    else None
  }

  /** The part after the provider's lead reads back as status and body. */
  lemma StatusAndBodyRoundTrip(p: Provider, status: nat, body: string)
    ensures ParseStatusAndBody(p, NatToString(status) + StatusErrorSeparator + body)
            == Some(UpstreamError(p, status, body))
  {
    var digits := NatToString(status);
    var rest := digits + StatusErrorSeparator + body;
    assert rest == digits + (StatusErrorSeparator + body);
    LeadingDigitsOf(digits, StatusErrorSeparator + body);
    SplitAfter(digits, StatusErrorSeparator, body);
    SplitAfter(StatusErrorSeparator, body, "");
    ConcatEmpty(body);
    StartsWithConcat(StatusErrorSeparator, body);
    assert rest[|digits|..][|StatusErrorSeparator|..] == rest[|digits| + |StatusErrorSeparator|..];
    DecimalRoundTrip(status);
  }

  /** A status-error message carries provider, status and response text
      recoverably: reading it back gives exactly what was put in. */
  lemma UpstreamErrorRoundTrip(e: UpstreamError)
    ensures ParseUpstreamError(e.Message()) == Some(e)
  {
    var m := e.Message();
    var lead := e.provider.Name() + StatusErrorLead;
    var rest := NatToString(e.status) + StatusErrorSeparator + e.body;
    assert m == lead + rest;
    StartsWithConcat(lead, rest);
    SplitAfter(lead, rest, "");
    ConcatEmpty(rest);
    // No earlier provider's lead matches: the names differ in their first letter.
    FirstOfConcat(e.provider.Name(), StatusErrorLead);
    FirstOfConcat(lead, rest);
    FirstOfConcat(OpenAI.Name(), StatusErrorLead);
    FirstOfConcat(Anthropic.Name(), StatusErrorLead);
    if e.provider != OpenAI {
      NotStartsWith(m, OpenAI.Name() + StatusErrorLead);
    }
    if e.provider == Cohere {
      NotStartsWith(m, Anthropic.Name() + StatusErrorLead);
    }
    StatusAndBodyRoundTrip(e.provider, e.status, e.body);
  }

  /** The outcome of one adapter call: its return value or thrown message,
      and the requests it sent. */
  datatype AdapterRun = AdapterRun(result: Result<string, string>, fetched: seq<FetchCall>)

  /** `generateWith<Provider>(thoughts, tone, replyContext)` with the
      provider's configured key.  A request goes out exactly when the key is
      configured, and it carries `createPrompt`'s output; a result is the
      generated text of an OK response, trimmed. */
  function Generate(p: Provider, apiKey: Option<string>, thoughts: string, tone: string,
                    replyContext: Option<string>, network: Network): (r: AdapterRun)
    ensures |r.fetched| <= 1
    ensures r.fetched != [] <==> Truthy(apiKey)
    ensures r.fetched != [] ==> r.fetched[0] == FetchCall(p, apiKey.value, CreatePrompt(thoughts, tone, replyContext))
    ensures !Truthy(apiKey) ==> r.result == Err(KeyMissingMessage(p))
    ensures r.fetched != [] && network(r.fetched[0]).Rejected?
            ==> r.result == Err(network(r.fetched[0]).message)
    ensures r.fetched != [] && network(r.fetched[0]).Received? && !IsOkStatus(network(r.fetched[0]).status)
              && network(r.fetched[0]).text.Ok?
            ==> r.result == Err(UpstreamError(p, network(r.fetched[0]).status, network(r.fetched[0]).text.value).Message())
    ensures r.fetched != [] && network(r.fetched[0]).Received? && !IsOkStatus(network(r.fetched[0]).status)
              && network(r.fetched[0]).text.Err?
            ==> r.result == Err(network(r.fetched[0]).text.error)
    ensures r.fetched != [] && network(r.fetched[0]).Received? && IsOkStatus(network(r.fetched[0]).status)
              && network(r.fetched[0]).content.Err?
            ==> r.result == Err(network(r.fetched[0]).content.error)
    ensures r.result.Ok? ==> Trimmed(r.result.value)
  {
    if !Truthy(apiKey) then AdapterRun(Err(KeyMissingMessage(p)), [])
    else
      var call := FetchCall(p, apiKey.value, CreatePrompt(thoughts, tone, replyContext));
      var result :=
        match network(call)
        case Rejected(message) => Err(message)
        case Received(status, text, content) =>
          if !IsOkStatus(status) then
            match text
            case Ok(body) => Err(UpstreamError(p, status, body).Message())
            case Err(message) => Err(message)
          else match content
            case Ok(raw) => Ok(Trim(raw))
            case Err(message) => Err(message);
      AdapterRun(result, [call])
  }

  /** An adapter succeeds exactly when its key is configured and the response
      is OK with a readable text field, and it then returns that field with
      its surrounding white space, and only that, removed. */
  lemma GenerateSucceedsOnOkResponse(p: Provider, apiKey: Option<string>, thoughts: string, tone: string,
                                     replyContext: Option<string>, network: Network)
    ensures var r := Generate(p, apiKey, thoughts, tone, replyContext, network);
            r.result.Ok? <==>
              (Truthy(apiKey)
               && var o := network(r.fetched[0]);
                  o.Received? && IsOkStatus(o.status) && o.content.Ok?)
    ensures var r := Generate(p, apiKey, thoughts, tone, replyContext, network);
            r.result.Ok? ==>
              exists i :: 0 <= i <= |network(r.fetched[0]).content.value| - |r.result.value|
                && var raw := network(r.fetched[0]).content.value;
                   AllWhiteSpace(raw[..i]) && raw[i..i + |r.result.value|] == r.result.value
                   && AllWhiteSpace(raw[i + |r.result.value|..])
  {
  }

  /** A non-OK status becomes an error that names the adapter's provider and
      carries the status and the response text, all recoverable from it; when
      the response text cannot be read, the read's own error is thrown. */
  lemma GenerateReportsStatus(p: Provider, key: string, thoughts: string, tone: string,
                              replyContext: Option<string>, network: Network)
    requires key != ""
    requires var o := network(FetchCall(p, key, CreatePrompt(thoughts, tone, replyContext)));
             o.Received? && !IsOkStatus(o.status)
    ensures var o := network(FetchCall(p, key, CreatePrompt(thoughts, tone, replyContext)));
            var r := Generate(p, Some(key), thoughts, tone, replyContext, network);
            r.result.Err?
            && (o.text.Ok? ==>
                  r.result.error == UpstreamError(p, o.status, o.text.value).Message()
                  && ParseUpstreamError(r.result.error) == Some(UpstreamError(p, o.status, o.text.value)))
            && (o.text.Err? ==> r.result.error == o.text.error)
  {
    var o := network(FetchCall(p, key, CreatePrompt(thoughts, tone, replyContext)));
    if o.text.Ok? {
      UpstreamErrorRoundTrip(UpstreamError(p, o.status, o.text.value));
    }
  }

  /** Every adapter sends the same prompt for the same inputs. */
  lemma AdaptersSendTheSamePrompt(p: Provider, q: Provider, keyP: string, keyQ: string,
                                  thoughts: string, tone: string, replyContext: Option<string>,
                                  networkP: Network, networkQ: Network)
    requires keyP != "" && keyQ != ""
    ensures var rp := Generate(p, Some(keyP), thoughts, tone, replyContext, networkP);
            var rq := Generate(q, Some(keyQ), thoughts, tone, replyContext, networkQ);
            |rp.fetched| == 1 && |rq.fetched| == 1
            && rp.fetched[0].prompt == rq.fetched[0].prompt == CreatePrompt(thoughts, tone, replyContext)
  {
  }
}
