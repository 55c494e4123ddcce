/**
 * The webhook client: URL validation, response classification, and the
 * send pipeline that runs each fallible step in turn and stops at the
 * first failure.
 *
 * url.Parse and the HTTP transport are not modelled; they are parameters:
 * `urlParses` says which strings url.Parse accepts, and `transport` gives
 * the outcome of issuing a request (a transport failure, or a status code
 * and a body that was or was not read in full).
 */
module SendMessage {
  import opened Wrappers
  import opened MessageCards
  import opened WebhookPattern

  /** The body a webhook endpoint answers with when it accepted the message. */
  const ExpectedEndpointResponseText := "1"
  /** The Content-Type header of every request. */
  const ContentType := "application/json;charset=utf-8"

  /** Why ValidateWebhook rejected a URL. */
  datatype WebhookError = UnparsableURL | PatternMismatch

  /** Why processResponse rejected a response. */
  datatype ResponseError =
    | BodyReadFailed
    | EndpointStatus(status: int, body: string)
    | InvalidResponseText(body: string)

  /** Why a send failed, by the step that failed. */
  datatype SendError =
    | WebhookInvalid(webhook: WebhookError)
    | MessageInvalid(card: CardError)
    | RequestNotBuilt
    | TransportError
    | ResponseRejected(response: ResponseError)

  /** The response body as io.ReadAll returned it. */
  datatype BodyRead = ReadFailed | Read(text: string)

  /** What the HTTP client's Do returned. */
  datatype Exchange = TransportFailed | Responded(status: int, body: BodyRead)

  /** A POST request with its Content-Type header and payload. */
  datatype Request = Request(verb: string, url: string, contentType: string, body: string)

  /** The steps of a send, in the order they run. */
  datatype Step = ValidateURL | ValidateMessage | PrepareMessage | BuildRequest | Transmit | ProcessReply | CloseBody

  /** What one send did: its result and the steps it ran. */
  datatype Run = Run(outcome: Outcome<SendError>, trace: seq<Step>)

  /** The pattern list ValidateWebhook tries in turn; it holds the one webhook pattern. */
  const Patterns: seq<string -> bool> := [MatchWebhookPattern]

  /**
   * The verdict on a webhook URL: parsing comes first, then the raw string
   * (not the parsed URL) is matched against the pattern.
   */
  function WebhookVerdict(url: string, urlParses: string -> bool): (r: Outcome<WebhookError>)
    ensures r == Pass <==> urlParses(url) && MatchesPattern(url)
    ensures !urlParses(url) ==> r == Fail(UnparsableURL)
    ensures urlParses(url) && !MatchesPattern(url) ==> r == Fail(PatternMismatch)
  {
    if !urlParses(url) then Fail(UnparsableURL)
    else if MatchWebhookPattern(url) then Pass
    else Fail(PatternMismatch)
  }

  /** ValidateWebhook: parse, then try each pattern in turn, returning at the first match. */
  method ValidateWebhook(url: string, urlParses: string -> bool) returns (r: Outcome<WebhookError>)
    ensures r == WebhookVerdict(url, urlParses)
  {
    if !urlParses(url) {
      return Fail(UnparsableURL);
    }
    var patterns := Patterns;
    for i := 0 to |patterns|
      invariant forall j :: 0 <= j < i ==> !patterns[j](url)
    {
      if patterns[i](url) {
        assert patterns[i] == MatchWebhookPattern;
        return Pass;
      }
    }
    assert patterns[0] == MatchWebhookPattern;
    return Fail(PatternMismatch);
  }

  /** White space as Go's unicode.IsSpace defines it. */
  predicate IsSpace(c: char): (r: bool)
    ensures c as int <= 0xFF ==>
      (r <==> c in {'\t', '\n', '\U{000B}', '\U{000C}', '\r', ' ', '\U{0085}', '\U{00A0}'})
  {
    var n := c as int;
    n == 0x20 || 0x09 <= n <= 0x0D || n == 0x85 || n == 0xA0 || n == 0x1680
    || 0x2000 <= n <= 0x200A || n == 0x2028 || n == 0x2029 || n == 0x202F
    || n == 0x205F || n == 0x3000
  }

  /** s[i..j] is s with a white-space prefix s[..i] and a white-space suffix s[j..] removed. */
  predicate TrimmedAt(s: string, i: int, j: int) {
    0 <= i <= j <= |s|
    && (forall k :: 0 <= k < i ==> IsSpace(s[k]))
    && (forall k :: j <= k < |s| ==> IsSpace(s[k]))
  }

  /** The end of the white space that starts at index i. */
  function SkipSpace(s: string, i: nat): (k: nat)
    requires i <= |s|
    ensures i <= k <= |s| && (k < |s| ==> !IsSpace(s[k]))
    ensures forall m :: i <= m < k ==> IsSpace(s[m])
    decreases |s| - i
  {
    if i == |s| || !IsSpace(s[i]) then i else SkipSpace(s, i + 1)
  }

  /** The start of the white space that ends at index j, not going below lo. */
  function SkipSpaceBack(s: string, lo: nat, j: nat): (k: nat)
    requires lo <= j <= |s|
    ensures lo <= k <= j && (k > lo ==> !IsSpace(s[k - 1]))
    ensures forall m :: k <= m < j ==> IsSpace(s[m])
    decreases j
  {
    if j == lo || !IsSpace(s[j - 1]) then j else SkipSpaceBack(s, lo, j - 1)
  }

  /** strings.TrimSpace: s without its leading and its trailing white space. */
  function TrimSpace(s: string): (r: string)
    ensures exists i, j :: TrimmedAt(s, i, j) && r == s[i..j]
    ensures r != [] ==> !IsSpace(r[0]) && !IsSpace(r[|r| - 1])
  {
    var i := SkipSpace(s, 0);
    var j := SkipSpaceBack(s, i, |s|);
    assert TrimmedAt(s, i, j);
    s[i..j]
  }

  /**
   * processResponse: a read failure first; then any status from 299 up is an
   * error whatever the body; below that, the body must equal the trimmed
   * success token exactly, and is returned unchanged.
   */
  function ProcessResponse(status: int, body: BodyRead): (r: Result<string, ResponseError>)
    ensures body.ReadFailed? ==> r == Failure(BodyReadFailed)
    ensures body.Read? && status >= 299 ==> r == Failure(EndpointStatus(status, body.text))
    ensures r.Success? <==> body.Read? && status < 299 && body.text == ExpectedEndpointResponseText
    ensures r.Success? ==> r.value == body.text
    ensures body.Read? && status < 299 && body.text != ExpectedEndpointResponseText
            ==> r == Failure(InvalidResponseText(body.text))
  {
    match body
    case ReadFailed => Failure(BodyReadFailed)
    case Read(text) =>
      if status >= 299 then Failure(EndpointStatus(status, text))
      else if text != TrimSpace(ExpectedEndpointResponseText) then Failure(InvalidResponseText(text))
      else Success(text)
  }

  /** prepareRequest: a POST to the URL with the JSON content type; fails only when the URL does not parse. */
  function PrepareRequest(url: string, payload: string, urlParses: string -> bool): (r: Result<Request, SendError>)
    ensures r.Success? <==> urlParses(url)
    ensures r.Success? ==> r.value == Request("POST", url, ContentType, payload)
  {
    if !urlParses(url) then Failure(RequestNotBuilt)
    else Success(Request("POST", url, ContentType, payload))
  }

  /** Every step of a send that gets a response, in order. */
  const AllSteps := [ValidateURL, ValidateMessage, PrepareMessage, BuildRequest, Transmit, ProcessReply, CloseBody]

  /**
   * sendWithContext as a function of the URL, the card's fields and the two
   * oracles: each step runs only when every earlier one succeeded, and the
   * response body is closed after it was processed, on every path that got
   * a response.
   */
  function Pipeline(url: string, c: Card, urlParses: string -> bool, transport: Request -> Exchange): (r: Run)
    ensures r.trace != [] && r.trace[0] == ValidateURL
    ensures r.outcome == Pass ==> WebhookVerdict(url, urlParses) == Pass && c.Validate() == Pass
  {
    var webhook := WebhookVerdict(url, urlParses);
    if webhook.Fail? then Run(Fail(WebhookInvalid(webhook.error)), [ValidateURL])
    else
      var valid := c.Validate();
      if valid.Fail? then Run(Fail(MessageInvalid(valid.error)), [ValidateURL, ValidateMessage])
      else
        var request := PrepareRequest(url, Marshal(c), urlParses);
        if request.Failure? then
          Run(Fail(RequestNotBuilt), [ValidateURL, ValidateMessage, PrepareMessage, BuildRequest])
        else
          Delivery(transport(request.value))
  }

  /**
   * How a send ends once its request was issued: a transport failure, or the
   * response processed and its body closed.
   */
  function Delivery(exchange: Exchange): (r: Run)
    ensures r.outcome == Fail(TransportError) <==> exchange.TransportFailed?
    ensures r.outcome == Pass ==> exchange.Responded? && exchange.status < 299
                                  && exchange.body == Read(ExpectedEndpointResponseText)
  {
    match exchange
    case TransportFailed =>
      Run(Fail(TransportError), [ValidateURL, ValidateMessage, PrepareMessage, BuildRequest, Transmit])
    case Responded(status, body) =>
      var response := ProcessResponse(status, body);
      Run(if response.Success? then Pass else Fail(ResponseRejected(response.error)), AllSteps)
  }

  /**
   * Send (sendWithContext): validate the URL, validate the card, prepare its
   * payload, build the request, issue it, process the response, and close
   * the response body; the first failing step ends the send.
   */
  method Send(url: string, card: MessageCard, urlParses: string -> bool, transport: Request -> Exchange)
    returns (outcome: Outcome<SendError>, trace: seq<Step>)
    modifies card`payload, card.payload
    ensures Run(outcome, trace) == Pipeline(url, old(card.View()), urlParses, transport)
    ensures card.View() == old(card.View())
    ensures PrepareMessage in trace && CloseBody !in trace ==> card.Payload() == Some(Marshal(card.View()))
    ensures CloseBody in trace ==> card.Payload() == Some([])
    ensures PrepareMessage in trace && old(card.payload) != null ==> card.payload == old(card.payload)
    ensures PrepareMessage !in trace ==> card.payload == old(card.payload)
    ensures PrepareMessage !in trace && card.payload != null ==> card.payload.contents == old(card.payload.contents)
    ensures PrepareMessage in trace && old(card.payload) == null ==> fresh(card.payload)
  {
    ghost var c := card.View();
    PipelineCases(url, c, urlParses, transport);
    trace := [ValidateURL];
    var webhook := ValidateWebhook(url, urlParses);
    if webhook.Fail? {
      assert Pipeline(url, c, urlParses, transport) == Run(Fail(WebhookInvalid(webhook.error)), trace);
      return Fail(WebhookInvalid(webhook.error)), trace;
    }
    trace := trace + [ValidateMessage];
    var valid := card.View().Validate();
    if valid.Fail? {
      assert Pipeline(url, c, urlParses, transport) == Run(Fail(MessageInvalid(valid.error)), trace);
      return Fail(MessageInvalid(valid.error)), trace;
    }
    outcome, trace := SendValidated(url, card, urlParses, transport, trace);
    assert Pipeline(url, c, urlParses, transport) == Delivery(transport(PostOf(url, c)));
    DeliverySteps(transport(PostOf(url, c)));
  }

  /**
   * The part of a send after both checks passed: prepare the payload, build
   * the request, issue it, process the response and close its body.
   */
  method SendValidated(url: string, card: MessageCard, urlParses: string -> bool, transport: Request -> Exchange,
                       checked: seq<Step>)
    returns (outcome: Outcome<SendError>, trace: seq<Step>)
    requires WebhookVerdict(url, urlParses) == Pass && card.View().Validate() == Pass
    requires checked == [ValidateURL, ValidateMessage]
    modifies card`payload, card.payload
    ensures Run(outcome, trace) == Delivery(transport(PostOf(url, old(card.View()))))
    ensures card.View() == old(card.View())
    ensures transport(PostOf(url, card.View())).TransportFailed? ==> card.Payload() == Some(Marshal(card.View()))
    ensures transport(PostOf(url, card.View())).Responded? ==> card.Payload() == Some([])
    ensures old(card.payload) != null ==> card.payload == old(card.payload)
    ensures old(card.payload) == null ==> fresh(card.payload)
  {
    ghost var c := card.View();
    card.Prepare();
    trace := checked + [PrepareMessage];
    assert card.View() == c;
    ghost var prepared := card.payload;
    assert card.Payload() == Some(Marshal(c));
    var payload := card.Payload();
    var request := PrepareRequest(url, payload.value, urlParses);
    trace := trace + [BuildRequest];
    if request.Failure? {
      assert false;
      return Fail(RequestNotBuilt), trace;
    }
    assert request.value == PostOf(url, c);
    var exchange := transport(request.value);
    trace := trace + [Transmit];
    StepsAppended();
    if exchange.TransportFailed? {
      return Fail(TransportError), trace;
    }
    // the endpoint answered, so the client wrote the whole request body: the
    // card's buffer, which is that body, has been read to its end
    var written := card.payload.ReadAll();
    assert written == request.value.body;
    assert card.payload == prepared && card.View() == c && card.Payload() == Some([]);
    var response := ProcessResponse(exchange.status, exchange.body);
    trace := trace + [ProcessReply];
    outcome := if response.Success? then Pass else Fail(ResponseRejected(response.error));
    // the deferred Close runs on the way out, after the response was processed
    trace := trace + [CloseBody];
  }

  /** Which steps the four possible traces hold. */
  lemma TraceFacts()
    ensures Transmit !in [ValidateURL] && CloseBody !in [ValidateURL]
    ensures Transmit !in [ValidateURL, ValidateMessage] && CloseBody !in [ValidateURL, ValidateMessage]
    ensures Transmit in AllSteps[..5] && CloseBody !in AllSteps[..5]
    ensures Transmit in AllSteps && AllSteps[|AllSteps| - 1] == CloseBody && multiset(AllSteps)[CloseBody] == 1
  {
    assert AllSteps[..5] == [ValidateURL, ValidateMessage, PrepareMessage, BuildRequest, Transmit];
  }

  /** The steps appended one by one, as a send runs them, spell out the traces the pipeline names. */
  lemma StepsAppended()
    ensures [ValidateURL, ValidateMessage] + [PrepareMessage] + [BuildRequest] + [Transmit]
         == [ValidateURL, ValidateMessage, PrepareMessage, BuildRequest, Transmit]
    ensures [ValidateURL, ValidateMessage, PrepareMessage, BuildRequest, Transmit] + [ProcessReply] + [CloseBody]
         == AllSteps
  {
  }

  /** Every issued request went through PrepareMessage; the body is closed exactly when a response came. */
  lemma DeliverySteps(exchange: Exchange)
    ensures PrepareMessage in Delivery(exchange).trace
    ensures CloseBody in Delivery(exchange).trace <==> exchange.Responded?
  {
    if exchange.TransportFailed? {
      assert Delivery(exchange).trace == [ValidateURL, ValidateMessage, PrepareMessage, BuildRequest, Transmit];
    }
  }

  /** The request a send issues once both checks passed: a POST of the card's JSON text. */
  function PostOf(url: string, c: Card): Request {
    Request("POST", url, ContentType, Marshal(c))
  }

  /** The four ways a send can end, one per group of steps. */
  lemma PipelineCases(url: string, c: Card, urlParses: string -> bool, transport: Request -> Exchange)
    ensures var run := Pipeline(url, c, urlParses, transport);
      !(urlParses(url) && MatchesPattern(url)) ==>
        run == Run(Fail(WebhookInvalid(WebhookVerdict(url, urlParses).error)), [ValidateURL])
    ensures var run := Pipeline(url, c, urlParses, transport);
      urlParses(url) && MatchesPattern(url) && c.Validate().Fail? ==>
        run == Run(Fail(MessageInvalid(c.Validate().error)), [ValidateURL, ValidateMessage])
    ensures urlParses(url) && MatchesPattern(url) && c.Validate().Pass? ==>
      Pipeline(url, c, urlParses, transport) == Delivery(transport(PostOf(url, c)))
    ensures var run := Pipeline(url, c, urlParses, transport);
      urlParses(url) && MatchesPattern(url) && c.Validate().Pass? && transport(PostOf(url, c)).TransportFailed? ==>
        run == Run(Fail(TransportError), AllSteps[..5])
    ensures var run := Pipeline(url, c, urlParses, transport);
      var ex := transport(PostOf(url, c));
      urlParses(url) && MatchesPattern(url) && c.Validate().Pass? && ex.Responded? ==>
        var response := ProcessResponse(ex.status, ex.body);
        run == Run(if response.Success? then Pass else Fail(ResponseRejected(response.error)), AllSteps)
  {
    if !(urlParses(url) && MatchesPattern(url)) {
      assert WebhookVerdict(url, urlParses).Fail?;
    } else if c.Validate().Fail? {
      assert WebhookVerdict(url, urlParses) == Pass;
    } else {
      assert WebhookVerdict(url, urlParses) == Pass;
      assert PrepareRequest(url, Marshal(c), urlParses) == Success(PostOf(url, c));
      assert AllSteps[..5] == [ValidateURL, ValidateMessage, PrepareMessage, BuildRequest, Transmit];
    }
  }

  /** The steps run are always the first few of AllSteps, in order, each at most once. */
  lemma StepsRunInOrder(url: string, c: Card, urlParses: string -> bool, transport: Request -> Exchange)
    ensures var trace := Pipeline(url, c, urlParses, transport).trace;
      1 <= |trace| <= |AllSteps| && trace == AllSteps[..|trace|]
  {
    PipelineCases(url, c, urlParses, transport);
  }

  /** An invalid URL ends the send at once, whatever the card holds. */
  lemma UrlCheckedFirst(url: string, c: Card, urlParses: string -> bool, transport: Request -> Exchange)
    requires !(urlParses(url) && MatchesPattern(url))
    ensures Pipeline(url, c, urlParses, transport)
         == Run(Fail(WebhookInvalid(if urlParses(url) then PatternMismatch else UnparsableURL)), [ValidateURL])
  {
    PipelineCases(url, c, urlParses, transport);
  }

  /**
   * No request is issued unless the URL and the card are both valid; the
   * request then issued is the POST of the card's JSON text, which reads
   * back as the card.
   */
  lemma RequestOnlyForValidInput(url: string, c: Card, urlParses: string -> bool, transport: Request -> Exchange)
    ensures Transmit in Pipeline(url, c, urlParses, transport).trace
        <==> urlParses(url) && MatchesPattern(url) && c.title != "" && c.text != ""
    ensures Transmit in Pipeline(url, c, urlParses, transport).trace
        ==> Unmarshal(PostOf(url, c).body) == Some(c)
  {
    PipelineCases(url, c, urlParses, transport);
    TraceFacts();
    MarshalRoundTrip(c);
  }

  /** Building the request cannot fail: it parses the URL that validation already parsed. */
  lemma RequestAlwaysBuilt(url: string, c: Card, urlParses: string -> bool, transport: Request -> Exchange)
    ensures Pipeline(url, c, urlParses, transport).outcome != Fail(RequestNotBuilt)
  {
    PipelineCases(url, c, urlParses, transport);
  }

  /** The transport is consulted only about the prepared request. */
  lemma OnlyThePreparedRequestIsSent(url: string, c: Card, urlParses: string -> bool,
                                     t1: Request -> Exchange, t2: Request -> Exchange)
    requires t1(PostOf(url, c)) == t2(PostOf(url, c))
    ensures Pipeline(url, c, urlParses, t1) == Pipeline(url, c, urlParses, t2)
  {
  }

  /**
   * The response body is closed exactly when the transport answered, exactly
   * once, and as the last step, whether the response was accepted or not.
   */
  lemma BodyClosedOnceWhenResponded(url: string, c: Card, urlParses: string -> bool, transport: Request -> Exchange)
    ensures var run := Pipeline(url, c, urlParses, transport);
      CloseBody in run.trace <==> Transmit in run.trace && transport(PostOf(url, c)).Responded?
    ensures var run := Pipeline(url, c, urlParses, transport);
      CloseBody in run.trace ==> run.trace[|run.trace| - 1] == CloseBody && multiset(run.trace)[CloseBody] == 1
  {
    PipelineCases(url, c, urlParses, transport);
    TraceFacts();
  }

  /** The endpoint's answer that means the message was accepted. */
  predicate Accepted(ex: Exchange) {
    ex.Responded? && ex.status < 299 && ex.body == Read(ExpectedEndpointResponseText)
  }

  /**
   * A send succeeds exactly when the URL parses and matches, the card has a
   * title and a text, and the endpoint answers the POST with a status below
   * 299 and the body `1`, read in full.
   */
  lemma SendSucceedsIff(url: string, c: Card, urlParses: string -> bool, transport: Request -> Exchange)
    ensures Pipeline(url, c, urlParses, transport).outcome == Pass
        <==> urlParses(url) && MatchesPattern(url) && c.title != "" && c.text != ""
             && Accepted(transport(PostOf(url, c)))
  {
    PipelineCases(url, c, urlParses, transport);
    var ex := transport(PostOf(url, c));
    if urlParses(url) && MatchesPattern(url) && c.Validate().Pass? && ex.Responded? {
      var response := ProcessResponse(ex.status, ex.body);
      assert response.Success? <==> Accepted(ex);
    }
  }

  /** Each kind of failure is reported by the step that failed, after which nothing ran. */
  lemma FailureNamesItsStep(url: string, c: Card, urlParses: string -> bool, transport: Request -> Exchange)
    ensures var run := Pipeline(url, c, urlParses, transport);
      (run.outcome.Fail? && run.outcome.error.WebhookInvalid?) <==> run.trace == [ValidateURL]
    ensures var run := Pipeline(url, c, urlParses, transport);
      (run.outcome.Fail? && run.outcome.error.MessageInvalid?) <==> run.trace == [ValidateURL, ValidateMessage]
    ensures var run := Pipeline(url, c, urlParses, transport);
      (run.outcome.Fail? && run.outcome.error.TransportError?) <==> |run.trace| == 5
    ensures var run := Pipeline(url, c, urlParses, transport);
      (run.outcome.Pass? || run.outcome.error.ResponseRejected?) <==> run.trace == AllSteps
  {
    PipelineCases(url, c, urlParses, transport);
  }

  /** The success token is compared untrimmed: trimming the constant `1` changes nothing. */
  lemma TrimmingTheTokenIsANoOp()
    ensures TrimSpace(ExpectedEndpointResponseText) == ExpectedEndpointResponseText
  {
  }

  /** A body with surrounding white space is rejected, though it trims to the token. */
  lemma BodyIsNotTrimmed()
    ensures TrimSpace("1\n") == "1" && TrimSpace(" 1") == "1"
    ensures ProcessResponse(200, Read("1\n")) == Failure(InvalidResponseText("1\n"))
    ensures ProcessResponse(200, Read(" 1")) == Failure(InvalidResponseText(" 1"))
  {
  }

  /** 298 is still checked on its body; 299 is an error even with the token as body. */
  lemma StatusBoundary()
    ensures ProcessResponse(298, Read("1")) == Success("1")
    ensures ProcessResponse(299, Read("1")) == Failure(EndpointStatus(299, "1"))
  {
  }
}
