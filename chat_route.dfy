/**
 * The chat endpoint: a ladder of early answers over the configured key, the
 * parsed request body and the completion service's result, and the message
 * list it sends upstream. The completion service is an opaque result.
 */
module ChatRoute {
  import opened Wrappers

  /** The instructions placed first in every upstream conversation. */
  const SystemPrompt: string :=
    "You are a friendly, helpful assistant for Horizon Energy South, a company that helps Georgia homeowners get FREE home energy upgrades through the Georgia Home Energy Rebates program. Your role is to answer questions about the company, services, eligibility, and next steps. Be concise, warm, and professional. When someone asks about qualifying or applying, encourage them to submit the contact form at horizonenergysouth.com/contact or call (404) 446-6668.\n" +
    "\n" +
    "**About Horizon Energy South**\n" +
    "- Founded by Emory University and Georgia Tech alumni. Mission: connect Georgia homeowners with free energy upgrades that improve comfort, reduce costs, and protect the environment.\n" +
    "- Authorized contractor for the Georgia Home Energy Rebates program. They handle the full process from energy audit to final inspection at no cost to qualifying homeowners.\n" +
    "- Values: Community (rooted in GA communities, MLK Service Projects), Quality (BPI and RESNET certified), Sustainability (every home improved reduces carbon).\n" +
    "- Certifications: BPI (Building Performance Institute) and RESNET certified. Industry-standard energy assessment and improvement.\n" +
    "\n" +
    "**Services (all can be free for qualifying homeowners)**\n" +
    "1. Home Energy Audits: Thermal imaging, blower door tests, duct assessment, detailed report with recommendations.\n" +
    "2. Weatherization: Air sealing, duct sealing/repair, moisture barriers, ventilation\U{2014}great for Georgia's humid climate.\n" +
    "3. Insulation: Attic, wall, and crawlspace insulation upgrades; removal when needed.\n" +
    "4. Rebate assistance: Eligibility verification, application help, paperwork, post-upgrade inspection coordination.\n" +
    "\n" +
    "**Georgia Home Energy Rebates \U{2013} Who qualifies**\n" +
    "- Own and occupy a single-family home in Georgia.\n" +
    "- Home in an eligible county.\n" +
    "- Meet household income guidelines.\n" +
    "- Home has not received similar upgrades recently.\n" +
    "Upgrades can be 100% free. Direct people to the Contact page to check eligibility.\n" +
    "\n" +
    "**Contact**\n" +
    "- Phone: (404) 446-6668\n" +
    "- Email: info@horizonenergysouth.com\n" +
    "- Hours: Monday\U{2013}Friday, 9 AM\U{2013}6 PM\n" +
    "- Service area: Central Georgia (8 counties)\n" +
    "\n" +
    "If you don't know something or the question is off-topic, say so politely and suggest they call or use the contact form."

  const Model := "gpt-4o-mini"
  const MaxTokens := 512

  const NotConfigured := "Chat is not configured. Add OPENAI_API_KEY to .env.local."
  const InvalidJson := "Invalid JSON body"
  const MessagesRequired := "messages array is required"
  const NoContent := "I couldn\U{2019}t generate a response. Please try again."
  const UpstreamFailed := "Something went wrong. Please try again."

  /** A message as the client sent it; the role is any string, not checked. */
  datatype ClientMessage = ClientMessage(role: string, content: string)

  /**
   * One element of the client's `messages` array: a message object, any other
   * non-null value (its `role` and `content` are read as whatever they are and
   * passed on), or `null`, whose `role` cannot be read at all.
   */
  datatype Element = Message(message: ClientMessage) | Malformed | Null

  /** The `messages` member of the parsed body: an array, or anything else (absent included). */
  datatype MessagesField = NotAnArray | AnArray(items: seq<Element>)

  /**
   * The request body: not JSON at all, the JSON value `null` (which cannot be
   * destructured), or any other JSON value with its `messages` member.
   */
  datatype Body = Unparseable | NullBody | Parsed(messages: MessagesField)

  /** The request made to the completion service. */
  datatype CompletionRequest = CompletionRequest(model: string, messages: seq<Element>, maxTokens: nat)

  /** The completion service's answer: the first choice's content, possibly absent, or an exception. */
  datatype Completion = Completed(firstContent: Option<string>) | Threw

  /**
   * A JSON error, a JSON message, or the framework's own error page for an
   * exception the handler does not catch (it has no `error` member).
   */
  datatype ResponseBody = ErrorBody(error: string) | MessageBody(message: string) | Uncaught
  datatype Response = Response(status: nat, body: ResponseBody)

  /** The answer, and the completion request made on the way (none for an early answer). */
  datatype Handled = Handled(response: Response, upstream: Option<CompletionRequest>)

  predicate HasNull(items: seq<Element>) {
    exists i :: 0 <= i < |items| && items[i].Null?
  }

  /** The upstream conversation: the system prompt, then the client's elements unchanged. */
  function UpstreamMessages(items: seq<Element>): (r: seq<Element>)
    ensures |r| == |items| + 1
    ensures r[0] == Message(ClientMessage("system", SystemPrompt))
    ensures r[1..] == items
  {
    [Message(ClientMessage("system", SystemPrompt))] + items
  }

  function BuildRequest(items: seq<Element>): CompletionRequest {
    CompletionRequest(Model, UpstreamMessages(items), MaxTokens)
  }

  /** The key is configured and the body carries a non-empty message array. */
  predicate Accepted(apiKey: Option<string>, body: Body) {
    apiKey.Some? && apiKey.value != "" && body.Parsed? && body.messages.AnArray? && body.messages.items != []
  }

  /**
   * `POST`. The completion service is consulted only when the key is set, the
   * body carries a non-empty message array and no element of it is `null`;
   * `complete` is its answer to the request built here. A `null` body throws
   * before any check of the handler's own, and a `null` element throws while
   * the request is being built, inside the handler's `try`.
   */
  function Post(apiKey: Option<string>, body: Body, complete: Completion): (h: Handled)
    ensures apiKey.None? || apiKey.value == "" ==>
      h == Handled(Response(503, ErrorBody(NotConfigured)), None)
    ensures apiKey.Some? && apiKey.value != "" && body.Unparseable? ==>
      h == Handled(Response(400, ErrorBody(InvalidJson)), None)
    ensures apiKey.Some? && apiKey.value != "" && body.NullBody? ==>
      h == Handled(Response(500, Uncaught), None)
    ensures (apiKey.Some? && apiKey.value != "" && body.Parsed?
             && (body.messages.NotAnArray? || body.messages.items == [])) ==>
      h == Handled(Response(400, ErrorBody(MessagesRequired)), None)
    ensures Accepted(apiKey, body) && HasNull(body.messages.items) ==>
      h == Handled(Response(500, ErrorBody(UpstreamFailed)), None)
    ensures h.upstream.Some? <==> Accepted(apiKey, body) && !HasNull(body.messages.items)
    ensures h.upstream.Some? ==> h.upstream.value == BuildRequest(body.messages.items)
    ensures h.upstream.Some? && complete.Threw? ==> h.response == Response(500, ErrorBody(UpstreamFailed))
    ensures h.upstream.Some? && complete.Completed? ==>
      h.response == Response(200, MessageBody(complete.firstContent.GetOr(NoContent)))
  {
    if apiKey.None? || apiKey.value == "" then Handled(Response(503, ErrorBody(NotConfigured)), None)
    else if body.Unparseable? then Handled(Response(400, ErrorBody(InvalidJson)), None)
    else if body.NullBody? then Handled(Response(500, Uncaught), None)
    else if body.messages.NotAnArray? || |body.messages.items| == 0 then
      Handled(Response(400, ErrorBody(MessagesRequired)), None)
    else if HasNull(body.messages.items) then Handled(Response(500, ErrorBody(UpstreamFailed)), None)
    else
      var request := BuildRequest(body.messages.items);
      match complete
      case Threw => Handled(Response(500, ErrorBody(UpstreamFailed)), Some(request))
      case Completed(content) =>
        Handled(Response(200, MessageBody(if content.Some? then content.value else NoContent)), Some(request))
  }

  /**
   * Every success carries a message; every answer of the handler's own error
   * ladder carries an `error` text with a 400, 500 or 503 status; the
   * framework's page for an uncaught exception is a 500.
   */
  lemma PostStatusMatchesBody(apiKey: Option<string>, body: Body, complete: Completion)
    ensures var r := Post(apiKey, body, complete).response;
      && (r.status == 200 <==> r.body.MessageBody?)
      && (r.body.ErrorBody? ==> r.status in {400, 500, 503})
      && (r.body.Uncaught? ==> r.status == 500)
  {
  }
}
