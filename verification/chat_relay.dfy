/** The `/chat` relay of supabase/functions/Chat.ts as a pure step function.
    Its collaborators become inputs: the current time, the client address
    headers, the outcomes of the two `chat_history` inserts and of the
    completion call. Its effects become an ordered list of what it attempted
    (each insert and the completion request), next to the HTTP response and
    the rate limiter's new state. */
module ChatRelay {
  import opened Js
  import RateLimiter
  import CrisisDetector
  import CrisisResources

  /** The JSON body of a `/chat` request; `None` is a missing key. */
  datatype ChatRequest = ChatRequest(userId: Option<string>, message: Option<string>, language: Option<string>)

  const DEFAULT_LANGUAGE: string := "en"
  const UNKNOWN_CLIENT: string := "unknown"
  const MISSING_FIELDS: string := "Missing user_id or message"
  const TOO_MANY_REQUESTS: string := "Too many requests"
  const UPSTREAM_FAILED: string := "OpenAI API request failed"
  const INTERNAL_ERROR: string := "Internal Server Error"
  const FALLBACK_REPLY: string := "I couldn't process that."

  const COMPLETION_MODEL: string := "gpt-4o-mini"
  const MAX_TOKENS: nat := 500
  const TEMPERATURE: real := 0.7

  datatype Role = User | Assistant

  /** A row inserted into `chat_history`; `language` is the assistant row's
      `metadata.language` (user rows carry no metadata). */
  datatype ChatTurn = ChatTurn(userId: string, role: Role, message: string, language: Option<string>)

  /** A message of the completion request. The persona and safety preamble is
      a fixed constant whose text plays no part in the relay's logic. */
  datatype PromptMessage = SystemPreamble | UserMessage(content: string)

  datatype CompletionRequest =
    CompletionRequest(model: string, messages: seq<PromptMessage>, maxTokens: nat, temperature: real)

  /** What the handler attempts against its collaborators, in order. */
  datatype Effect = Insert(turn: ChatTurn) | Complete(request: CompletionRequest)

  /** Outcome of a `chat_history` insert; a failure is only logged. */
  datatype StoreResult = Stored | StoreFailed

  /** Outcome of the completion call, by the path the handler takes:
      - `Rejected`: the `fetch` itself throws;
      - `NotOk`: the response is not 2xx and its error text is read;
      - `ErrorTextLost`: the response is not 2xx and reading its text throws;
      - `Unparsable`: the body is 2xx but `json()` throws, or it parses to
        `null`, on which reading `choices` throws;
      - `Answered`: any other JSON value, whose optional chain
        `choices[0].message.content` is present or not. */
  datatype Completion = Rejected | NotOk | ErrorTextLost | Unparsable | Answered(content: Option<string>)

  datatype Body = Failure(error: string) | Reply(reply: string, language: string)

  datatype Response = Response(status: int, body: Body)

  datatype Outcome = Outcome(response: Response, effects: seq<Effect>, limiter: RateLimiter.Limiter)

  /** Both required fields are present and non-empty. */
  predicate WellFormed(req: ChatRequest) {
    Truthy(req.userId) && Truthy(req.message)
  }

  /** The request passes validation and the rate check, so the handler goes
      on to store the user turn and call the provider. */
  predicate Admitted(limiter: RateLimiter.Limiter, req: ChatRequest, key: string, now: int) {
    WellFormed(req) && RateLimiter.Check(limiter, key, now).allowed
  }

  /** The `language = "en"` destructuring default: only a missing key is
      defaulted, so an empty language stays empty. */
  function LanguageOf(req: ChatRequest): (lang: string)
    ensures req.language.None? ==> lang == DEFAULT_LANGUAGE
    ensures req.language.Some? ==> lang == req.language.value
  {
    req.language.GetOr(DEFAULT_LANGUAGE)
  }

  /** The rate-limit key: the `x-forwarded-for` header, else the socket's
      remote address, else "unknown"; an empty value counts as absent. */
  function ClientKey(forwarded: Option<string>, remote: Option<string>): (key: string)
    ensures |key| > 0
    ensures Truthy(forwarded) ==> key == forwarded.value
    ensures !Truthy(forwarded) && Truthy(remote) ==> key == remote.value
    ensures !Truthy(forwarded) && !Truthy(remote) ==> key == UNKNOWN_CLIENT
  {
    if Truthy(forwarded) then forwarded.value
    else if Truthy(remote) then remote.value
    else UNKNOWN_CLIENT
  }

  /** The completion request: the fixed preamble and the latest user message,
      never the stored history. */
  function PromptFor(message: string): (p: CompletionRequest)
    ensures p.messages == [SystemPreamble, UserMessage(message)]
    ensures p.model == COMPLETION_MODEL && p.maxTokens == 500 && p.temperature == 0.7
  {
    CompletionRequest(COMPLETION_MODEL, [SystemPreamble, UserMessage(message)], MAX_TOKENS, TEMPERATURE)
  }

  /** The reply sent back and stored: the crisis resources with the closing
      line when the inbound message mentions a crisis phrase, whatever the
      provider said; otherwise the provider's content, or the fallback when it
      has none. */
  function FinalReply(message: string, language: string, content: Option<string>): (reply: string)
    ensures CrisisDetector.Mentions(message) ==>
              reply == CrisisResources.Resources(language) + CrisisResources.CLOSING
    ensures !CrisisDetector.Mentions(message) && content.Some? ==> reply == content.value
    ensures !CrisisDetector.Mentions(message) && content.None? ==> reply == FALLBACK_REPLY
  {
    var provided := content.GetOr(FALLBACK_REPLY);
    if CrisisDetector.Detect(message) then
      CrisisResources.Resources(language) + CrisisResources.CLOSING
    else provided
  }

  /** The reply exactly as the code builds it, the inherited-property
      languages included (see `CrisisResources.PrototypeNameSkipsFallback`):
      for those, a crisis message gets the printed `Object.prototype` member
      in front of the closing line, which is not the reply `FinalReply` gives. */
  function FinalReplyAsWritten(message: string, language: string, content: Option<string>): (reply: string)
    ensures language !in CrisisResources.PROTOTYPE_NAMES ==> reply == FinalReply(message, language, content)
    ensures CrisisDetector.Mentions(message) ==>
              reply == CrisisResources.CrisisTextAsWritten(language) + CrisisResources.CLOSING
    ensures !CrisisDetector.Mentions(message) ==> reply == FinalReply(message, language, content)
    ensures language in CrisisResources.PROTOTYPE_NAMES && CrisisDetector.Mentions(message) ==>
              reply != FinalReply(message, language, content)
  {
    if CrisisDetector.Detect(message) then
      var t := CrisisResources.CrisisTextAsWritten(language);
      AppendCancels(t, CrisisResources.Resources(language), CrisisResources.CLOSING);
      t + CrisisResources.CLOSING
    else content.GetOr(FALLBACK_REPLY)
  }

  /** The rows among the effects, in the order they were inserted. */
  function Inserts(effects: seq<Effect>): (rows: seq<ChatTurn>)
    ensures |rows| <= |effects|
  {
    if |effects| == 0 then []
    else if effects[0].Insert? then [effects[0].turn] + Inserts(effects[1..])
    else Inserts(effects[1..])
  }

  /** One `POST /chat`: validate, rate-check the client, insert the user turn,
      call the provider, settle the reply, insert the assistant turn, respond.
      Store results never change the outcome; the catch-all answers 500 when
      the provider call throws, the error text of a failed response cannot be
      read, or the body does not parse to a non-null JSON value. */
  function Handle(
    limiter: RateLimiter.Limiter, req: ChatRequest,
    forwarded: Option<string>, remote: Option<string>, now: int,
    userStore: StoreResult, completion: Completion, assistantStore: StoreResult): (o: Outcome)
    // validation comes first and touches nothing
    ensures o.response.status == 400 <==> !WellFormed(req)
    ensures !WellFormed(req) ==>
              o.response.body == Failure(MISSING_FIELDS) && o.effects == [] && o.limiter == limiter
    // then the rate check, whose state change is the limiter's alone
    ensures WellFormed(req) ==>
              o.limiter == RateLimiter.Check(limiter, ClientKey(forwarded, remote), now).limiter
    ensures o.response.status == 429 <==>
              WellFormed(req) && !RateLimiter.Check(limiter, ClientKey(forwarded, remote), now).allowed
    ensures o.response.status == 429 ==>
              o.response.body == Failure(TOO_MANY_REQUESTS) && o.effects == [] && o.limiter == limiter
    // past the rate check: the user turn is inserted, then the provider asked
    ensures o.response.status !in {400, 429} <==> Admitted(limiter, req, ClientKey(forwarded, remote), now)
    ensures o.response.status !in {400, 429} ==>
              |o.effects| >= 2
              && o.effects[0] == Insert(ChatTurn(req.userId.value, User, req.message.value, None))
              && o.effects[1] == Complete(PromptFor(req.message.value))
    // a failed provider call ends the request with the user turn alone stored
    ensures o.response.status == 502 <==>
              Admitted(limiter, req, ClientKey(forwarded, remote), now) && completion == NotOk
    ensures o.response.status == 500 <==>
              Admitted(limiter, req, ClientKey(forwarded, remote), now)
              && (completion == Rejected || completion == ErrorTextLost || completion == Unparsable)
    ensures o.response.status == 502 ==> o.response.body == Failure(UPSTREAM_FAILED)
    ensures o.response.status == 500 ==> o.response.body == Failure(INTERNAL_ERROR)
    ensures o.response.status in {500, 502} ==> |o.effects| == 2
    // success: the assistant turn carries exactly the reply that is returned
    ensures o.response.status == 200 <==>
              Admitted(limiter, req, ClientKey(forwarded, remote), now) && completion.Answered?
    ensures o.response.status == 200 ==>
              && o.response.body.Reply?
              && o.response.body.language == LanguageOf(req)
              && o.response.body.reply
                 == FinalReply(req.message.value, LanguageOf(req), completion.content)
              && |o.effects| == 3
              && o.effects[2] == Insert(ChatTurn(req.userId.value, Assistant, o.response.body.reply,
                                                 Some(LanguageOf(req))))
    ensures o.response.status in {200, 400, 429, 500, 502}
  {
    if !WellFormed(req) then
      Outcome(Response(400, Failure(MISSING_FIELDS)), [], limiter)
    else
      var language := LanguageOf(req);
      var decision := RateLimiter.Check(limiter, ClientKey(forwarded, remote), now);
      if !decision.allowed then
        Outcome(Response(429, Failure(TOO_MANY_REQUESTS)), [], decision.limiter)
      else
        var userId, message := req.userId.value, req.message.value;
        var started := [Insert(ChatTurn(userId, User, message, None)), Complete(PromptFor(message))];
        match completion
        case Rejected => Outcome(Response(500, Failure(INTERNAL_ERROR)), started, decision.limiter)
        case NotOk => Outcome(Response(502, Failure(UPSTREAM_FAILED)), started, decision.limiter)
        case ErrorTextLost => Outcome(Response(500, Failure(INTERNAL_ERROR)), started, decision.limiter)
        case Unparsable => Outcome(Response(500, Failure(INTERNAL_ERROR)), started, decision.limiter)
        case Answered(content) =>
          var reply := FinalReply(message, language, content);
          Outcome(Response(200, Reply(reply, language)),
                  started + [Insert(ChatTurn(userId, Assistant, reply, Some(language)))],
                  decision.limiter)
  }

  /** On a crisis message the provider's answer is discarded entirely: every
      answer, and none, produces the same outcome, whose reply is the crisis
      resources for the request's language with the closing line. */
  lemma CrisisOverrideIgnoresProvider(
    limiter: RateLimiter.Limiter, req: ChatRequest,
    forwarded: Option<string>, remote: Option<string>, now: int,
    userStore: StoreResult, c1: Option<string>, c2: Option<string>, assistantStore: StoreResult)
    requires Admitted(limiter, req, ClientKey(forwarded, remote), now)
    requires CrisisDetector.Mentions(req.message.value)
    ensures var o := Handle(limiter, req, forwarded, remote, now, userStore, Answered(c1), assistantStore);
            && o == Handle(limiter, req, forwarded, remote, now, userStore, Answered(c2), assistantStore)
            && o.response == Response(200, Reply(CrisisResources.Resources(LanguageOf(req)) + CrisisResources.CLOSING,
                                                 LanguageOf(req)))
  {
  }

  /** The handler's reply is the code's own for every language that is not
      an inherited property name; for those it is the corrected one. */
  lemma HandleReplyAsWritten(
    limiter: RateLimiter.Limiter, req: ChatRequest,
    forwarded: Option<string>, remote: Option<string>, now: int,
    userStore: StoreResult, content: Option<string>, assistantStore: StoreResult)
    requires Admitted(limiter, req, ClientKey(forwarded, remote), now)
    ensures var reply := Handle(limiter, req, forwarded, remote, now, userStore, Answered(content), assistantStore)
                           .response.body.reply;
            var asWritten := FinalReplyAsWritten(req.message.value, LanguageOf(req), content);
            && (LanguageOf(req) !in CrisisResources.PROTOTYPE_NAMES ==> reply == asWritten)
            && ((LanguageOf(req) in CrisisResources.PROTOTYPE_NAMES && CrisisDetector.Mentions(req.message.value))
                ==> reply != asWritten)
  {
  }

  /** Without a crisis phrase the provider's content is relayed verbatim (an
      empty string included), and the fallback is used only when it is absent. */
  lemma ProviderReplyRelayed(
    limiter: RateLimiter.Limiter, req: ChatRequest,
    forwarded: Option<string>, remote: Option<string>, now: int,
    userStore: StoreResult, content: Option<string>, assistantStore: StoreResult)
    requires Admitted(limiter, req, ClientKey(forwarded, remote), now)
    requires !CrisisDetector.Mentions(req.message.value)
    ensures Handle(limiter, req, forwarded, remote, now, userStore, Answered(content), assistantStore).response
            == Response(200, Reply(content.GetOr(FALLBACK_REPLY), LanguageOf(req)))
  {
  }

  /** Insert failures are logged and otherwise ignored: the response, the
      attempted effects and the limiter do not depend on them. */
  lemma StoreFailuresInvisible(
    limiter: RateLimiter.Limiter, req: ChatRequest,
    forwarded: Option<string>, remote: Option<string>, now: int, completion: Completion,
    u1: StoreResult, a1: StoreResult, u2: StoreResult, a2: StoreResult)
    ensures Handle(limiter, req, forwarded, remote, now, u1, completion, a1)
            == Handle(limiter, req, forwarded, remote, now, u2, completion, a2)
  {
  }

  /** What each outcome leaves in `chat_history`: nothing before the user turn
      is stored, then the user turn, then (only on success) the assistant turn
      holding the returned reply. A 500 or 502 leaves the user turn alone. */
  lemma {:induction false} StoredTurns(
    limiter: RateLimiter.Limiter, req: ChatRequest,
    forwarded: Option<string>, remote: Option<string>, now: int,
    userStore: StoreResult, completion: Completion, assistantStore: StoreResult)
    ensures var o := Handle(limiter, req, forwarded, remote, now, userStore, completion, assistantStore);
            var rows := Inserts(o.effects);
            && (o.response.status in {400, 429} ==> rows == [])
            && (o.response.status in {500, 502} ==>
                  rows == [ChatTurn(req.userId.value, User, req.message.value, None)])
            && (o.response.status == 200 ==>
                  rows == [ChatTurn(req.userId.value, User, req.message.value, None),
                           ChatTurn(req.userId.value, Assistant, o.response.body.reply, Some(LanguageOf(req)))])
  {
    var o := Handle(limiter, req, forwarded, remote, now, userStore, completion, assistantStore);
    var e := o.effects;
    if o.response.status !in {400, 429} {
      assert Inserts(e) == [e[0].turn] + Inserts(e[1..]);
      assert Inserts(e[1..]) == Inserts(e[2..]) by {
        assert e[1..][0] == e[1] && e[1..][1..] == e[2..];
      }
      if o.response.status == 200 {
        assert Inserts(e[2..]) == [e[2].turn] + Inserts(e[3..]) by {
          assert e[2..][0] == e[2] && e[2..][1..] == e[3..];
        }
        assert e[3..] == [];
      } else {
        assert e[2..] == [];
      }
    }
  }

  /** Every input of one request, collaborators' outcomes included. */
  datatype Arrival = Arrival(
    request: ChatRequest, forwarded: Option<string>, remote: Option<string>, now: int,
    userStore: StoreResult, completion: Completion, assistantStore: StoreResult)

  function HandleArrival(limiter: RateLimiter.Limiter, a: Arrival): (o: Outcome)
    ensures WellFormed(a.request) ==>
              var d := RateLimiter.Check(limiter, ClientKey(a.forwarded, a.remote), a.now);
              (o.response.status == 429 <==> !d.allowed) && o.limiter == d.limiter
  {
    Handle(limiter, a.request, a.forwarded, a.remote, a.now, a.userStore, a.completion, a.assistantStore)
  }

  /** Requests handled one after another, each seeing the limiter the previous
      one left. */
  function Serve(limiter: RateLimiter.Limiter, arrivals: seq<Arrival>): (outs: seq<Outcome>)
    ensures |outs| == |arrivals|
    decreases |arrivals|
  {
    if |arrivals| == 0 then []
    else
      var o := HandleArrival(limiter, arrivals[0]);
      [o] + Serve(o.limiter, arrivals[1..])
  }

  /** The rate-limiter calls that well-formed arrivals make. */
  function CallsOf(arrivals: seq<Arrival>): (calls: seq<RateLimiter.Call>)
    ensures |calls| == |arrivals|
    ensures forall i :: 0 <= i < |arrivals| ==>
              calls[i] == RateLimiter.Call(ClientKey(arrivals[i].forwarded, arrivals[i].remote), arrivals[i].now)
  {
    seq(|arrivals|, i requires 0 <= i < |arrivals| =>
      RateLimiter.Call(ClientKey(arrivals[i].forwarded, arrivals[i].remote), arrivals[i].now))
  }

  /** Across a session of well-formed requests, a request is answered 429
      exactly when the rate limiter, fed the same clients and times, denies
      it. */
  lemma {:induction false} ServeFollowsLimiter(limiter: RateLimiter.Limiter, arrivals: seq<Arrival>)
    requires forall i :: 0 <= i < |arrivals| ==> WellFormed(arrivals[i].request)
    ensures forall i :: 0 <= i < |arrivals| ==>
              (Serve(limiter, arrivals)[i].response.status == 429
               <==> !RateLimiter.Replay(limiter, CallsOf(arrivals)).allowed[i])
  {
    forall i | 0 <= i < |arrivals|
      ensures Serve(limiter, arrivals)[i].response.status == 429
              <==> !RateLimiter.Replay(limiter, CallsOf(arrivals)).allowed[i]
    {
      ServedAt(limiter, arrivals, i);
    }
  }

  /** `ServeFollowsLimiter` for the request at index `i`. */
  lemma {:induction false} ServedAt(limiter: RateLimiter.Limiter, arrivals: seq<Arrival>, i: nat)
    requires i < |arrivals|
    requires forall j :: 0 <= j < |arrivals| ==> WellFormed(arrivals[j].request)
    ensures Serve(limiter, arrivals)[i].response.status == 429
            <==> !RateLimiter.Replay(limiter, CallsOf(arrivals)).allowed[i]
    decreases i
  {
    var calls := CallsOf(arrivals);
    ServeStep(limiter, arrivals, i);
    RateLimiter.ReplayStep(limiter, calls, i);
    if i > 0 {
      var o := HandleArrival(limiter, arrivals[0]);
      assert calls[1..] == CallsOf(arrivals[1..]);
      ServedAt(o.limiter, arrivals[1..], i - 1);
    }
  }

  /** The i-th outcome of a session is the first request's, or the (i-1)-th
      of the rest of the session. */
  lemma ServeStep(limiter: RateLimiter.Limiter, arrivals: seq<Arrival>, i: nat)
    requires i < |arrivals|
    ensures var o := HandleArrival(limiter, arrivals[0]);
            Serve(limiter, arrivals)[i] == if i == 0 then o else Serve(o.limiter, arrivals[1..])[i - 1]
  {
  }


  /** Requests from one client inside one window, the first of which opens
      the window: the first five get past the limiter and every later one is
      answered 429 without touching the store or the provider. */
  lemma {:induction false} SixthRequestInWindowRejected(limiter: RateLimiter.Limiter, arrivals: seq<Arrival>)
    requires |arrivals| > 0
    requires forall i :: 0 <= i < |arrivals| ==> WellFormed(arrivals[i].request)
    requires RateLimiter.Expired(limiter, CallsOf(arrivals)[0].key, arrivals[0].now)
    requires RateLimiter.WithinWindow(CallsOf(arrivals), CallsOf(arrivals)[0].key, arrivals[0].now)
    ensures forall i :: 0 <= i < |arrivals| ==>
              (Serve(limiter, arrivals)[i].response.status == 429 <==> i >= RateLimiter.RATE_LIMIT)
    ensures forall i :: RateLimiter.RATE_LIMIT <= i < |arrivals| ==> Serve(limiter, arrivals)[i].effects == []
  {
    ServeFollowsLimiter(limiter, arrivals);
    RateLimiter.FiveAllowedPerWindow(limiter, CallsOf(arrivals));
    ServeEffects(limiter, arrivals);
  }

  /** Each outcome of a session is the handler's outcome for that request. */
  lemma {:induction false} ServeEffects(limiter: RateLimiter.Limiter, arrivals: seq<Arrival>)
    ensures forall i :: 0 <= i < |arrivals| && Serve(limiter, arrivals)[i].response.status == 429 ==>
              Serve(limiter, arrivals)[i].effects == []
    decreases |arrivals|
  {
    if |arrivals| > 0 {
      var o := HandleArrival(limiter, arrivals[0]);
      ServeEffects(o.limiter, arrivals[1..]);
      var outs := Serve(limiter, arrivals);
      var rest := Serve(o.limiter, arrivals[1..]);
      assert outs == [o] + rest;
      forall i | 0 <= i < |arrivals| && outs[i].response.status == 429
        ensures outs[i].effects == []
      {
        if i == 0 {
          var a := arrivals[0];
          assert o == Handle(limiter, a.request, a.forwarded, a.remote, a.now, a.userStore, a.completion, a.assistantStore);
        } else {
          assert outs[i] == rest[i - 1];
        }
      }
    }
  }
}
