/** The spend endpoint: it forwards the caller's bearer token to the
    `spend_credit` remote procedure, which acts on the caller's own balance,
    and relays the outcome. */
module CreditsSpend {
  import opened Js
  import opened Config
  import Bearer

  datatype Request = Request(httpMethod: string, authorization: Option<string>)

  /** The reply of `spend_credit`: its `ok` flag, its raw text and that text
      decoded as JSON; or the exception the request threw. */
  datatype SpendReply = SpendReplied(ok: bool, text: string, parsed: Decoded<int>) | SpendThrew(description: string)

  /** The external calls the handler makes. */
  datatype Call = SpendCredit(token: string)

  datatype Body = Failure(error: string) | Spent(credits: int)
  datatype Response = Response(status: int, body: Body)
  datatype Outcome = Outcome(response: Response, calls: seq<Call>)

  /** SUPABASE_URL and SUPABASE_ANON_KEY are both set. */
  predicate Configured(env: Env) {
    Truthy(env.supabaseUrl) && Truthy(env.supabaseAnonKey)
  }

  /** The handler, with the `spend_credit` call as an oracle over the token. */
  function Handle(req: Request, env: Env, spend: string -> SpendReply): (o: Outcome)
    // a non-POST request is refused and nothing is called
    ensures req.httpMethod != "POST" ==> o == Outcome(Response(405, Failure("Method not allowed")), [])
    // missing configuration is a 500, checked before the token
    ensures req.httpMethod == "POST" && !Configured(env) ==>
      o == Outcome(Response(500, Failure("Server env missing")), [])
    // spend_credit is called at most once, and only with the caller's own token
    ensures o.calls != [] <==> req.httpMethod == "POST" && Configured(env) && Truthy(Bearer.Token(req.authorization))
    ensures o.calls != [] ==> o.calls == [SpendCredit(Bearer.Token(req.authorization).value)]
    // without a usable token the caller gets 401 and spend_credit is never called
    ensures req.httpMethod == "POST" && Configured(env) && !Truthy(Bearer.Token(req.authorization)) ==>
      o == Outcome(Response(401, Failure("Missing token")), [])
    // a refused spend is a 400 carrying the reply's text
    ensures o.calls != [] && spend(o.calls[0].token).SpendReplied? && !spend(o.calls[0].token).ok ==>
      o.response == Response(400, Failure(spend(o.calls[0].token).text))
    // 200 with the new balance exactly when the spend succeeded and its reply decoded
    ensures o.response.status == 200 <==>
      o.calls != [] && var r := spend(o.calls[0].token); r.SpendReplied? && r.ok && r.parsed.Parsed?
    ensures o.response.status == 200 ==> o.response.body == Spent(spend(o.calls[0].token).parsed.value)
    // a spend request that throws, or an ok reply that does not decode, is a
    // 500 carrying the exception's text
    ensures o.calls != [] ==>
      var r := spend(o.calls[0].token);
      && (r.SpendThrew? ==> o.response == Response(500, Failure(r.description)))
      && (r.SpendReplied? && r.ok && r.parsed.Unparsable? ==> o.response == Response(500, Failure(r.parsed.description)))
    // so every outcome after the call is 200, 400 or 500
    ensures o.calls != [] ==> o.response.status in {200, 400, 500}
  {
    if req.httpMethod != "POST" then
      Outcome(Response(405, Failure("Method not allowed")), [])
    else if !Configured(env) then
      Outcome(Response(500, Failure("Server env missing")), [])
    else
      var token := Bearer.Token(req.authorization);
      if !Truthy(token) then
        Outcome(Response(401, Failure("Missing token")), [])
      else
        var calls := [SpendCredit(token.value)];
        match spend(token.value)
        case SpendThrew(description) => Outcome(Response(500, Failure(description)), calls)
        case SpendReplied(ok, text, parsed) =>
          if !ok then Outcome(Response(400, Failure(text)), calls)
          else
            match parsed
            case Unparsable(description) => Outcome(Response(500, Failure(description)), calls)
            case Parsed(credits) => Outcome(Response(200, Spent(credits)), calls)
  }

  /** A client that sends "Bearer <t>" with a non-empty t reaches
      spend_credit with exactly t. */
  lemma SpendsWithSentToken(env: Env, t: string, spend: string -> SpendReply)
    requires Configured(env) && t != ""
    ensures Handle(Request("POST", Some(Bearer.Prefix + t)), env, spend).calls == [SpendCredit(t)]
  {
    Bearer.TokenOfBearer(t);
  }
}
