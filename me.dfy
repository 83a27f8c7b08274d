/** The balance endpoint: it exchanges the caller's bearer token for the
    user record, then reads that user's credit balance from the profiles
    table. */
module Me {
  import opened Js
  import opened Config
  import Bearer

  datatype Request = Request(httpMethod: string, authorization: Option<string>)

  /** The `id` and `email` of the user object the identity service returns. */
  datatype User = User(id: Option<string>, email: Option<string>)

  /** The identity service's reply: its `ok` flag and its body decoded as
      JSON, or the exception the request threw. */
  datatype AuthReply = AuthReplied(ok: bool, user: Decoded<User>) | AuthThrew(description: string)

  /** One row of the profiles query; `credits` is None for null. */
  datatype ProfileRow = ProfileRow(credits: Option<int>)

  /** The decoded body of the profiles query: an array of rows, or an error object. */
  datatype ProfileBody = Rows(rows: seq<ProfileRow>) | ErrorObject(message: string)

  datatype ProfileReply = ProfileReplied(ok: bool, body: Decoded<ProfileBody>) | ProfileThrew(description: string)

  /** The external calls the handler makes, in order. */
  datatype Call = FetchUser(token: string) | FetchProfile(userId: string)

  datatype Body =
    | Failure(error: string)
    | ProfileFailure(profileError: ProfileBody)
    | Balance(userId: string, email: Option<string>, credits: int)

  datatype Response = Response(status: int, body: Body)
  datatype Outcome = Outcome(response: Response, calls: seq<Call>)

  /** `prof?.[0]?.credits ?? 0` */
  function CreditsOf(body: ProfileBody): (c: int)
    ensures body.Rows? && |body.rows| > 0 && body.rows[0].credits.Some? ==> c == body.rows[0].credits.value
    ensures body.ErrorObject? || body.rows == [] || body.rows[0].credits.None? ==> c == 0
  {
    match body
    case Rows(rows) => if rows != [] && rows[0].credits.Some? then rows[0].credits.value else 0
    case ErrorObject(_) => 0
  }

  /** SUPABASE_URL, SUPABASE_ANON_KEY and SUPABASE_SERVICE_ROLE_KEY are all set. */
  predicate Configured(env: Env) {
    Truthy(env.supabaseUrl) && Truthy(env.supabaseAnonKey) && Truthy(env.supabaseServiceRoleKey)
  }

  /** The handler, with the identity service and the profiles query as oracles. */
  function Handle(req: Request, env: Env, auth: string -> AuthReply, profile: string -> ProfileReply): (o: Outcome)
    // a non-GET request is refused and nothing is fetched
    ensures req.httpMethod != "GET" ==> o == Outcome(Response(405, Failure("Method not allowed")), [])
    // missing configuration is a 500, checked before the token
    ensures req.httpMethod == "GET" && !Configured(env) ==>
      o == Outcome(Response(500, Failure("Server env missing")), [])
    // without a usable bearer token the caller is refused and nothing is fetched
    ensures o.response.status == 401 && o.calls == [] <==>
      && req.httpMethod == "GET"
      && Configured(env)
      && !Truthy(Bearer.Token(req.authorization))
    // a usable token always reaches the identity service
    ensures req.httpMethod == "GET" && Configured(env) && Truthy(Bearer.Token(req.authorization)) ==> o.calls != []
    // the identity service is asked only about the caller's own token
    ensures o.calls != [] ==> o.calls[0] == FetchUser(Bearer.Token(req.authorization).value)
    ensures |o.calls| <= 2
    // the profile is queried only for a user the identity service accepted
    ensures |o.calls| == 2 <==>
      o.calls != [] && var a := auth(Bearer.Token(req.authorization).value);
      a.AuthReplied? && a.ok && a.user.Parsed? && Truthy(a.user.value.id)
    ensures |o.calls| == 2 ==> o.calls[1] == FetchProfile(auth(Bearer.Token(req.authorization).value).user.value.id.value)
    // a rejected session is a 401 "Invalid session"
    ensures o.calls != [] ==>
      var a := auth(Bearer.Token(req.authorization).value);
      (a.AuthReplied? && a.user.Parsed? && !(a.ok && Truthy(a.user.value.id)) <==>
        o.response == Response(401, Failure("Invalid session")))
    // a failed profile query is a 500 echoing its body
    ensures |o.calls| == 2 ==>
      var p := profile(o.calls[1].userId);
      p.ProfileReplied? && p.body.Parsed? && !p.ok ==> o.response == Response(500, ProfileFailure(p.body.value))
    // an identity request that throws, or a reply that does not decode, is a
    // 500 carrying the exception's text, and the profile is not queried
    ensures o.calls != [] ==>
      var a := auth(Bearer.Token(req.authorization).value);
      && (a.AuthThrew? ==> o == Outcome(Response(500, Failure(a.description)), o.calls[..1]))
      && (a.AuthReplied? && a.user.Unparsable? ==> o == Outcome(Response(500, Failure(a.user.description)), o.calls[..1]))
    // a profile query that throws, or a reply that does not decode, is a 500
    // carrying the exception's text
    ensures |o.calls| == 2 ==>
      var p := profile(o.calls[1].userId);
      && (p.ProfileThrew? ==> o.response == Response(500, Failure(p.description)))
      && (p.ProfileReplied? && p.body.Unparsable? ==> o.response == Response(500, Failure(p.body.description)))
    // success: the accepted user's id and email with the first row's credits or 0
    ensures o.response.status == 200 <==>
      |o.calls| == 2 && var p := profile(o.calls[1].userId); p.ProfileReplied? && p.ok && p.body.Parsed?
    ensures o.response.status == 200 ==>
      var u := auth(Bearer.Token(req.authorization).value).user.value;
      o.response.body == Balance(u.id.value, u.email, CreditsOf(profile(o.calls[1].userId).body.value))
  {
    if req.httpMethod != "GET" then
      Outcome(Response(405, Failure("Method not allowed")), [])
    else if !Configured(env) then
      Outcome(Response(500, Failure("Server env missing")), [])
    else
      var token := Bearer.Token(req.authorization);
      if !Truthy(token) then
        Outcome(Response(401, Failure("Missing token")), [])
      else
        var first := [FetchUser(token.value)];
        match auth(token.value)
        case AuthThrew(description) => Outcome(Response(500, Failure(description)), first)
        case AuthReplied(ok, json) =>
          if json.Unparsable? then Outcome(Response(500, Failure(json.description)), first)
          else if !ok || !Truthy(json.value.id) then Outcome(Response(401, Failure("Invalid session")), first)
          else
            var user := json.value;
            var calls := first + [FetchProfile(user.id.value)];
            match profile(user.id.value)
            case ProfileThrew(description) => Outcome(Response(500, Failure(description)), calls)
            case ProfileReplied(ok', prof) =>
              if prof.Unparsable? then Outcome(Response(500, Failure(prof.description)), calls)
              else if !ok' then Outcome(Response(500, ProfileFailure(prof.value)), calls)
              else Outcome(Response(200, Balance(user.id.value, user.email, CreditsOf(prof.value))), calls)
  }
}
