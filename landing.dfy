/**
 * The landing-page server component: resolve the bypass, build and send the
 * greetings request, pick a greeting, and choose which blocks to render.
 */
module Landing {
  import opened Wrappers
  import opened Bypass
  import opened Outbound
  import opened Greetings

  /** The environment values the page reads from `process.env`. */
  datatype Env = Env(nodeEnv: Option<string>, vercel: Option<string>, bypassSecret: Option<string>)

  /** The inbound request: its headers (lower-case names) and its query parameters in order. */
  datatype Inbound = Inbound(headers: map<string, string>, query: seq<(string, string)>)

  /** The conditionally rendered blocks of the page, in document order. */
  datatype Block = GreetingLine(greeting: Greeting) | Success | EnvVarsNotExposed | NoProtectionBypass

  /** What `fetch` produced: a rejected promise, or a response. */
  datatype Fetched = NetworkError | Received(response: Response)

  /** `process.env.NODE_ENV === "production"`. */
  predicate IsProduction(env: Env)
    ensures IsProduction(env) ==> Truthy(env.nodeEnv)
  {
    env.nodeEnv == Some("production")
  }

  /** The bypass resolved for this request from its header, its query parameter and the environment. */
  function InboundBypass(req: Inbound, env: Env): (r: Option<string>)
    ensures Truthy(HeaderGet(req.headers, ProtectionHeader)) ==> r == HeaderGet(req.headers, ProtectionHeader)
    ensures (!Truthy(HeaderGet(req.headers, ProtectionHeader)) && Truthy(QueryGet(req.query, ProtectionHeader)))
            ==> r == QueryGet(req.query, ProtectionHeader)
    ensures (!Truthy(HeaderGet(req.headers, ProtectionHeader)) && !Truthy(QueryGet(req.query, ProtectionHeader))
             && Truthy(env.bypassSecret))
            ==> r == env.bypassSecret
    ensures r.None? <==> !Truthy(HeaderGet(req.headers, ProtectionHeader))
                         && !Truthy(QueryGet(req.query, ProtectionHeader)) && !Truthy(env.bypassSecret)
    ensures r.Some? ==> |r.value| > 0
  {
    Resolve(HeaderGet(req.headers, ProtectionHeader), QueryGet(req.query, ProtectionHeader), env.bypassSecret)
  }

  /** The request the page sends to the greetings endpoint. */
  function OutboundRequest(req: Inbound, env: Env): (r: Request)
    ensures r.options.headers.Some? <==> InboundBypass(req, env).Some?
    ensures SentBypass(r.options) == InboundBypass(req, env)
    ensures |r.url| >= |ApiPath| && r.url[|r.url| - |ApiPath|..] == ApiPath
  {
    Request(ApiUrl(HeaderGet(req.headers, "x-forwarded-proto"), HeaderGet(req.headers, "host")),
            Options(InboundBypass(req, env)))
  }

  /**
   * The outbound request's URL is built from the inbound protocol and host
   * headers, and the request carries the bypass header exactly when some source supplied a non-empty
   * bypass; a non-empty inbound header is forwarded as is.
   */
  lemma OutboundRequestShape(req: Inbound, env: Env)
    ensures var r := OutboundRequest(req, env);
            var b := InboundBypass(req, env);
            && r.url == Interpolate(HeaderGet(req.headers, "x-forwarded-proto")) + "://"
                        + Interpolate(HeaderGet(req.headers, "host")) + ApiPath
            && (r.options.headers.Some? <==>
                  Truthy(HeaderGet(req.headers, ProtectionHeader)) || Truthy(QueryGet(req.query, ProtectionHeader))
                  || Truthy(env.bypassSecret))
            && (b.Some? ==> r.options.headers == Some(map[ProtectionHeader := b.value]))
            && (ProtectionHeader in req.headers && |req.headers[ProtectionHeader]| > 0 ==>
                  SentBypass(r.options) == Some(req.headers[ProtectionHeader]))
  {
  }

  /** The four render guards of the page, in document order. */
  function Blocks(greeting: Option<Greeting>, env: Env, bypass: Option<string>): (page: seq<Block>)
    ensures Success in page <==> greeting.Some?
    ensures forall g :: GreetingLine(g) in page <==> greeting == Some(g)
    ensures |page| <= 2
  {
    (if greeting.Some? then [GreetingLine(greeting.value)] else [])
    + (if greeting.Some? then [Success] else [])
    + (if IsProduction(env) && greeting.None? && !Truthy(env.vercel) then [EnvVarsNotExposed] else [])
    + (if Truthy(env.vercel) && greeting.None? && !Truthy(bypass) then [NoProtectionBypass] else [])
  }

  /** With a greeting, the page shows the greeting line and the success block, and no warning. */
  lemma GreetingPage(greeting: Option<Greeting>, env: Env, bypass: Option<string>)
    requires greeting.Some?
    ensures Blocks(greeting, env, bypass) == [GreetingLine(greeting.value), Success]
  {
  }

  /** The environment-variables banner shows exactly in production, without a greeting, with VERCEL unset. */
  lemma EnvVarsBannerIff(greeting: Option<Greeting>, env: Env, bypass: Option<string>)
    ensures EnvVarsNotExposed in Blocks(greeting, env, bypass) <==>
              IsProduction(env) && greeting.None? && !Truthy(env.vercel)
  {
  }

  /** The protection banner shows exactly with VERCEL set, without a greeting and without a bypass. */
  lemma ProtectionBannerIff(greeting: Option<Greeting>, env: Env, bypass: Option<string>)
    ensures NoProtectionBypass in Blocks(greeting, env, bypass) <==>
              Truthy(env.vercel) && greeting.None? && !Truthy(bypass)
  {
  }

  /** The two warning banners never render together: one needs VERCEL unset, the other VERCEL set. */
  lemma AtMostOneWarning(greeting: Option<Greeting>, env: Env, bypass: Option<string>)
    ensures !(EnvVarsNotExposed in Blocks(greeting, env, bypass) && NoProtectionBypass in Blocks(greeting, env, bypass))
  {
  }

  /** The single outcome of a render, one tag per case of the rendering decision table. */
  datatype Outcome = ShowGreeting(greeting: Greeting) | NeedsEnvVars | NeedsBypass | Bare

  /** Classifies a render once: greeting first, then the environment banner, then the protection banner. */
  function Classify(greeting: Option<Greeting>, env: Env, bypass: Option<string>): (outcome: Outcome) {
    if greeting.Some? then ShowGreeting(greeting.value)
    else if IsProduction(env) && !Truthy(env.vercel) then NeedsEnvVars
    else if Truthy(env.vercel) && !Truthy(bypass) then NeedsBypass
    else Bare
  }

  /** The blocks an outcome displays. */
  function Layout(outcome: Outcome): (blocks: seq<Block>) {
    match outcome
      case ShowGreeting(g) => [GreetingLine(g), Success]
      case NeedsEnvVars => [EnvVarsNotExposed]
      case NeedsBypass => [NoProtectionBypass]
      case Bare => []
  }

  /** The independent guards of the page agree with the single-outcome table. */
  lemma BlocksMatchOutcome(greeting: Option<Greeting>, env: Env, bypass: Option<string>)
    ensures Blocks(greeting, env, bypass) == Layout(Classify(greeting, env, bypass))
  {
  }

  /** The text the landing-page check waits for. */
  const CheckText: string := "Go to the GitHub repo"

  /** Texts of the page shell rendered around the blocks (heading and footer links). */
  const ShellTexts: seq<string> := ["Next.js & Checkly starter template", "GitHub Repo", "Go to checklyhq.com →"]

  /**
   * The visible texts of a block, each cut down to a short phrase of it; of
   * the blocks other than the greeting line, only the success block holds
   * the check's text.
   */
  function BlockTexts(b: Block): (texts: seq<string>)
    ensures b.Success? ==> CheckText in texts
    ensures !b.GreetingLine? && !b.Success? ==> CheckText !in texts
  {
    match b
      case GreetingLine(g) => [g.text, ", this is the"]
      case Success => ["This is a simple Next.js app", "go to the repo", CheckText]
      case EnvVarsNotExposed => ["Almost there!", "Vercel system environment variables"]
      case NoProtectionBypass => ["Almost there!", "Vercel Deployment Protection"]
  }

  /** A text is visible when the shell or one of the rendered blocks holds it. */
  predicate Visible(blocks: seq<Block>, t: string) {
    t in ShellTexts || exists i :: 0 <= i < |blocks| && t in BlockTexts(blocks[i])
  }

  /** The check's text is not among the shell texts: each differs from it in length or in its first letters. */
  lemma CheckTextNotInShell()
    ensures CheckText !in ShellTexts
  {
  }

  /** The check's text is on the page exactly when a greeting was fetched. */
  lemma CheckTextVisibleIff(greeting: Option<Greeting>, env: Env, bypass: Option<string>)
    ensures Visible(Blocks(greeting, env, bypass), CheckText) <==> greeting.Some?
  {
    var blocks := Blocks(greeting, env, bypass);
    CheckTextNotInShell();
    BlocksMatchOutcome(greeting, env, bypass);
    if greeting.Some? {
      assert blocks[1] == Success;
    } else {
      forall i | 0 <= i < |blocks| ensures CheckText !in BlockTexts(blocks[i]) {
        assert blocks[i] in blocks;
      }
    }
  }

  /**
   * The whole render. The page sends `OutboundRequest(req, env)` through
   * `fetch`. A rejected `fetch` and an unparsable ok body throw, since the
   * component catches neither; otherwise the blocks are those of the single
   * outcome for the drawn greeting, the environment and the resolved bypass.
   */
  function Home(req: Inbound, env: Env, fetch: Request -> Fetched, u: real): (r: Result<seq<Block>, RenderError>)
    requires 0.0 <= u < 1.0
    ensures var fetched := fetch(OutboundRequest(req, env));
            fetched.NetworkError? ==> r == Err(NetworkFailure)
    ensures var fetched := fetch(OutboundRequest(req, env));
            fetched.Received? ==> (r.Err? <==> fetched.response.ok && fetched.response.body.Unparsable?)
    ensures var fetched := fetch(OutboundRequest(req, env));
            fetched.Received? && FetchGreeting(fetched.response, u).Ok? ==>
              var greeting := FetchGreeting(fetched.response, u).value;
              && r == Ok(Layout(Classify(greeting, env, InboundBypass(req, env))))
              && (Visible(r.value, CheckText) <==> greeting.Some?)
    ensures r.Ok? ==> !(EnvVarsNotExposed in r.value && NoProtectionBypass in r.value)
    ensures var fetched := fetch(OutboundRequest(req, env));
            r.Ok? ==> forall g :: GreetingLine(g) in r.value ==>
              fetched.Received? && fetched.response.ok && fetched.response.body.GreetingList?
              && g in fetched.response.body.items
  {
    match fetch(OutboundRequest(req, env))
      case NetworkError => Err(NetworkFailure)
      case Received(response) =>
        match FetchGreeting(response, u)
          case Err(e) => Err(e)
          case Ok(greeting) =>
            var bypass := InboundBypass(req, env);
            AtMostOneWarning(greeting, env, bypass);
            BlocksMatchOutcome(greeting, env, bypass);
            CheckTextVisibleIff(greeting, env, bypass);
            Ok(Blocks(greeting, env, bypass))
  }

  /**
   * The protection banner appears exactly when VERCEL is set, no greeting was
   * drawn, and none of header, query parameter and secret is a non-empty string.
   */
  lemma HomeProtectionBanner(req: Inbound, env: Env, fetch: Request -> Fetched, u: real)
    requires 0.0 <= u < 1.0
    requires Home(req, env, fetch, u).Ok?
    ensures NoProtectionBypass in Home(req, env, fetch, u).value <==>
              && Truthy(env.vercel)
              && FetchGreeting(fetch(OutboundRequest(req, env)).response, u) == Ok(None)
              && !Truthy(HeaderGet(req.headers, ProtectionHeader))
              && !Truthy(QueryGet(req.query, ProtectionHeader))
              && !Truthy(env.bypassSecret)
  {
  }

  /** A single-greeting ok response renders that greeting and the success block, and the check's text. */
  lemma ScenarioOneGreeting(req: Inbound, env: Env, u: real)
    requires 0.0 <= u < 1.0
    ensures var r := Home(req, env, _ => Received(Response(true, GreetingList([Greeting("hello")]))), u);
            r == Ok([GreetingLine(Greeting("hello")), Success]) && Visible(r.value, CheckText)
  {
    var items := [Greeting("hello")];
    assert DrawIndex(u, 1) == 0;
    assert FetchGreeting(Response(true, GreetingList(items)), u) == Ok(Some(Greeting("hello")));
    GreetingPage(Some(Greeting("hello")), env, InboundBypass(req, env));
    CheckTextVisibleIff(Some(Greeting("hello")), env, InboundBypass(req, env));
  }

  /** An empty list in production without VERCEL renders only the environment-variables banner. */
  lemma ScenarioEmptyListInProduction(req: Inbound, u: real, secret: Option<string>)
    requires 0.0 <= u < 1.0
    ensures Home(req, Env(Some("production"), None, secret), _ => Received(Response(true, GreetingList([]))), u)
            == Ok([EnvVarsNotExposed])
  {
    var env := Env(Some("production"), None, secret);
    assert FetchGreeting(Response(true, GreetingList([])), u) == Ok(None);
    assert Blocks(None, env, InboundBypass(req, env)) == [EnvVarsNotExposed];
  }

  /** A non-ok response with VERCEL set and no bypass from any source renders only the protection banner. */
  lemma ScenarioProtectedWithoutBypass(nodeEnv: Option<string>, u: real)
    requires 0.0 <= u < 1.0
    ensures Home(Inbound(map[], []), Env(nodeEnv, Some("1"), None), _ => Received(Response(false, Unparsable)), u)
            == Ok([NoProtectionBypass])
  {
    var req, env := Inbound(map[], []), Env(nodeEnv, Some("1"), None);
    assert InboundBypass(req, env) == None;
    assert FetchGreeting(Response(false, Unparsable), u) == Ok(None);
    assert !IsProduction(env) || Truthy(env.vercel);
    assert Blocks(None, env, None) == [NoProtectionBypass];
  }
}
