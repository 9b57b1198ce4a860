# Landing-page decision logic of the Next.js & Checkly starter template

This project models the server component in `src/app/page.tsx`. The component
renders the starter template's landing page. The model covers the four
decisions it makes on each request:

1. **Bypass resolution.** The Deployment Protection bypass secret comes from the
   inbound `x-vercel-protection-bypass` header, else the query parameter of the
   same name, else the `VERCEL_AUTOMATION_BYPASS_SECRET` environment value. The
   first truthy one wins. In JavaScript the empty string is falsy, so a resolved
   bypass is never empty.
2. **Outbound request.** The page fetches `${protocol}://${host}/api/greetings`,
   using the inbound `x-forwarded-proto` and `host` headers. The fetch options
   get a headers object with the bypass header only when a bypass was resolved.
3. **Greeting selection.** A non-ok response gives no greeting. An ok response's
   list is indexed at `Math.floor(Math.random() * length)`, so an empty list
   gives `undefined`, which means no greeting.
4. **Banner selection.** The page renders the greeting line and the success
   block when there is a greeting. It renders the "system environment variables
   not exposed" banner in production when there is no greeting and `VERCEL` is
   unset. It renders the "no protection bypass" banner when `VERCEL` is set and
   there is neither a greeting nor a bypass.

Modules, one file each:

- `Wrappers`: `Option` (JavaScript `null`/`undefined`) and `Result`.
- `Bypass`: the resolver, plus `Headers.get` and `URLSearchParams.get`.
- `Outbound`: the URL and the fetch options.
- `Greetings`: the random draw and the greeting lookup.
- `Landing`: the render guards, the page's visible text and the whole render, `Home`.

The JavaScript environment is passed in explicitly:

- `process.env` is a record, `Env`.
- The inbound request is a header map plus an ordered list of query pairs.
- `fetch` is a function parameter from the request to what it produced, `Fetched`. `Home` applies it to the request it builds.
- The value `Math.random()` returned is a parameter `u` with `0 <= u < 1`.

In three places the code behaves differently from what a reader might expect. The model follows the code:

- An unreachable endpoint does not lead to a banner. The component catches
  neither a rejected `fetch` nor a failing `response.json()`. In the model both
  make the render fail (`Err(NetworkFailure)`, `Err(InvalidJson)`).
- The two warning guards can never hold at the same time, in any
  configuration. One requires `VERCEL` unset and the other requires it set
  (`Landing.AtMostOneWarning`).
- A missing `host` or `x-forwarded-proto` header is `null`. A template literal
  turns `null` into the text `"null"`, and so does `Outbound.Interpolate`.

## Model

| member | source | states |
|---|---|---|
| `Bypass.Truthy` | src/app/page.tsx:23-29 | JavaScript truthiness of an optional string: only `null`/`undefined` and the empty string are falsy. The same test guards lines 40, 172 and 180. |
| `Bypass.HeaderGet` | src/app/page.tsx:17 | `Headers.get` returns a value exactly when the header is present, and that value is the header's. |
| `Bypass.QueryGet` | src/app/page.tsx:18 | `URLSearchParams.get` returns only a value paired with the name. It returns null only when no pair has that name. |
| `Bypass.QueryGetFirst` | src/app/page.tsx:16-18 | A query lookup returns a value exactly when the name occurs. The value belongs to the first pair with that name. |
| `Bypass.Resolve` | src/app/page.tsx:22-33 | A truthy header wins whatever the other two sources hold. The query value is chosen only when the header is falsy and the query is truthy. The environment value is chosen only when both are falsy. The result is null exactly when all three are falsy. A resolved bypass is never empty. |
| `Bypass.FirstTruthyIsEarliest` | src/app/page.tsx:22-33 | Reference rule for any priority list of sources: the pick is none exactly when no source is truthy, and otherwise it is the earliest truthy source. |
| `Bypass.ResolveIsFirstTruthy` | src/app/page.tsx:22-33 | The resolver is that reference rule applied to the order header, query, environment. |
| `Outbound.Interpolate` | src/app/page.tsx:38 | A header value interpolated into a template literal is its own text, and a missing one is `"null"`. |
| `Outbound.ApiUrl` | src/app/page.tsx:36-38 | The URL is the protocol text, then `://`, then the host text, then `/api/greetings`. Each part sits at its own position, and the length is the sum of the parts. |
| `Outbound.ApiUrlOrigin` | src/app/page.tsx:36-39 | If the protocol contains no `:`, splitting the URL text at the first `:` gives back that protocol as the scheme. The rest is the host text plus `/api/greetings`. |
| `Outbound.Options` | src/app/page.tsx:39-43 | The fetch options have a headers object exactly when the bypass is truthy. That object holds only the bypass header, with the bypass as its value. |
| `Outbound.OptionsCarryBypass` | src/app/page.tsx:39-43 | The fetch options have a headers object exactly when a bypass was resolved. That object is the single bypass header. The value a server reads from it is exactly the resolved bypass, or nothing. |
| `Landing.InboundBypass` | src/app/page.tsx:17-33 | The bypass for a request comes from its header, query parameter and environment secret. A non-empty header wins. Otherwise a non-empty query parameter wins over the secret. Otherwise a non-empty secret is used. The bypass is null exactly when all three are absent or empty, and it is never empty. |
| `Landing.OutboundRequest` | src/app/page.tsx:36-43 | The request ends in `/api/greetings`. It has a headers object exactly when a bypass was resolved, and the bypass a server reads from it is exactly the resolved one. |
| `Landing.OutboundRequestShape` | src/app/page.tsx:17-43 | The request the page builds has the endpoint URL from the inbound headers. It carries the bypass header exactly when one of the three sources is a non-empty string. A non-empty inbound bypass header is forwarded unchanged. |
| `Greetings.DrawIndex` | src/app/page.tsx:50 | `floor(u * n)` for `0 <= u < 1` is a valid index when `n > 0`, and 0 when `n = 0`. |
| `Greetings.Lookup` | src/app/page.tsx:50 | Indexing the list gives a value exactly for an index within bounds. That value is the element at the index, so it is in the list. Outside the bounds it is `undefined`. |
| `Greetings.FetchGreeting` | src/app/page.tsx:45-52 | A non-ok response gives no greeting. An ok response whose body is not JSON throws. An ok list gives a greeting exactly when it is non-empty. That greeting is the element at index `floor(u * n)`, so it is in the list. |
| `Greetings.EveryGreetingReachable` | src/app/page.tsx:49-50 | Every element of a non-empty list is shown for some draw: the draw `k/n` selects element `k`. |
| `Greetings.DrawPreimage` | src/app/page.tsx:50 | The draws `u` for which `floor(u * n)` is `k` are exactly those in `[k/n, (k+1)/n)`. Every index gets an interval of the same width `1/n`. |
| `Greetings.DrawSelects` | src/app/page.tsx:49-51 | Every draw in `[k/n, (k+1)/n)` shows greeting `k` of an ok `n`-element list. With `DrawPreimage`, every greeting is shown for a set of draws of width `1/n`, so a uniform draw shows each with the same chance. |
| `Landing.IsProduction` | src/app/page.tsx:172 | `NODE_ENV === "production"` is strict equality. A production environment always has a defined, non-empty `NODE_ENV`. |
| `Landing.BlockTexts` | src/app/page.tsx:54-136 | The success block's texts include "Go to the GitHub repo" (line 131). Neither warning banner's texts include it. |
| `Landing.Blocks` | src/app/page.tsx:153-182 | The success block is rendered exactly when there is a greeting. The greeting line is rendered exactly for the greeting drawn. At most two blocks are rendered. |
| `Landing.GreetingPage` | src/app/page.tsx:153-182 | With a greeting, the page shows exactly the greeting line and the success block, and no warning. |
| `Landing.EnvVarsBannerIff` | src/app/page.tsx:172-173 | The environment-variables banner shows exactly in production, without a greeting, with `VERCEL` falsy. |
| `Landing.ProtectionBannerIff` | src/app/page.tsx:180-181 | The protection banner shows exactly when `VERCEL` is truthy and there is no greeting and no bypass. |
| `Landing.AtMostOneWarning` | src/app/page.tsx:168-182 | The two warning banners never show together. |
| `Landing.BlocksMatchOutcome` | src/app/page.tsx:153-182 | The four separate guards give the same blocks as a single outcome: greeting (line plus success), or the environment banner, or the protection banner, or nothing. |
| `Landing.CheckTextVisibleIff` | src/app/page.tsx:124-166 | "Go to the GitHub repo", the text the landing-page check waits for, is visible exactly when a greeting was fetched. |
| `Landing.Home` | src/app/page.tsx:36-182 | The render passes the request it builds to `fetch`. A rejected fetch and an unparsable ok body fail the render. Any other response renders the blocks of the single outcome for the drawn greeting, the environment and the resolved bypass. The check's text is visible exactly when a greeting was drawn. A rendered page never shows both warnings. Any greeting it shows comes from an ok response's list. |
| `Landing.HomeProtectionBanner` | src/app/page.tsx:176-182 | In a rendered page, the protection banner shows exactly when `VERCEL` is truthy, there is no greeting, and header, query parameter and secret are all absent or empty. |
| `Landing.ScenarioOneGreeting` | src/app/page.tsx:153-166 | An ok response holding just `hello` renders its greeting line and the success block, and the check's text is visible. |
| `Landing.ScenarioEmptyListInProduction` | src/app/page.tsx:168-174 | An empty ok list in production without `VERCEL` renders only the environment-variables banner. |
| `Landing.ScenarioProtectedWithoutBypass` | src/app/page.tsx:176-182 | A non-ok response with `VERCEL` set and no bypass anywhere renders only the protection banner. |

## Left out

- The `fetch` call, `headers()`, the `searchParams` promise and `response.json()` are asynchronous I/O. `fetch` is an arbitrary function parameter, and the results of the others are parameters.
- The endpoint is an external service. `fetch` may answer any request in any way, so whether the endpoint honours the bypass header is not part of this model.
- `Math.random()` and the floating-point product at line 50 are modelled with exact reals. The draw `u` is arbitrary in `[0, 1)`, so any index that rounding could produce is covered. Rounding never reaches `n`: `Math.random()` is at most `1 - 2^-53` and an array length is below `2^32`.
- Greetings.DrawSelects: with `Greetings.DrawPreimage`, it states that each greeting is shown for an interval of draws of width `1/n`. It does not state a probability, because distributions are not modelled.
- Outbound.ApiUrlOrigin: the host text is neither parsed nor validated. A `host` header holding `/`, `?`, `#` or `@` changes what a URL parser takes as host and path, so the lemma is about the URL text, not about which server is contacted.
- A JSON body that parses but is not an array of greeting objects is not modelled. A body that fails to parse is.
- `Headers.get` in the model does not lower-case names or join repeated headers. The model's header map already has lower-case names and one value per name.
- Query parameters are modelled as the `URLSearchParams` that line 11 declares, so a repeated key gives its first value. At run time the framework passes a plain object. For a repeated key, `new URLSearchParams` of that object gives the values joined by commas, which the model does not capture.
- Landing.CheckTextVisibleIff: Playwright's `getByText` matches a case-insensitive substring. The model matches whole texts, and each block's text is cut down to a few short phrases taken from it, link labels included.
- JSX markup, styling, `Link` and `Image` components, and the rest of the static text are left out. They are UI with no decisions in them.
- `__checks__/landing-page.spec.ts` runs a browser against a live deployment. Only the text it waits for is modelled.
