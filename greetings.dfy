/**
 * Greeting selection: a non-ok response gives no greeting; otherwise the
 * parsed list is indexed at `Math.floor(Math.random() * greetings.length)`.
 */
module Greetings {
  import opened Wrappers

  /** A greeting record served by `/api/greetings`. */
  datatype Greeting = Greeting(text: string)

  /** The response body as `response.json()` sees it: a list of greetings, or text that is not JSON. */
  datatype Body = GreetingList(items: seq<Greeting>) | Unparsable

  /** The part of the `fetch` response the page reads. */
  datatype Response = Response(ok: bool, body: Body)

  /** Why the server component throws instead of rendering. */
  datatype RenderError = NetworkFailure | InvalidJson

  /** A draw `0 <= u < 1` scaled by `n` is non-negative and, for `n > 0`, strictly below `n`. */
  lemma ScaledDrawBelow(u: real, n: nat)
    requires 0.0 <= u < 1.0
    ensures 0.0 <= u * n as real
    ensures n > 0 ==> u * n as real < n as real
  {
  }

  /** `Math.floor(u * n)` for a value `u` of `Math.random()`, in exact real arithmetic. */
  function DrawIndex(u: real, n: nat): (i: int)
    requires 0.0 <= u < 1.0
    ensures n == 0 ==> i == 0
    ensures n > 0 ==> 0 <= i < n
  {
    ScaledDrawBelow(u, n);
    (u * n as real).Floor
  }

  /** Indexing a JavaScript array: `undefined` (None) outside its bounds. */
  function Lookup(items: seq<Greeting>, i: int): (r: Option<Greeting>)
    ensures r.Some? <==> 0 <= i < |items|
    ensures r.Some? ==> r.value == items[i] && r.value in items
  {
    if 0 <= i < |items| then Some(items[i]) else None
  }

  /** `fetchGreeting`: the greeting drawn from an ok response, none for a non-ok one. */
  function FetchGreeting(response: Response, u: real): (r: Result<Option<Greeting>, RenderError>)
    requires 0.0 <= u < 1.0
    ensures !response.ok ==> r == Ok(None)
    ensures response.ok && response.body.Unparsable? ==> r == Err(InvalidJson)
    ensures response.ok && response.body.GreetingList? ==>
              r.Ok? && (r.value.Some? <==> |response.body.items| > 0)
    ensures r.Ok? && r.value.Some? ==>
              response.ok && response.body.GreetingList? && r.value.value in response.body.items
    ensures response.ok && response.body.GreetingList? && |response.body.items| > 0 ==>
              r == Ok(Some(response.body.items[DrawIndex(u, |response.body.items|)]))
  {
    if !response.ok then Ok(None)
    else match response.body
      case Unparsable => Err(InvalidJson)
      case GreetingList(items) => Ok(Lookup(items, DrawIndex(u, |items|)))
  }

  /** Dividing by a positive real and multiplying back gives the original value. */
  lemma DivTimes(k: real, n: real)
    requires n > 0.0
    ensures (k / n) * n == k
  {
  }

  /** Every greeting of a non-empty list is the one shown for some draw: draw `k / n` picks index `k`. */
  lemma EveryGreetingReachable(items: seq<Greeting>, k: nat)
    requires k < |items|
    ensures var u := k as real / |items| as real;
            0.0 <= u < 1.0 && FetchGreeting(Response(true, GreetingList(items)), u) == Ok(Some(items[k]))
  {
    DivTimes(k as real, |items| as real);
  }

  /** Scaling by a positive real keeps the order of two reals, strict and non-strict. */
  lemma ScaleKeepsOrder(a: real, b: real, m: real)
    requires m > 0.0
    ensures a <= b <==> a * m <= b * m
    ensures a < b <==> a * m < b * m
  {
    assert b * m - a * m == (b - a) * m;
    if a < b {
      assert (b - a) * m > 0.0;
    } else {
      assert (a - b) * m >= 0.0;
    }
  }

  /** Dividing by a positive real moves to the other side of a lower bound as a multiplication. */
  lemma DivLeIff(a: real, u: real, m: real)
    requires m > 0.0
    ensures a / m <= u <==> a <= u * m
  {
    DivTimes(a, m);
    ScaleKeepsOrder(a / m, u, m);
  }

  /** Dividing by a positive real moves to the other side of a strict upper bound as a multiplication. */
  lemma LtDivIff(u: real, b: real, m: real)
    requires m > 0.0
    ensures u < b / m <==> u * m < b
  {
    DivTimes(b, m);
    ScaleKeepsOrder(u, b / m, m);
  }

  /**
   * The draws that select index `k` of an `n`-element list are exactly those
   * in `[k / n, (k + 1) / n)`, an interval of width `1 / n` for every `k`.
   */
  lemma DrawPreimage(u: real, n: nat, k: int)
    requires 0.0 <= u < 1.0 && n > 0
    ensures DrawIndex(u, n) == k <==> k as real / n as real <= u < (k + 1) as real / n as real
  {
    var m := n as real;
    var x := u * m;
    DivLeIff(k as real, u, m);
    LtDivIff(u, (k + 1) as real, m);
    assert DrawIndex(u, n) == x.Floor;
  }

  /** Every draw in `[k / n, (k + 1) / n)` shows greeting `k` of an ok `n`-element list. */
  lemma DrawSelects(items: seq<Greeting>, u: real, k: int)
    requires 0.0 <= u < 1.0 && 0 <= k < |items|
    requires k as real / |items| as real <= u < (k + 1) as real / |items| as real
    ensures FetchGreeting(Response(true, GreetingList(items)), u) == Ok(Some(items[k]))
  {
    DrawPreimage(u, |items|, k);
  }
}
