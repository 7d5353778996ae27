/**
 * The crypto-identifier resolver of index.js: `getPrice` (the first step,
 * reached from the `/price` route) and the body of the `/select` route (the
 * second step of disambiguation).
 *
 * The two upstream requests are replaced by their answers. `Upstream` holds
 * what the price service would answer at this moment: per id, the reply to
 * `simple/price?ids=<id>` read as `data[id]?.usd`, and the reply to
 * `coins/list`. Each function also returns the requests it made, in order,
 * so that the short-circuits of the source can be stated.
 */
module Resolver {

  import opened Wrappers
  import opened Ascii
  import opened JsArray

  /** A quoted price in USD. Only its truthiness is ever inspected. */
  type Price = int

  /** One entry of the `coins/list` catalog. */
  datatype Asset = Asset(id: string, name: string, symbol: string)

  /** The answer to one upstream request: a value, or an axios error with its message. */
  datatype Reply<+T> = Ok(value: T) | Failed(message: string)

  /** A snapshot of the upstream price service. */
  datatype Upstream = Upstream(quotes: map<string, Reply<Option<Price>>>, catalog: Reply<seq<Asset>>)

  /** A request made to the upstream service. */
  datatype Call = QuoteCall(id: string) | CatalogCall

  /**
   * What a resolution produces: `{price, cryptoName}`, `{multiple: true, cryptos}`,
   * `null`, or a thrown error with its message.
   */
  datatype Outcome =
    | Resolved(price: Price, cryptoName: string)
    | Ambiguous(cryptos: seq<Asset>)
    | NotFound
    | Error(message: string)

  /** An outcome together with the requests made to reach it, in order. */
  datatype Run = Run(outcome: Outcome, calls: seq<Call>)

  /** The message of the error `getPrice` throws on any failure. */
  const FetchErrorMessage := "Error fetching data. Please try again later."

  /** The message of the ReferenceError raised by the unbound `cryptoName` in `/select`. */
  const UndeclaredNameMessage := "cryptoName is not defined"

  /** The message of the TypeError raised by `undefined.name` in `/select`. */
  const MissingEntryMessage := "Cannot read properties of undefined (reading 'name')"

  /** `data[id]?.usd` for a price request on `id`; an id the service does not list has no price. */
  function Quote(u: Upstream, id: string): (r: Reply<Option<Price>>)
    ensures id in u.quotes ==> r == u.quotes[id]
    ensures id !in u.quotes ==> r == Ok(None)
  {
    if id in u.quotes then u.quotes[id] else Ok(None)
  }

  /** JavaScript truthiness of `data[id]?.usd`: a missing price and a price of 0 are both falsy. */
  predicate Truthy(usd: Option<Price>): (b: bool)
    ensures usd.None? ==> !b
    ensures usd == Some(0) ==> !b
    ensures usd.Some? && usd.value != 0 ==> b
  {
    usd.Some? && usd.value != 0
  }

  /** The price request on `id` succeeded but gave no truthy price. */
  predicate NoTruthyQuote(id: string, u: Upstream) {
    Quote(u, id).Ok? && !Truthy(Quote(u, id).value)
  }

  /** Whether a request fails in this snapshot. */
  predicate Fails(u: Upstream, c: Call) {
    match c
    case QuoteCall(id) => Quote(u, id).Failed?
    case CatalogCall => u.catalog.Failed?
  }

  predicate NameMatch(a: Asset, input: string) {
    Lower(a.name) == Lower(input)
  }

  predicate SymbolMatch(a: Asset, input: string) {
    Lower(a.symbol) == Lower(input)
  }

  /** The callback of the `find` on names. */
  function ByName(input: string): Asset -> bool {
    (a: Asset) => NameMatch(a, input)
  }

  /** The callback of the `filter` on symbols. */
  function BySymbol(input: string): Asset -> bool {
    (a: Asset) => SymbolMatch(a, input)
  }

  /** The callback of the `find` on ids in `/select`. */
  function ById(id: string): Asset -> bool {
    (a: Asset) => a.id == id
  }

  /** Prefixes a request to a run. */
  function After(c: Call, r: Run): Run {
    Run(r.outcome, [c] + r.calls)
  }

  /**
   * The last step of `getPrice`: the outcome for a single candidate, given the
   * reply to the price request on its id. A price of zero is absent, like a
   * missing one; a failed request becomes the generic error.
   */
  function PriceOutcome(c: Asset, reply: Reply<Option<Price>>): (o: Outcome)
    ensures o.Resolved? <==> reply.Ok? && Truthy(reply.value)
    ensures o.Resolved? ==> o.cryptoName == c.name && Some(o.price) == reply.value && o.price != 0
    ensures o == NotFound <==> reply == Ok(None) || reply == Ok(Some(0))
    ensures o.Error? <==> reply.Failed?
    ensures o.Error? ==> o.message == FetchErrorMessage
    ensures !o.Ambiguous?
  {
    match reply
    case Failed(_) => Error(FetchErrorMessage)
    case Ok(usd) => if Truthy(usd) then Resolved(usd.value, c.name) else NotFound
  }

  /** Requests the price of the single candidate. */
  function PriceCandidate(c: Asset, u: Upstream): (r: Run)
    ensures r.calls == [QuoteCall(c.id)]
    ensures r.outcome.Resolved? <==> Quote(u, c.id).Ok? && Truthy(Quote(u, c.id).value)
    ensures r.outcome.Resolved? ==> r.outcome.cryptoName == c.name && Quote(u, c.id) == Ok(Some(r.outcome.price))
    ensures r.outcome == NotFound <==> NoTruthyQuote(c.id, u)
    ensures r.outcome.Error? <==> Quote(u, c.id).Failed?
  {
    Run(PriceOutcome(c, Quote(u, c.id)), [QuoteCall(c.id)])
  }

  /**
   * `getPrice` from the catalog request on: the name match wins, then a single
   * symbol match, then the list of several symbol matches.
   */
  function SearchCatalog(input: string, u: Upstream): (r: Run)
    ensures 1 <= |r.calls| <= 2 && r.calls[0] == CatalogCall
    ensures r.outcome.Ambiguous? ==> |r.outcome.cryptos| >= 2 && |r.calls| == 1
    ensures r.outcome.Resolved? ==> r.outcome.price != 0
    ensures r.outcome.Error? ==> r.outcome.message == FetchErrorMessage
  {
    match u.catalog
    case Failed(_) => Run(Error(FetchErrorMessage), [CatalogCall])
    case Ok(list) =>
      var named := Find(list, ByName(input));
      if named.Some? then
        After(CatalogCall, PriceCandidate(named.value, u))
      else
        var matches := Filter(list, BySymbol(input));
        if |matches| == 0 then Run(NotFound, [CatalogCall])
        else if |matches| == 1 then After(CatalogCall, PriceCandidate(matches[0], u))
        else Run(Ambiguous(matches), [CatalogCall])
  }

  /**
   * `getPrice(input)`: the input is first tried as an id; only when that gives
   * no truthy price is the catalog searched.
   */
  function GetPrice(input: string, u: Upstream): (r: Run)
    ensures 1 <= |r.calls| <= 3 && r.calls[0] == QuoteCall(input)
    ensures r.outcome.Ambiguous? ==> |r.outcome.cryptos| >= 2
    ensures r.outcome.Resolved? ==> r.outcome.price != 0
    ensures r.outcome.Error? ==> r.outcome.message == FetchErrorMessage
  {
    match Quote(u, input)
    case Failed(_) => Run(Error(FetchErrorMessage), [QuoteCall(input)])
    case Ok(usd) =>
      if Truthy(usd) then Run(Resolved(usd.value, input), [QuoteCall(input)])
      else After(QuoteCall(input), SearchCatalog(input, u))
  }

  /**
   * Lines 140-146 of `/select`, once the chosen id has a truthy price: the
   * catalog is fetched again to recover the display name of the first entry
   * with that id; when there is none, reading its `name` throws.
   */
  function SelectPriced(id: string, price: Price, u: Upstream): (r: Run)
    ensures r.calls == [CatalogCall]
    ensures r.outcome.Resolved? ==> r.outcome.price == price
    ensures r.outcome.Resolved? || r.outcome.Error?
    ensures r.outcome.Error? <==> u.catalog.Failed? || forall i :: 0 <= i < |u.catalog.value| ==> u.catalog.value[i].id != id
    ensures u.catalog.Failed? ==> r.outcome == Error(u.catalog.message)
    ensures u.catalog.Ok? && r.outcome.Error? ==> r.outcome.message == MissingEntryMessage
  {
    match u.catalog
    case Failed(m) => Run(Error(m), [CatalogCall])
    case Ok(list) =>
      match Find(list, ById(id))
      case Some(a) => Run(Resolved(price, a.name), [CatalogCall])
      case None => Run(Error(MissingEntryMessage), [CatalogCall])
  }

  /**
   * The `/select` handler as written: when the price is absent its else branch
   * names `cryptoName`, which is not bound there, so it raises a ReferenceError
   * instead of reporting that nothing matched.
   */
  function SelectAsWritten(id: string, u: Upstream): (r: Run)
    ensures 1 <= |r.calls| <= 2 && r.calls[0] == QuoteCall(id)
    ensures r.outcome.Resolved? || r.outcome.Error?
    ensures NoTruthyQuote(id, u) ==> r.outcome == Error(UndeclaredNameMessage)
    ensures Quote(u, id).Failed? ==> r == Run(Error(Quote(u, id).message), [QuoteCall(id)])
  {
    match Quote(u, id)
    case Failed(m) => Run(Error(m), [QuoteCall(id)])
    case Ok(usd) =>
      if Truthy(usd) then After(QuoteCall(id), SelectPriced(id, usd.value, u))
      else Run(Error(UndeclaredNameMessage), [QuoteCall(id)])
  }

  /**
   * The `/select` handler as intended: an absent price reports that nothing
   * matched, and the catalog is then not fetched.
   */
  function Select(id: string, u: Upstream): (r: Run)
    ensures 1 <= |r.calls| <= 2 && r.calls[0] == QuoteCall(id)
    ensures !r.outcome.Ambiguous?
    ensures r.outcome == NotFound <==> NoTruthyQuote(id, u)
    ensures Quote(u, id).Failed? ==> r == Run(Error(Quote(u, id).message), [QuoteCall(id)])
    ensures Quote(u, id).Ok? && Truthy(Quote(u, id).value) ==> r == After(QuoteCall(id), SelectPriced(id, Quote(u, id).value.value, u))
    ensures r.outcome == NotFound ==> r.calls == [QuoteCall(id)]
    ensures r.outcome.Resolved? ==> Quote(u, id) == Ok(Some(r.outcome.price)) && r.outcome.price != 0
  {
    match Quote(u, id)
    case Failed(m) => Run(Error(m), [QuoteCall(id)])
    case Ok(usd) =>
      if Truthy(usd) then After(QuoteCall(id), SelectPriced(id, usd.value, u))
      else Run(NotFound, [QuoteCall(id)])
  }
}
