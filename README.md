# Crypto price tracker: identifier resolution

This project models the resolver at the heart of the crypto price tracker's
`index.js`. A user types a cryptocurrency identifier: an exact coin id, a
display name, or a ticker symbol. The resolver turns it into one of four
outcomes:

- a price with the name to show;
- a list of candidates for the user to choose from;
- "nothing matched" (`null`);
- an error.

It works through a fixed chain. First the input is tried as a coin id. Then
the catalog is searched for a case-insensitive name match, and the first such
entry wins. Then it is searched for case-insensitive symbol matches: none
gives nothing, one gives the candidate, and several give the list. Finally
the single candidate is priced by its id. The `/select` route is the second
step of disambiguation. It prices the chosen id and fetches the catalog again
to recover that entry's display name.

The two upstream requests (`simple/price` and `coins/list`) are not
performed. Their answers are a parameter, `Resolver.Upstream`:

- per id, the reply to a price request on that id, read as `data[id]?.usd`. An id the snapshot does not list has no price.
- the reply to the catalog request.

Either reply may be `Failed(message)`, standing for an axios error.

Every resolution returns its outcome together with the requests it made, in
order (`Run`). That is how the model states the short-circuits: the fast path
never fetches the catalog, and an ambiguous input never triggers a second
price request.

Prices are opaque integers. Only their JavaScript truthiness is inspected
(`Truthy`: present and non-zero), so a price of 0 counts as absent.
`toLowerCase` is modelled on ASCII letters (`Ascii.Lower`), and only as a
function applied to both sides of each comparison. `Array.prototype.find`
and `filter` are modelled once, generically, in `JsArray`. Each is
characterised completely: `find` returns the first satisfying element, and
`filter` keeps exactly the satisfying elements, as often as they occur and
in array order. All functions are pure. Resolving the same input twice
against the same snapshot therefore gives the same outcome and the same
requests.

Points where the code behaves in ways a reader might not expect, all modelled as written:

- A resolved outcome carries only the price and a name, not the whole asset. On the fast path the name is the raw input.
- An upstream failure in `getPrice` is replaced by one generic error message (`Resolver.FetchErrorMessage`). In `/select`, the upstream error's own message reaches `handleError`.
- If the chosen id is missing from the catalog in `/select`, reading `undefined.name` throws a TypeError. The result is the error page (`Resolver.MissingEntryMessage`); no dedicated outcome exists for a catalog that lost the id.
- With no truthy price, `/select` raises a ReferenceError instead of reporting no match. See "## Findings".

Files: `wrappers.dfy` (Option), `ascii.dfy` (lower-casing), `js_array.dfy`
(`find`/`filter`), `resolver.dfy` (data model, `getPrice`, `/select`),
`views.dfy` (what the routes render), `properties.dfy` (the resolver's
guarantees and worked examples).

## Model

| member | source | states |
|---|---|---|
| JsArray.Find | index.js:53 | the result is absent exactly when no element satisfies the callback; otherwise it is an element that satisfies it and no earlier element does |
| JsArray.FindFirst | index.js:143-145 | if index k satisfies the callback and no earlier index does, `find` returns the element at k |
| JsArray.Filter | index.js:57-59 | every kept element satisfies the callback, and no more elements are kept than the array holds |
| JsArray.FilterCounts | index.js:57-59 | each value occurs in the result exactly as often as in the array when it satisfies the callback, and never otherwise |
| JsArray.FilterOrdered | index.js:57-59 | the result is a subsequence of the array, so catalog order is kept |
| JsArray.FilterNone | index.js:57-64 | when no element satisfies the callback, the result is empty |
| JsArray.FilterSingle | index.js:57-67 | when exactly one position satisfies the callback, the result is that element alone |
| JsArray.FilterTwo | index.js:57-70 | two distinct satisfying positions give a result of length at least 2 |
| JsArray.FilterTwoWitness | index.js:57-70 | a result of length at least 2 implies two distinct satisfying positions in the array |
| JsArray.FilterMember | index.js:57-59 | every element of the result is in the array and satisfies the callback |
| Ascii.Lower | index.js:53 | keeps the length, leaves no upper-case ASCII letter, maps each upper-case letter to its lower-case form and keeps every other character |
| Resolver.Quote | index.js:44 | the reply for an id the snapshot lists is that listed reply; an id it does not list has a successful reply with no price (`data[id]?.usd` is undefined) |
| Resolver.Truthy | index.js:80 | a missing price and a price of 0 are falsy; any other present price is truthy |
| Resolver.PriceCandidate | index.js:74-77 | exactly one request, a price request on the candidate's id; resolved exactly when it gives a truthy price, under the candidate's name with that quote; "nothing matched" exactly when the reply succeeds with no truthy price; an error exactly when it fails |
| Resolver.PriceOutcome | index.js:74-87 | resolved exactly when the reply holds a truthy price, under the candidate's name with that price; "nothing matched" exactly when the price is missing or 0; the generic error exactly when the request failed |
| Resolver.SearchCatalog | index.js:48-93 | the catalog is requested first and at most one more request follows; an ambiguous list has at least 2 entries and no price request follows it; a resolved price is non-zero; every error carries the generic message |
| Resolver.GetPrice | index.js:39-94 | the input is requested as an id first, and at most three requests are made; an ambiguous list has at least 2 entries; a resolved price is non-zero; every error carries the generic message |
| Resolver.SelectPriced | index.js:140-146 | exactly one catalog request is made; the outcome is resolved with the given price, or an error exactly when the catalog request failed or has no entry with the id; a failed catalog request gives its own axios message, a missing entry the TypeError message |
| Resolver.SelectAsWritten | index.js:134-150 | the id's price is requested first; the outcome is resolved or an error, never "nothing matched"; a successful reply without a truthy price raises the unbound-name ReferenceError; a failed price request gives its own axios message after that single request |
| Resolver.Select | index.js:134-153 | the id's price is requested first; "nothing matched" exactly when that reply holds no truthy price, and then the catalog is not fetched; a resolved price is the id's own truthy quote; a failed price request gives its own axios message after that single request; a truthy price continues with the catalog lookup of `SelectPriced`; the outcome is never a list |
| Views.ErrorPage | index.js:97-104 | a result page with no price and a non-empty error: the error's own message, or the generic one when that is empty |
| Views.PriceView | index.js:114-126 | the selection page exactly for an ambiguous outcome, with its list; otherwise a result page with a price exactly when resolved and an error exactly when not; "nothing matched" shows the typed input and the no-match message; a resolved page shows the outcome's name and price; an error page is `handleError` with the typed input and the error's message |
| Views.SelectView | index.js:139-153 | always a result page, with a price exactly when resolved and an error otherwise; a resolved page shows the outcome's name and price; an error page is `handleError` with no name and the error's message; "nothing matched" shows the no-match message |
| Views.PricePageWellFormed | index.js:107-128 | every page of `/price` is a selection among at least 2 entries or a result page with exactly one of a truthy price and an error; errors show the generic message |
| Views.SelectPageAbsentPrice | index.js:147-149 | with no truthy price, `/select` as written shows the ReferenceError's message; as intended it shows "No matching crypto found" |
| ResolverProperties.FastPath | index.js:42-46 | a truthy price for the input as an id resolves at once under the input, with a single request; the catalog is requested exactly when that first reply succeeds without a truthy price |
| ResolverProperties.NamePriority | index.js:52-56 | after the fast path misses, the first entry whose name matches becomes the candidate and is priced by its id, whatever entries match by symbol |
| ResolverProperties.NoMatch | index.js:57-64 | with no name match and no symbol match, the outcome is `null` after exactly the id request and the catalog request |
| ResolverProperties.SingleSymbol | index.js:66-77 | with no name match and a single symbol match, that entry becomes the candidate and is priced by its id |
| ResolverProperties.AmbiguousIff | index.js:56-71 | the outcome is a list exactly when the fast path misses, the catalog arrives, no name matches and two distinct entries match by symbol |
| ResolverProperties.AmbiguousOnlyIf | index.js:56-71 | a list outcome implies a missed fast path, a catalog, no name match and two distinct symbol-matching entries |
| ResolverProperties.AmbiguousCandidates | index.js:57-70 | a list holds exactly the symbol-matching entries, with their multiplicity, in catalog order, at least 2 of them, after only the id and catalog requests |
| ResolverProperties.FailureIsLastCall | index.js:89-93 | the outcome is an error exactly when the last request failed; every earlier request succeeded; the error is the generic one |
| ResolverProperties.ResolvedProvenance | index.js:42-87 | a resolved price is the input's own truthy quote shown under the input, or the quote of a catalog entry matching by name or symbol, shown under that entry's name |
| ResolverProperties.CaseInsensitive | index.js:53-58 | two inputs with the same lower-cased form that both miss the fast path get the same outcome and the same later requests |
| ResolverProperties.SelectFirstById | index.js:136-146 | with a truthy price, `/select` shows the name of the first catalog entry with that id, after the price and catalog requests, and agrees with the code as written |
| ResolverProperties.SelectAfterAmbiguous | index.js:134-146 | choosing a listed candidate whose id is quoted resolves to that candidate's own name and price, given unique catalog ids |
| ResolverProperties.SelectAbsentPrice | index.js:139-149 | the two versions of `/select` agree except on an id without a truthy price, where the code raises the ReferenceError and the intended version reports no match |
| ResolverProperties.UndeclaredNameExample | index.js:147-149 | an unquoted id makes `/select` as written raise the ReferenceError after one request; the intended version reports no match |
| ResolverProperties.TickerExample | index.js:57-82 | "BTC" against a catalog of bitcoin and ethereum resolves by symbol to 65000 under the name "Bitcoin" |
| ResolverProperties.IdExample | index.js:42-46 | "bitcoin" resolves on the fast path under "bitcoin" with one request |
| ResolverProperties.UnknownExample | index.js:57-64 | "btc-fake" gives `null` after the id request and the catalog request |
| ResolverProperties.SharedSymbolExample | index.js:57-70 | two entries whose symbols differ only in case are both listed, in catalog order |

## Left out

- The HTTP requests (axios), URL and query-string building and the API-key header: their answers are the `Upstream` parameter.
- One snapshot answers all requests: the model cannot express a reply that changes between two requests on the same id, or a catalog that changes between `/price` and `/select`.
- Express wiring (middleware, static files, view engine, `app.listen`) and the templates: a rendered page is the `Views.View` value passed to `res.render`.
- `console.log` and `console.error` calls: logging only.
- Floating-point prices: a price is an integer and only its truthiness is used, so a NaN price (also falsy in JavaScript) is not represented.
- Unicode lower-casing: `Ascii.Lower` changes ASCII letters only.
- Malformed catalog entries (a `name` or `symbol` that is not a string) and a missing form field (`req.body.cryptoName` undefined): these make `toLowerCase` throw. Inputs and catalog fields are always strings here.
- The exact texts of axios error messages: they are the opaque `message` of a failed reply.
- Resolver.SelectPriced: the outcome for a missing catalog entry is an error carrying V8's TypeError text; no dedicated outcome exists, because the code has none.

## Findings

| source | as written | input that shows it | evidently intended | confidence | as-written member | corrected member |
|---|---|---|---|---|---|---|
| index.js:149 | when the chosen id has no truthy price, the else branch of `/select` renders with `cryptoName`, which is not bound in that handler; in an ES module this raises a ReferenceError, and `handleError` shows "cryptoName is not defined" | `/select` with id "dogecoin" and a price reply that does not list it (`ResolverProperties.UndeclaredNameExample`) | render the result page with "No matching crypto found", like `/price` does | high; not executed | Resolver.SelectAsWritten | Resolver.Select |
