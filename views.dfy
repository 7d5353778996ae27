/**
 * What the two routes render from a resolution: the selection page for an
 * ambiguous input, otherwise `result.ejs` with a name, a price or an error.
 */
module Views {

  import opened Wrappers
  import opened Resolver

  datatype View =
    | SelectCrypto(cryptos: seq<Asset>)
    | ResultPage(cryptoName: Option<string>, price: Option<Price>, error: Option<string>)

  /** The error shown when resolution ends with nothing. */
  const NoMatchMessage := "No matching crypto found"

  /** `handleError`: the result page with the error's message, or the generic one when it is empty. */
  function ErrorPage(cryptoName: Option<string>, message: string): (v: View)
    ensures v.ResultPage? && v.cryptoName == cryptoName && v.price.None? && v.error.Some?
    ensures v.error.value != ""
    ensures message != "" ==> v.error.value == message
    ensures message == "" ==> v.error == Some(FetchErrorMessage)
  {
    ResultPage(cryptoName, None, Some(if message != "" then message else FetchErrorMessage))
  }

  /** The `/price` route: how the outcome of `getPrice(input)` is rendered. */
  function PriceView(input: string, o: Outcome): (v: View)
    ensures v.SelectCrypto? <==> o.Ambiguous?
    ensures v.SelectCrypto? ==> v.cryptos == o.cryptos
    ensures v.ResultPage? ==> (v.price.Some? <==> o.Resolved?) && (v.error.Some? <==> !o.Resolved?)
    ensures v.ResultPage? && v.error.Some? ==> v.error.value != ""
    ensures o == NotFound ==> v == ResultPage(Some(input), None, Some(NoMatchMessage))
    ensures o.Resolved? ==> v == ResultPage(Some(o.cryptoName), Some(o.price), None)
    ensures o.Error? ==> v == ErrorPage(Some(input), o.message)
  {
    match o
    case Ambiguous(cryptos) => SelectCrypto(cryptos)
    case Resolved(price, name) => ResultPage(Some(name), Some(price), None)
    case NotFound => ResultPage(Some(input), None, Some(NoMatchMessage))
    case Error(message) => ErrorPage(Some(input), message)
  }

  /**
   * The `/select` route: a resolved outcome shows the catalog name and price;
   * any error goes through `handleError` with no name; the intended "nothing
   * matched" page has no name either.
   */
  function SelectView(o: Outcome): (v: View)
    requires !o.Ambiguous?
    ensures v.ResultPage?
    ensures v.price.Some? <==> o.Resolved?
    ensures v.error.Some? <==> !o.Resolved?
    ensures !o.Resolved? ==> v.cryptoName.None?
    ensures o.Resolved? ==> v == ResultPage(Some(o.cryptoName), Some(o.price), None)
    ensures o.Error? ==> v == ErrorPage(None, o.message)
    ensures o == NotFound ==> v.error == Some(NoMatchMessage)
  {
    match o
    case Resolved(price, name) => ResultPage(Some(name), Some(price), None)
    case NotFound => ResultPage(None, None, Some(NoMatchMessage))
    case Error(message) => ErrorPage(None, message)
  }

  /**
   * Every page the `/price` route renders is well formed: a selection among
   * at least two entries, or a result page with a truthy price or a
   * non-empty error but never both; errors always show the generic message.
   */
  lemma PricePageWellFormed(input: string, u: Upstream)
    ensures var v := PriceView(input, GetPrice(input, u).outcome);
      && (v.SelectCrypto? ==> |v.cryptos| >= 2)
      && (v.ResultPage? ==> (v.price.Some? != v.error.Some?) && (v.price.Some? ==> v.price.value != 0))
      && (GetPrice(input, u).outcome.Error? ==> v.error == Some(FetchErrorMessage))
  {
  }

  /**
   * `/select` as written, on an id with no truthy price, shows the
   * ReferenceError's message where "No matching crypto found" was meant.
   */
  lemma SelectPageAbsentPrice(id: string, u: Upstream)
    requires NoTruthyQuote(id, u)
    ensures SelectView(SelectAsWritten(id, u).outcome) == ResultPage(None, None, Some(UndeclaredNameMessage))
    ensures SelectView(Select(id, u).outcome) == ResultPage(None, None, Some(NoMatchMessage))
  {
  }
}
