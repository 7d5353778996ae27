/**
 * What the resolution chain of index.js guarantees, stated over every
 * snapshot of the upstream service.
 */
module ResolverProperties {

  import opened Wrappers
  import opened Ascii
  import opened JsArray
  import opened Resolver

  /** No catalog entry matches the input by name. */
  predicate NoNameMatch(input: string, list: seq<Asset>) {
    forall i :: 0 <= i < |list| ==> !NameMatch(list[i], input)
  }

  /** Catalog ids are unique, as the upstream service promises. */
  predicate IdsUnique(list: seq<Asset>) {
    forall i, j :: 0 <= i < j < |list| ==> list[i].id != list[j].id
  }

  /**
   * Fast path: a truthy price for the input as an id resolves at once, under the
   * input as name; the catalog is requested exactly when that first request
   * succeeds without a truthy price.
   */
  lemma FastPath(input: string, u: Upstream)
    ensures Quote(u, input).Ok? && Truthy(Quote(u, input).value) ==>
      GetPrice(input, u) == Run(Resolved(Quote(u, input).value.value, input), [QuoteCall(input)])
    ensures CatalogCall in GetPrice(input, u).calls <==> NoTruthyQuote(input, u)
  {
  }

  /**
   * Name priority: the first entry whose name matches is the candidate, and its
   * price decides the outcome, whatever other entries match by symbol.
   */
  lemma NamePriority(input: string, u: Upstream, k: nat)
    requires NoTruthyQuote(input, u) && u.catalog.Ok?
    requires k < |u.catalog.value| && NameMatch(u.catalog.value[k], input)
    requires forall j :: 0 <= j < k ==> !NameMatch(u.catalog.value[j], input)
    ensures var c := u.catalog.value[k];
      GetPrice(input, u) == Run(PriceOutcome(c, Quote(u, c.id)), [QuoteCall(input), CatalogCall, QuoteCall(c.id)])
  {
    FindFirst(u.catalog.value, ByName(input), k);
  }

  /** No name and no symbol matches: `null`, and no second price request. */
  lemma NoMatch(input: string, u: Upstream)
    requires NoTruthyQuote(input, u) && u.catalog.Ok?
    requires NoNameMatch(input, u.catalog.value)
    requires forall i :: 0 <= i < |u.catalog.value| ==> !SymbolMatch(u.catalog.value[i], input)
    ensures GetPrice(input, u) == Run(NotFound, [QuoteCall(input), CatalogCall])
  {
    FilterNone(u.catalog.value, BySymbol(input));
  }

  /** No name match and a single symbol match: that entry is priced by its id. */
  lemma SingleSymbol(input: string, u: Upstream, k: nat)
    requires NoTruthyQuote(input, u) && u.catalog.Ok?
    requires NoNameMatch(input, u.catalog.value)
    requires k < |u.catalog.value| && SymbolMatch(u.catalog.value[k], input)
    requires forall j :: 0 <= j < |u.catalog.value| && j != k ==> !SymbolMatch(u.catalog.value[j], input)
    ensures var c := u.catalog.value[k];
      GetPrice(input, u) == Run(PriceOutcome(c, Quote(u, c.id)), [QuoteCall(input), CatalogCall, QuoteCall(c.id)])
  {
    FilterSingle(u.catalog.value, BySymbol(input), k);
  }

  /** Two distinct catalog entries match the input by symbol. */
  predicate SymbolTwice(input: string, list: seq<Asset>) {
    exists i, j :: 0 <= i < j < |list| && SymbolMatch(list[i], input) && SymbolMatch(list[j], input)
  }

  /**
   * The input is ambiguous exactly when it misses the fast path, no name
   * matches and at least two entries match by symbol.
   */
  lemma AmbiguousIff(input: string, u: Upstream)
    ensures GetPrice(input, u).outcome.Ambiguous? <==>
      NoTruthyQuote(input, u) && u.catalog.Ok? && NoNameMatch(input, u.catalog.value) && SymbolTwice(input, u.catalog.value)
  {
    if GetPrice(input, u).outcome.Ambiguous? {
      AmbiguousOnlyIf(input, u);
    }
    if NoTruthyQuote(input, u) && u.catalog.Ok? && NoNameMatch(input, u.catalog.value) && SymbolTwice(input, u.catalog.value) {
      var list := u.catalog.value;
      var i, j :| 0 <= i < j < |list| && SymbolMatch(list[i], input) && SymbolMatch(list[j], input);
      FilterTwo(list, BySymbol(input), i, j);
      assert Find(list, ByName(input)).None?;
    }
  }

  lemma AmbiguousOnlyIf(input: string, u: Upstream)
    requires GetPrice(input, u).outcome.Ambiguous?
    ensures NoTruthyQuote(input, u) && u.catalog.Ok? && NoNameMatch(input, u.catalog.value) && SymbolTwice(input, u.catalog.value)
  {
    var list := u.catalog.value;
    assert Find(list, ByName(input)).None?;
    FilterTwoWitness(list, BySymbol(input));
    var i, j :| 0 <= i < j < |list| && BySymbol(input)(list[i]) && BySymbol(input)(list[j]);
    assert SymbolMatch(list[i], input) && SymbolMatch(list[j], input);
  }

  /**
   * An ambiguous outcome lists exactly the symbol matches, in catalog order,
   * at least two of them, and no price is requested for any.
   */
  lemma AmbiguousCandidates(input: string, u: Upstream)
    requires GetPrice(input, u).outcome.Ambiguous?
    ensures u.catalog.Ok?
    ensures var cs := GetPrice(input, u).outcome.cryptos;
      && |cs| >= 2
      && IsSubsequence(cs, u.catalog.value)
      && (forall a :: multiset(cs)[a] == if SymbolMatch(a, input) then multiset(u.catalog.value)[a] else 0)
    ensures GetPrice(input, u).calls == [QuoteCall(input), CatalogCall]
  {
    var list := u.catalog.value;
    var matches := Filter(list, BySymbol(input));
    assert Find(list, ByName(input)).None? && |matches| >= 2;
    assert GetPrice(input, u) == Run(Ambiguous(matches), [QuoteCall(input), CatalogCall]);
    FilterCounts(list, BySymbol(input));
    FilterOrdered(list, BySymbol(input));
  }

  /**
   * Failure: the outcome is an error exactly when the last request failed, every
   * earlier request succeeded, and the error is always the generic one.
   */
  lemma FailureIsLastCall(input: string, u: Upstream)
    ensures var r := GetPrice(input, u);
      && (r.outcome.Error? <==> Fails(u, r.calls[|r.calls| - 1]))
      && (forall i :: 0 <= i < |r.calls| - 1 ==> !Fails(u, r.calls[i]))
      && (r.outcome.Error? ==> r.outcome.message == FetchErrorMessage)
  {
  }

  /** `a` matches the input by name or by symbol and its own quote gives the resolved name and price. */
  predicate MatchedAndPriced(a: Asset, input: string, u: Upstream, o: Outcome)
    requires o.Resolved?
  {
    a.name == o.cryptoName && (NameMatch(a, input) || SymbolMatch(a, input)) && Quote(u, a.id) == Ok(Some(o.price))
  }

  /**
   * A resolved price is the truthy price of the input itself or of a catalog
   * entry that matched the input by name or by symbol, shown under that
   * entry's name.
   */
  lemma ResolvedProvenance(input: string, u: Upstream)
    requires GetPrice(input, u).outcome.Resolved?
    ensures var o := GetPrice(input, u).outcome;
      || (Quote(u, input) == Ok(Some(o.price)) && o.cryptoName == input)
      || (u.catalog.Ok? && exists a :: a in u.catalog.value && MatchedAndPriced(a, input, u, o))
  {
    var o := GetPrice(input, u).outcome;
    if NoTruthyQuote(input, u) {
      var list := u.catalog.value;
      var named := Find(list, ByName(input));
      if named.Some? {
        var k :| 0 <= k < |list| && list[k] == named.value && ByName(input)(list[k]) && forall j :: 0 <= j < k ==> !ByName(input)(list[j]);
        assert list[k] in list;
      } else {
        var matches := Filter(list, BySymbol(input));
        FilterMember(list, BySymbol(input), matches[0]);
      }
    }
  }

  /** Resolution past the fast path depends on the input only through its lower-cased form. */
  lemma CaseInsensitive(a: string, b: string, u: Upstream)
    requires Lower(a) == Lower(b)
    requires NoTruthyQuote(a, u) && NoTruthyQuote(b, u)
    ensures GetPrice(a, u).outcome == GetPrice(b, u).outcome
    ensures GetPrice(a, u).calls[1..] == GetPrice(b, u).calls[1..]
  {
    if u.catalog.Ok? {
      FindExtensional(u.catalog.value, ByName(a), ByName(b));
      FilterExtensional(u.catalog.value, BySymbol(a), BySymbol(b));
    }
    assert SearchCatalog(a, u) == SearchCatalog(b, u);
  }

  /** `/select` on a priced id shows the name of the first catalog entry with that id. */
  lemma SelectFirstById(id: string, u: Upstream, k: nat)
    requires Quote(u, id).Ok? && Truthy(Quote(u, id).value) && u.catalog.Ok?
    requires k < |u.catalog.value| && u.catalog.value[k].id == id
    requires forall j :: 0 <= j < k ==> u.catalog.value[j].id != id
    ensures Select(id, u) == Run(Resolved(Quote(u, id).value.value, u.catalog.value[k].name), [QuoteCall(id), CatalogCall])
    ensures SelectAsWritten(id, u) == Select(id, u)
  {
    FindFirst(u.catalog.value, ById(id), k);
  }

  /**
   * Disambiguation round trip: choosing one of the listed candidates resolves
   * to that candidate's own name whenever it has a truthy price.
   */
  lemma SelectAfterAmbiguous(input: string, u: Upstream, c: Asset)
    requires GetPrice(input, u).outcome.Ambiguous? && c in GetPrice(input, u).outcome.cryptos
    requires u.catalog.Ok? ==> IdsUnique(u.catalog.value)
    requires Quote(u, c.id).Ok? && Truthy(Quote(u, c.id).value)
    ensures Select(c.id, u).outcome == Resolved(Quote(u, c.id).value.value, c.name)
  {
    var list := u.catalog.value;
    FilterMember(list, BySymbol(input), c);
    var k :| 0 <= k < |list| && list[k] == c;
    SelectFirstById(c.id, u, k);
  }

  /**
   * The two versions of `/select` differ only on an id with no truthy price:
   * as written it raises a ReferenceError, as intended it reports no match.
   */
  lemma SelectAbsentPrice(id: string, u: Upstream)
    ensures NoTruthyQuote(id, u) ==>
      SelectAsWritten(id, u).outcome == Error(UndeclaredNameMessage) && Select(id, u).outcome == NotFound
    ensures !NoTruthyQuote(id, u) ==> SelectAsWritten(id, u) == Select(id, u)
  {
  }

  /** `/select` on an id the service does not quote: the ReferenceError, where "nothing matched" was meant. */
  lemma UndeclaredNameExample(u: Upstream)
    requires u == Upstream(map[], Ok([]))
    ensures SelectAsWritten("dogecoin", u) == Run(Error(UndeclaredNameMessage), [QuoteCall("dogecoin")])
    ensures Select("dogecoin", u) == Run(NotFound, [QuoteCall("dogecoin")])
  {
  }

  /** A catalog of two entries, one of them quoted. */
  function SmallCatalog(): Upstream {
    Upstream(map["bitcoin" := Ok(Some(65000))], Ok([Asset("bitcoin", "Bitcoin", "btc"), Asset("ethereum", "Ethereum", "eth")]))
  }

  /** A ticker in upper case resolves by symbol to the quoted entry. */
  lemma TickerExample(u: Upstream, input: string)
    requires u == SmallCatalog() && input == "BTC"
    ensures GetPrice(input, u).outcome == Resolved(65000, "Bitcoin")
  {
    var list := u.catalog.value;
    assert NoTruthyQuote(input, u);
    forall i | 0 <= i < |list| ensures !NameMatch(list[i], input) {
      assert |Lower(list[i].name)| > 3;
    }
    assert Lower("BTC") == "btc";
    assert SymbolMatch(list[0], input);
    forall j | 0 <= j < |list| && j != 0 ensures !SymbolMatch(list[j], input) {
      assert j == 1 && Lower("eth")[0] == 'e';
    }
    SingleSymbol(input, u, 0);
    assert Quote(u, list[0].id) == Ok(Some(65000));
  }

  /** An id with a price takes the fast path under the id itself. */
  lemma IdExample(u: Upstream, input: string)
    requires u == SmallCatalog() && input == "bitcoin"
    ensures GetPrice(input, u) == Run(Resolved(65000, "bitcoin"), [QuoteCall("bitcoin")])
  {
    assert Quote(u, input) == Ok(Some(65000));
  }

  /** An input matching nothing gives `null` after one price request and the catalog. */
  lemma UnknownExample(u: Upstream, input: string)
    requires u == SmallCatalog() && input == "btc-fake"
    ensures GetPrice(input, u) == Run(NotFound, [QuoteCall("btc-fake"), CatalogCall])
  {
    var list := u.catalog.value;
    assert NoTruthyQuote(input, u);
    assert Lower("btc-fake")[0] == 'b';
    forall i | 0 <= i < |list| ensures !NameMatch(list[i], input) && !SymbolMatch(list[i], input) {
      assert |Lower(list[i].symbol)| == 3;
      assert i == 1 ==> Lower(list[i].name)[0] == 'e';
    }
    NoMatch(input, u);
  }

  /** Two entries share a symbol, written in different cases: both are listed, in order. */
  lemma SharedSymbolExample(u: Upstream, input: string, a: Asset, b: Asset)
    requires a == Asset("xyz-one", "Xyz One", "xyz") && b == Asset("xyz-two", "Xyz Two", "XYZ")
    requires u == Upstream(map[], Ok([a, b])) && input == "xyz"
    ensures GetPrice(input, u) == Run(Ambiguous([a, b]), [QuoteCall("xyz"), CatalogCall])
  {
    var list := [a, b];
    assert NoTruthyQuote(input, u);
    assert Lower("XYZ") == "xyz" && Lower("xyz") == "xyz";
    forall i | 0 <= i < |list| ensures !NameMatch(list[i], input) {
      assert |Lower(list[i].name)| > 3;
    }
    assert Find(list, ByName(input)) == None;
    assert Filter(list, BySymbol(input)) == [a, b];
  }
}
