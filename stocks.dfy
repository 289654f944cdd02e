/** The stock document and the values the resolvers exchange with their callers.
    A document holds a ticker, its dated price points and an optional company
    profile; the store keeps them in insertion order. */
module Stocks {
  import opened Wrappers

  /** A JavaScript number the resolvers only copy (prices, market capitalisation). */
  type Float(==)

  /** One value of the company profile: a string field, a numeric field, or an
      explicit `null` supplied by the caller. */
  datatype FieldValue = Text(s: string) | Number(n: Float) | Null

  /** The company profile: an open object from field name to value. */
  type CompanyData = map<string, FieldValue>

  datatype StockDate = StockDate(
    date: string,
    openPrice: Float,
    closePrice: Float,
    highPrice: Float,
    lowPrice: Float)

  datatype Stock = Stock(
    ticker: string,
    dates: seq<StockDate>,
    companyData: Option<CompanyData>)

  /** The creation input; its `companyData` is accepted by the schema but never stored. */
  datatype StockInput = StockInput(
    ticker: string,
    dates: seq<StockDate>,
    companyData: Option<CompanyData>)

  /** Why a resolver's promise is rejected: a JavaScript TypeError (a property read
      on `null`/`undefined`, a spread of `null`) or a Mongoose validation failure. */
  datatype ErrorKind = TypeError | ValidationError

  /** What a resolver hands back: a document, `null`, or a rejection. */
  datatype Reply = Doc(stock: Stock) | NoDoc | Failure(error: ErrorKind)

  /** The position of the first element satisfying `p` (`findOne` on the
      collection, `Array.prototype.findIndex` on a dates array). */
  function FirstIndex<T>(s: seq<T>, p: T -> bool): (r: Option<nat>)
    ensures r.Some? ==> r.value < |s| && p(s[r.value])
    ensures r.Some? ==> forall j :: 0 <= j < r.value ==> !p(s[j])
    ensures r.None? <==> forall j :: 0 <= j < |s| ==> !p(s[j])
  {
    if |s| == 0 then None
    else if p(s[0]) then Some(0)
    else match FirstIndex(s[1..], p)
      case None => None
      case Some(k) => Some(k + 1)
  }

  /** Appending elements never moves an existing first match; without one, the
      first match is looked for among the appended elements. */
  lemma {:induction false} FirstIndexAppend<T>(s: seq<T>, x: seq<T>, p: T -> bool)
    ensures FirstIndex(s, p).Some? ==> FirstIndex(s + x, p) == FirstIndex(s, p)
    ensures FirstIndex(s, p).None? && FirstIndex(x, p).Some? ==>
              FirstIndex(s + x, p) == Some(|s| + FirstIndex(x, p).value)
    ensures FirstIndex(s, p).None? && FirstIndex(x, p).None? ==> FirstIndex(s + x, p).None?
  {
    var r, rx, rs := FirstIndex(s + x, p), FirstIndex(x, p), FirstIndex(s, p);
    if rs.Some? {
      assert (s + x)[rs.value] == s[rs.value];
      assert forall j :: 0 <= j < rs.value ==> (s + x)[j] == s[j];
    } else if rx.Some? {
      assert (s + x)[|s| + rx.value] == x[rx.value];
      assert forall j :: 0 <= j < |s| ==> (s + x)[j] == s[j];
      assert forall j :: |s| <= j < |s| + rx.value ==> (s + x)[j] == x[j - |s|];
    } else {
      assert forall j :: 0 <= j < |s + x| ==> (s + x)[j] == if j < |s| then s[j] else x[j - |s|];
    }
  }

  predicate HasTicker(ticker: string, d: Stock) { d.ticker == ticker }

  predicate HasDate(date: string, p: StockDate) { p.date == date }

  /** The document `findOne({ ticker })` returns: the first one with that ticker. */
  function FindStockIndex(docs: seq<Stock>, ticker: string): (r: Option<nat>)
    ensures r.Some? ==> r.value < |docs| && docs[r.value].ticker == ticker
    ensures r.Some? ==> forall j :: 0 <= j < r.value ==> docs[j].ticker != ticker
    ensures r.None? <==> forall j :: 0 <= j < |docs| ==> docs[j].ticker != ticker
  {
    FirstIndex(docs, d => HasTicker(ticker, d))
  }

  /** `data.findIndex(element => element.date === startDate)`: plain string equality. */
  function FindDateIndex(data: seq<StockDate>, date: string): (r: Option<nat>)
    ensures r.Some? ==> r.value < |data| && data[r.value].date == date
    ensures r.Some? ==> forall j :: 0 <= j < r.value ==> data[j].date != date
    ensures r.None? <==> forall j :: 0 <= j < |data| ==> data[j].date != date
  {
    FirstIndex(data, p => HasDate(date, p))
  }
}
