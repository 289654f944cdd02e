/** The resolvers of the GraphQL root value over the stock collection. The
    collection is the object the mutations change in place; the queries only read
    it. `findOne` and `findOneAndUpdate` act on the first document, in insertion
    order, whose ticker matches. */
module Resolvers {
  import opened Wrappers
  import opened Stocks
  import DateRange
  import Company

  class Collection {
    /** The stored documents, in insertion order. */
    var docs: seq<Stock>

    constructor (initial: seq<Stock>)
      ensures docs == initial
    {
      docs := initial;
    }

    /** `stocks`: every stored document. */
    method AllStocks() returns (r: seq<Stock>)
      ensures r == docs
    {
      r := docs;
    }

    /** `findStock`: the first document with the ticker, or `null`. */
    method FindStock(ticker: string) returns (r: Reply)
      ensures !r.Failure?
      ensures r == NoDoc <==> forall j :: 0 <= j < |docs| ==> docs[j].ticker != ticker
      ensures r.Doc? ==> r.stock.ticker == ticker && FindStockIndex(docs, ticker).Some?
                         && r.stock == docs[FindStockIndex(docs, ticker).value]
    {
      var found := FindStockIndex(docs, ticker);
      if found.None? {
        r := NoDoc;
      } else {
        r := Doc(docs[found.value]);
      }
    }

    /** `createStock`: stores a new document holding the input's ticker and dates.
        The input's company profile is not stored, a missing input is a TypeError
        and an empty ticker fails the schema's `required` validator. Tickers are
        not unique: a document with an existing ticker is stored as well. */
    method CreateStock(input: Option<StockInput>) returns (r: Reply)
      modifies this
      ensures input.None? ==> r == Failure(TypeError) && docs == old(docs)
      ensures input.Some? && input.value.ticker == "" ==> r == Failure(ValidationError) && docs == old(docs)
      ensures input.Some? && input.value.ticker != "" ==>
                var created := Stock(input.value.ticker, input.value.dates, None);
                r == Doc(created) && docs == old(docs) + [created]
    {
      if input.None? {
        r := Failure(TypeError);
        return;
      }
      var stock := Stock(input.value.ticker, input.value.dates, None);
      if stock.ticker == "" {
        r := Failure(ValidationError);
        return;
      }
      docs := docs + [stock];
      r := Doc(stock);
    }

    /** `updateCompany`: merges the supplied profile fields into the first
        document with the ticker and returns the updated document, or `null` and
        no change when no document has the ticker. */
    method UpdateCompany(ticker: string, input: CompanyData) returns (r: Reply)
      modifies this
      ensures match FindStockIndex(old(docs), ticker)
        case None => r == NoDoc && docs == old(docs)
        case Some(i) =>
          var updated := old(docs)[i].(companyData := Company.Merge(old(docs)[i].companyData, input));
          r == Doc(updated) && docs == old(docs)[i := updated]
    {
      var params := Company.UpdateParams(input);
      var found := FindStockIndex(docs, ticker);
      if found.None? {
        r := NoDoc;
        return;
      }
      var i := found.value;
      Company.SetOfParamsIsMerge(docs[i], input, params);
      var updated := Company.ApplySet(docs[i], params);
      docs := docs[i := updated];
      r := Doc(updated);
    }

    /** `updateDates`: appends the input points, in order and without removing
        duplicates, to the dates of the first document with the ticker. Spreading
        a missing input is a TypeError raised before the store is queried. */
    method UpdateDates(ticker: string, input: Option<seq<StockDate>>) returns (r: Reply)
      modifies this
      ensures input.None? ==> r == Failure(TypeError) && docs == old(docs)
      ensures input.Some? ==>
        match FindStockIndex(old(docs), ticker)
        case None => r == NoDoc && docs == old(docs)
        case Some(i) =>
          var updated := old(docs)[i].(dates := old(docs)[i].dates + input.value);
          r == Doc(updated) && docs == old(docs)[i := updated]
    {
      if input.None? {
        r := Failure(TypeError);
        return;
      }
      var found := FindStockIndex(docs, ticker);
      if found.None? {
        r := NoDoc;
        return;
      }
      var i := found.value;
      var updated := docs[i].(dates := docs[i].dates + input.value);
      docs := docs[i := updated];
      r := Doc(updated);
    }

    /** `findDates`: the first document with the ticker, with its dates narrowed to
        the scanned range. A missing document (`result.dates` on `null`) and a start
        date no point carries (`data[-1].date`) are TypeErrors. The stored document
        is left as it was. */
    method FindDates(ticker: string, startDate: string, endDate: string, parse: string -> Option<int>)
      returns (r: Reply)
      ensures match FindStockIndex(docs, ticker)
        case None => r == Failure(TypeError)
        case Some(i) =>
          match FindDateIndex(docs[i].dates, startDate)
          case None => r == Failure(TypeError)
          case Some(s) =>
            && r.Doc?
            && r.stock.ticker == docs[i].ticker
            && r.stock.companyData == docs[i].companyData
            && DateRange.IsRangeEnd(docs[i].dates, s, s + |r.stock.dates|, parse(endDate), parse)
            && r.stock.dates == docs[i].dates[s..s + |r.stock.dates|]
    {
      var found := FindStockIndex(docs, ticker);
      if found.None? {
        r := Failure(TypeError);
        return;
      }
      var result := docs[found.value];
      var data := result.dates;
      var endTime := parse(endDate);
      var startIndex: int := match FindDateIndex(data, startDate)
        case Some(s) => s
        case None => -1;
      if startIndex == -1 {
        r := Failure(TypeError);
        return;
      }
      var endIndex := DateRange.ScanEnd(data, startIndex, endTime, parse);
      var slicedData := data[startIndex..endIndex];
      result := result.(dates := slicedData);
      r := Doc(result);
    }
  }

  /** Because tickers are not unique, a created document is what `findOne` finds
      for its ticker only when no earlier document has that ticker; otherwise the
      earlier document keeps being found. */
  lemma CreatedStockFoundUnlessShadowed(docs: seq<Stock>, created: Stock)
    ensures FindStockIndex(docs, created.ticker).Some? ==>
              FindStockIndex(docs + [created], created.ticker) == FindStockIndex(docs, created.ticker)
    ensures FindStockIndex(docs, created.ticker).None? ==>
              FindStockIndex(docs + [created], created.ticker) == Some(|docs|)
  {
    FirstIndexAppend(docs, [created], d => HasTicker(created.ticker, d));
  }
}
