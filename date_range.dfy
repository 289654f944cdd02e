/** The range scan of the `findDates` resolver. Starting at the point whose date
    string equals the start date, the scan keeps every point whose parsed date is
    strictly before the end date, keeps a point whose parsed date equals the end
    date and stops after it, and stops before anything else. The start point is
    always kept.

    Date parsing (`new Date(s).getTime()`) is the parameter `parse`: `Some(t)` is
    the instant in milliseconds and `None` an invalid date (NaN), for which both
    `==` and `<` are false. */
module DateRange {
  import opened Wrappers
  import opened Stocks

  /** `date.getTime() == endDate.getTime()` */
  predicate SameInstant(a: Option<int>, b: Option<int>) {
    a.Some? && b.Some? && a.value == b.value
  }

  /** `date < endDate` */
  predicate Before(a: Option<int>, b: Option<int>) {
    a.Some? && b.Some? && a.value < b.value
  }

  /** An invalid date is neither equal to nor before any date, and no two dates
      are both equal and ordered. */
  lemma ComparisonsWithInvalidDate(a: Option<int>, b: Option<int>)
    ensures a.None? || b.None? ==> !SameInstant(a, b) && !Before(a, b)
    ensures !(SameInstant(a, b) && Before(a, b))
    ensures a.Some? && b.Some? ==> Before(a, b) || SameInstant(a, b) || Before(b, a)
  {
  }

  /** `e` is where the scan that starts at `s` ends (exclusive): the start point is
      kept, every kept point before the last one is strictly before the end date,
      the last kept point after the start is before or at the end date, and the
      scan did stop there: either the last kept point is not strictly before the
      end date, or the next point is neither before nor at it. */
  predicate IsRangeEnd(data: seq<StockDate>, s: nat, e: nat, endTime: Option<int>, parse: string -> Option<int>)
  {
    && s < e <= |data|
    && (forall j :: s <= j < e - 1 ==> Before(parse(data[j].date), endTime))
    && (s < e - 1 ==> Before(parse(data[e - 1].date), endTime) || SameInstant(parse(data[e - 1].date), endTime))
    && (e < |data| ==>
          || !Before(parse(data[e - 1].date), endTime)
          || (!Before(parse(data[e].date), endTime) && !SameInstant(parse(data[e].date), endTime)))
  }

  /** The `for` loop of `findDates`, from the found start index to its `endIndex`. */
  method ScanEnd(data: seq<StockDate>, startIndex: nat, endTime: Option<int>, parse: string -> Option<int>)
    returns (endIndex: nat)
    requires startIndex < |data|
    ensures IsRangeEnd(data, startIndex, endIndex, endTime, parse)
  {
    endIndex := startIndex + 1;
    var i := startIndex;
    while i < |data|
      invariant startIndex <= i <= |data|
      invariant endIndex == if i == startIndex then startIndex + 1 else i
      invariant forall j :: startIndex <= j < i ==> Before(parse(data[j].date), endTime)
    {
      var date := parse(data[i].date);
      if SameInstant(date, endTime) {
        endIndex := i + 1;
        break;
      }
      if Before(date, endTime) {
        endIndex := i + 1;
      } else {
        break;
      }
      i := i + 1;
    }
  }

  /** The stopping rule determines the end index: the scan has one result. */
  lemma RangeEndUnique(data: seq<StockDate>, s: nat, e1: nat, e2: nat, endTime: Option<int>, parse: string -> Option<int>)
    requires IsRangeEnd(data, s, e1, endTime, parse)
    requires IsRangeEnd(data, s, e2, endTime, parse)
    ensures e1 == e2
  {
  }

  /** A start point that is not strictly before the end date (later, equal or
      invalid) is returned alone; in particular an end date equal to the start
      date gives exactly one point. */
  lemma StartNotBeforeEndIsAlone(data: seq<StockDate>, s: nat, e: nat, startDate: string, endTime: Option<int>, parse: string -> Option<int>)
    requires IsRangeEnd(data, s, e, endTime, parse)
    requires data[s].date == startDate
    requires !Before(parse(startDate), endTime)
    ensures e == s + 1
  {
  }

  /** Every point has a valid date and the dates strictly increase. */
  predicate Ascending(data: seq<StockDate>, parse: string -> Option<int>)
  {
    && (forall j :: 0 <= j < |data| ==> parse(data[j].date).Some?)
    && (forall i, j :: 0 <= i < j < |data| ==> parse(data[i].date).value < parse(data[j].date).value)
  }

  /** On strictly ascending valid dates, with the start point not after the end
      date, the scan returns exactly the points from the start up to and including
      the last one at or before the end date. */
  lemma SortedRangeIsExact(data: seq<StockDate>, s: nat, e: nat, endTime: int, parse: string -> Option<int>)
    requires Ascending(data, parse)
    requires IsRangeEnd(data, s, e, Some(endTime), parse)
    requires parse(data[s].date).value <= endTime
    ensures forall j :: s <= j < e ==> parse(data[j].date).value <= endTime
    ensures forall j :: e <= j < |data| ==> parse(data[j].date).value > endTime
  {
  }

  /** Points appended after the end of a scan that stopped inside the sequence do
      not change where the scan stops. */
  lemma RangeEndAfterAppend(data: seq<StockDate>, more: seq<StockDate>, s: nat, e: nat, endTime: Option<int>, parse: string -> Option<int>)
    requires IsRangeEnd(data, s, e, endTime, parse)
    requires e < |data|
    ensures IsRangeEnd(data + more, s, e, endTime, parse)
  {
  }

  /** Dates appended by `updateDates` leave alone a `findDates` range that found
      its start date and stopped before the last stored point. */
  lemma AppendKeepsFoundRange(data: seq<StockDate>, more: seq<StockDate>, startDate: string, s: nat, e: nat,
                              endTime: Option<int>, parse: string -> Option<int>)
    requires FindDateIndex(data, startDate) == Some(s)
    requires IsRangeEnd(data, s, e, endTime, parse)
    requires e < |data|
    ensures FindDateIndex(data + more, startDate) == Some(s)
    ensures IsRangeEnd(data + more, s, e, endTime, parse)
  {
    FirstIndexAppend(data, more, p => HasDate(startDate, p));
    RangeEndAfterAppend(data, more, s, e, endTime, parse);
  }
}
