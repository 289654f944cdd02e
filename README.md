# Stock tracker backend: a Dafny model of the GraphQL resolvers

The backend stores one document per stock ticker: the ticker, a list of dated
price points (open, close, high and low prices) and an optional company profile.
Its GraphQL root value has six resolvers over that collection: `stocks`,
`findStock`, `createStock`, `updateCompany`, `updateDates` and `findDates`. This
project models those resolvers and proves what they do.

- `wrappers.dfy` (`Wrappers`): the `Option` type.
- `stocks.dfy` (`Stocks`): the document, date point and company profile types.
  It also holds the reply type (a document, `null`, or a rejection with a
  TypeError or a validation error). `FirstIndex` is the first-match search behind
  both `findOne` and `Array.prototype.findIndex`.
- `date_range.dfy` (`DateRange`): the `for` loop of `findDates` as the method
  `ScanEnd`. It is checked against the predicate `IsRangeEnd`, which says where
  the scan may end. Lemmas prove that this end is unique, that the start point is
  always kept, what the result is on ascending dates, and that later appends do
  not change a result.
- `company.dfy` (`Company`): the `for...in` loop of `updateCompany` that builds
  the `companyData.<key>` paths (`UpdateParams`), and the store's `$set` of those
  paths (`ApplySet`). The lemma `SetOfParamsIsMerge` proves the two together are
  the field-by-field merge `Merge`.
- `resolvers.dfy` (`Resolvers`): the collection as a class whose `docs` field the
  mutations reassign, with one method per resolver.

Parsing a date (`new Date(s).getTime()`) is a parameter
`parse: string -> Option<int>` of `findDates`. `Some(t)` is the instant in
milliseconds and `None` is NaN, an invalid date. NaN is neither equal to nor
before anything, so `SameInstant` and `Before` are false on it. Prices and other
numbers are the abstract type `Float`, because nothing reads them.

Behaviour of the code worth knowing:

- Tickers are not unique. The schema only marks `ticker` as required
  (src/stocks.js:6-9), so creating a duplicate succeeds. `findOne` keeps returning
  the earlier document (`CreatedStockFoundUnlessShadowed`).
- A start date that no point carries is not a clean "not found". `findIndex`
  gives -1, and the loop's first read `data[-1].date` throws a TypeError. A
  missing ticker throws a TypeError too (`result.dates` on `null`). `FindDates`
  returns `Failure(TypeError)` in both cases.
- The start point is always returned, even when its parsed date is after the end
  date or invalid. It is never an empty range.
- Exact matching of the start date compares the strings as written. Only the end
  side compares parsed dates.
- The stopping rule is subtler than "the next point is not before the end date".
  When the start point is itself not before the end date, the scan stops at the
  start point. It stops there even if the next point is before the end date.
  `IsRangeEnd` states the exact rule: either the last kept point is not strictly
  before the end date, or the next point is neither before nor at it.

## Model

| member | source | states |
|---|---|---|
| `Stocks.FirstIndex` | src/index.js:160 | the result is the position of the first element satisfying the predicate, with no earlier element satisfying it; it is `None` exactly when no element does |
| `Stocks.FirstIndexAppend` | src/index.js:146-150 | appending elements keeps an existing first match where it was; with no earlier match, the first match is the first one among the appended elements, shifted by the old length |
| `Stocks.FindStockIndex` | src/index.js:103 | the document `findOne`/`findOneAndUpdate` picks (also lines 136, 150, 155): the first one with the ticker, none earlier having it; `None` exactly when no document has it |
| `Stocks.FindDateIndex` | src/index.js:160 | the first point whose date string equals the start date exactly, none earlier equal; `None` (the source's -1) exactly when no point's date string equals it |
| `DateRange.ComparisonsWithInvalidDate` | src/index.js:164-168 | an invalid date (NaN) is neither equal to nor before any date; equal and before never hold together; two valid dates are ordered one way or are equal |
| `DateRange.ScanEnd` | src/index.js:161-173 | the loop's final `endIndex` satisfies the stopping rule `IsRangeEnd`: start kept, every kept point but the last strictly before the end date, the last, if after the start, at or before it, and the scan stopped at the first point where the rule ends it |
| `DateRange.RangeEndUnique` | src/index.js:162-172 | two end indices that both satisfy the stopping rule are equal, so the rule fixes the result of the scan |
| `DateRange.StartNotBeforeEndIsAlone` | src/index.js:161-171 | a start point whose parsed date is not strictly before the end date (later, equal or invalid) is returned alone; an end date equal to the start date gives one point |
| `DateRange.SortedRangeIsExact` | src/index.js:162-172 | on strictly ascending valid dates, with the start not after the end date, the result holds exactly the points up to and including the last one at or before the end date |
| `DateRange.RangeEndAfterAppend` | src/index.js:162-172 | a scan end that lies inside the dates still satisfies the stopping rule after more points are appended |
| `DateRange.AppendKeepsFoundRange` | src/index.js:160-172 | appending points keeps the first index of the start date and a scan end that lay inside the old dates |
| `Company.Path` | src/index.js:132 | the path built for a field lies inside `companyData.` and its remainder is the field name |
| `Company.FieldOf` | src/index.js:132 | a path inside `companyData.` is the prefix followed by the field name it addresses |
| `Company.UpdateParams` | src/index.js:130-133 | the built `$set` document has one `companyData.<key>` path per supplied field, carrying that field's value, and nothing else |
| `Company.AssignedByUpdate` | src/index.js:132-134 | the fields the built paths assign, with their values, are exactly the supplied fields and values |
| `Company.ApplySet` | src/index.js:134-136 | setting profile paths leaves the ticker and the dates unchanged, and an empty set leaves the document unchanged |
| `Company.Merge` | src/index.js:131-136 | every supplied field takes the supplied value, every other stored field keeps its value, no other field appears, and an empty update leaves the profile (present or missing) as it was |
| `Company.MergeIdempotent` | src/index.js:131-136 | applying the same profile update twice equals applying it once |
| `Company.SetOfParamsIsMerge` | src/index.js:130-136 | setting the paths the loop builds gives the document with its profile merged field by field with the input |
| `Resolvers.Collection.AllStocks` | src/index.js:90-101 | returns every stored document, in store order |
| `Resolvers.Collection.FindStock` | src/index.js:102-111 | never fails; `null` exactly when no document has the ticker, otherwise the first document with it |
| `Resolvers.Collection.CreateStock` | src/index.js:112-126 | a missing input is a TypeError and an empty ticker a validation error, both with no change; otherwise the document with the input's ticker and dates and no profile is appended and returned |
| `Resolvers.Collection.UpdateCompany` | src/index.js:127-145 | with no matching ticker it returns `null` and changes nothing; otherwise only the first matching document changes, its profile becomes the merge, and that document is returned |
| `Resolvers.Collection.UpdateDates` | src/index.js:146-153 | a missing input is a TypeError with no change; with no matching ticker it returns `null` and changes nothing; otherwise the first matching document's dates become the old dates followed by the input points, and nothing else changes |
| `Resolvers.Collection.FindDates` | src/index.js:154-179 | a missing ticker or a start date no point carries is a TypeError; otherwise it returns the first matching document with the same ticker and profile and with dates equal to the slice from the first exact start match to the scan's end |
| `Resolvers.CreatedStockFoundUnlessShadowed` | src/stocks.js:6-9 | after a creation, a lookup of the new ticker finds the new document only when no earlier document has that ticker; otherwise it still finds the earlier one |

`FindDates` has no `modifies` clause, so it cannot change the store. The
mutations' contracts state the whole new `docs` sequence.

## Left out

- The Express app, CORS, the GraphQL schema text and `graphqlHTTP` (src/index.js:1-88, 181-183) are transport wiring with no behaviour to model.
- The Mongo connection, `app.listen` and the connection URL (src/index.js:185-191) are process start-up and I/O.
- `console.log` and the promise plumbing are left out. A rejected promise is the `Failure` reply. Storage driver errors are not modelled.
- The `_id` remapping in `stocks` and the `JSON.parse(JSON.stringify(...))` copy in `createStock` are modelled as identity on the data.
- The `createdAt`/`updatedAt` timestamps the schema option adds are not modelled.
- The JavaScript `Date` parser is a parameter, not a model of `new Date`. Prices and numeric profile fields are the abstract `Float`.
- Null or missing `ticker`, `startDate` and `endDate` arguments are not modelled; they are strings here. `null` elements inside the `updateDates` list are not modelled either.
- A missing `companyInput` is modelled as an empty field map, since `for...in` over it runs no iteration.
- Resolvers.Collection.UpdateCompany: for an empty update, the model leaves the document unchanged and still returns it. Because the schema enables timestamps (src/stocks.js:17-19), the real update is never empty: it also sets `updatedAt`, which is the only thing that changes and is not modelled.
- Profile field names are assumed to be the plain names of the `CompanyInput` type (src/index.js:44-56). A key containing `.` or `$` would make `companyData.<key>` address a nested path or an operator; no schema-valid input has one, and `CompanyData` does not exclude them.
- Resolvers.Collection.CreateStock: only the `required` validator on `ticker` is modelled. No other `save` failure is.
- The in-memory `result.dates = slicedData` on the document `findOne` returned is modelled as a value update of a copy. That copy is never saved.
- Concurrent requests are not modelled. Each resolver is one atomic step on the collection.
