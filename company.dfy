/** The company-profile update of the `updateCompany` resolver. The resolver turns
    every supplied field `key` into the document path `companyData.<key>` and asks
    the store to `$set` those paths; the effect is a field-by-field merge into the
    stored profile. */
module Company {
  import opened Wrappers
  import opened Stocks

  const Prefix: string := "companyData."

  /** The document path that addresses profile field `key`. */
  function Path(key: string): (p: string)
    ensures IsCompanyPath(p) && p[|Prefix|..] == key
  {
    Prefix + key
  }

  /** The paths inside the embedded profile object. */
  predicate IsCompanyPath(p: string)
  {
    |Prefix| <= |p| && p[..|Prefix|] == Prefix
  }

  /** The profile field a path inside the profile addresses. */
  function FieldOf(p: string): (key: string)
    requires IsCompanyPath(p)
    ensures Prefix + key == p
  {
    p[|Prefix|..]
  }

  /** `params` is the `$set` document for `input`: one path per supplied field,
      carrying that field's value, and nothing else. */
  predicate IsUpdateFor(params: map<string, FieldValue>, input: CompanyData)
  {
    && (forall k :: k in input ==> Path(k) in params && params[Path(k)] == input[k])
    && (forall p :: p in params ==> IsCompanyPath(p) && FieldOf(p) in input && params[p] == input[FieldOf(p)])
  }

  /** The `for...in` loop over the supplied fields that fills `updateParams`. */
  method UpdateParams(input: CompanyData) returns (params: map<string, FieldValue>)
    ensures IsUpdateFor(params, input)
  {
    params := map[];
    var pending := input.Keys;
    while pending != {}
      invariant pending <= input.Keys
      invariant forall k :: k in input && k !in pending ==> Path(k) in params && params[Path(k)] == input[k]
      invariant forall p :: p in params ==> IsCompanyPath(p) && FieldOf(p) in input && FieldOf(p) !in pending && params[p] == input[FieldOf(p)]
      decreases pending
    {
      var key :| key in pending;
      params := params[Path(key) := input[key]];
      pending := pending - {key};
    }
  }

  /** The stored profile, with a missing one read as an empty object. */
  function Profile(company: Option<CompanyData>): CompanyData
  {
    if company.Some? then company.value else map[]
  }

  /** The profile fields a `$set` document assigns, with their values. */
  function Assigned(params: map<string, FieldValue>): CompanyData
    requires forall p :: p in params ==> IsCompanyPath(p)
  {
    map p | p in params :: FieldOf(p) := params[p]
  }

  /** The paths the loop builds assign exactly the supplied fields and values. */
  lemma AssignedByUpdate(params: map<string, FieldValue>, input: CompanyData)
    requires IsUpdateFor(params, input)
    ensures Assigned(params) == input
  {
  }

  /** The store's `$set` of profile paths on one document: each path's field takes
      the path's value (creating the profile object if it is missing) and the rest
      of the document stays as it was. An empty `$set` leaves the document alone. */
  function ApplySet(doc: Stock, params: map<string, FieldValue>): (r: Stock)
    requires forall p :: p in params ==> IsCompanyPath(p)
    ensures r.ticker == doc.ticker && r.dates == doc.dates
    ensures params == map[] ==> r == doc
  {
    if params == map[] then doc
    else doc.(companyData := Some(Profile(doc.companyData) + Assigned(params)))
  }

  /** The field-by-field merge a profile update stands for. */
  function Merge(company: Option<CompanyData>, input: CompanyData): (r: Option<CompanyData>)
    ensures input == map[] ==> r == company
    ensures input != map[] ==> r.Some? && r.value.Keys == Profile(company).Keys + input.Keys
    ensures forall k :: k in input ==> r.Some? && k in r.value && r.value[k] == input[k]
    ensures forall k :: k in Profile(company) && k !in input ==> r.Some? && k in r.value && r.value[k] == Profile(company)[k]
  {
    if input == map[] then company else Some(Profile(company) + input)
  }

  /** Applying the same profile update twice has the effect of applying it once. */
  lemma MergeIdempotent(company: Option<CompanyData>, input: CompanyData)
    ensures Merge(Merge(company, input), input) == Merge(company, input)
  {
    if input != map[] {
      var once := Merge(company, input).value;
      var twice := Merge(Merge(company, input), input).value;
      assert twice.Keys == once.Keys;
      assert forall k :: k in once ==> twice[k] == once[k];
      assert twice == once;
    }
  }

  /** Setting the paths the loop builds is exactly the field-by-field merge of the
      supplied fields into the document's profile. */
  lemma SetOfParamsIsMerge(doc: Stock, input: CompanyData, params: map<string, FieldValue>)
    requires IsUpdateFor(params, input)
    ensures ApplySet(doc, params) == doc.(companyData := Merge(doc.companyData, input))
  {
    AssignedByUpdate(params, input);
    if params == map[] {
      assert input == Assigned(params);
    }
  }
}
