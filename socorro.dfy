/**
 * The shapes of the crash-statistics API's requests and replies, and the
 * services the scripts call but whose code is not modelled: the HTTP API
 * itself and the day-string helpers of datautils.py.
 */
module Socorro {

  /** A SuperSearch parameter value: one string, a list of strings or a number. */
  datatype Param = Str(s: string) | Strs(items: seq<string>) | Int(n: int)

  /** A SuperSearch query: parameter name to value. */
  type Query = map<string, Param>

  /** One term of a facet with its raw (sampled) report count. */
  datatype Bucket = Bucket(term: string, count: int)

  /** One entry of `facets.version`: a version, its count and its sub-facets. */
  datatype VersionFacet = VersionFacet(
    term: string,
    count: int,
    processType: seq<Bucket>,
    pluginHang: seq<Bucket>)

  /**
   * A SuperSearch reply: its `facets.version` list, or `NoFacets` for a reply
   * without `facets`, or `NoVersionFacet` for `facets` without `version`.
   */
  datatype SearchReply = Facets(versions: seq<VersionFacet>) | NoFacets | NoVersionFacet

  datatype AdiQuery = AdiQuery(
    product: string,
    versions: seq<string>,
    startDate: string,
    endDate: string,
    platforms: seq<string>)

  datatype AdiHit = AdiHit(version: string, adiCount: int)

  /** An ADI reply; `AdiMissing` stands for a reply without `hits`. */
  datatype AdiReply = AdiHits(hits: seq<AdiHit>) | AdiMissing

  datatype CpaQuery = CpaQuery(
    product: string,
    versions: seq<string>,
    fromDate: string,
    toDate: string)

  /** One day of one version in a CrashesPerAdu reply. */
  datatype CpaRecord = CpaRecord(version: string, reportCount: int, adu: int)

  /**
   * The `hits` of a CrashesPerAdu reply: for each version key (in the order
   * the dictionary is iterated), its days and records in iteration order.
   */
  type CpaHits = seq<(string, seq<(string, CpaRecord)>)>

  /** A version catalog entry (ProductVersions and CurrentVersions hits). */
  datatype VersionInfo = VersionInfo(
    product: string,
    version: string,
    buildType: string,
    startDate: string,
    endDate: string,
    throttle: real)

  /**
   * The calls the scripts make into code outside the model: the API
   * endpoints, `dayStringBeforeDelta(day, age)` and
   * `dayStringAdd(day, days=1)`.
   */
  datatype Services = Services(
    adi: AdiQuery -> AdiReply,
    superSearch: Query -> SearchReply,
    crashesPerAdu: CpaQuery -> CpaHits,
    dayBefore: (string, string) -> string,
    nextDay: string -> string)

  /** A raw count scaled by a version's sampling correction. */
  function Weighted(count: int, tfactor: real): real
  {
    count as real * tfactor
  }

  lemma WeightedAdd(a: int, b: int, tfactor: real)
    ensures Weighted(a, tfactor) + Weighted(b, tfactor) == Weighted(a + b, tfactor)
  {
    assert (a + b) as real == a as real + b as real;
  }
}
