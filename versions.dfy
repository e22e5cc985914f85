/**
 * Which catalog versions a script works with, and the sampling correction
 * (`tfactor`) of each: the loops that fill `versions` and `verinfo`.
 */
module Versions {
  import opened StrOrder
  import opened Socorro
  import DataUtils

  /** The filter a script applies to the catalog. */
  datatype Eligibility =
      // by-type and category: product and channel match, started after the cutoff
    | StartedAfter(product: string, channel: string, cutoff: string)
      // daily: product matches, ends after the first day of the window
    | EndsAfter(product: string, dayStart: string)

  predicate Eligible(e: VersionInfo, rule: Eligibility)
  {
    match rule
    case StartedAfter(product, channel, cutoff) =>
      e.product == product && e.buildType == channel && Less(cutoff, e.startDate)
    case EndsAfter(product, dayStart) =>
      e.product == product && Less(dayStart, e.endDate)
  }

  /** `100 / throttle`: a throttle is the percentage of reports kept by sampling. */
  function Tfactor(throttle: real): (t: real)
    requires throttle != 0.0
    ensures t * throttle == 100.0
    ensures throttle == 100.0 ==> t == 1.0
  {
    100.0 / throttle
  }

  /** The division in the loop never meets a zero throttle. */
  predicate ThrottlesKnown(catalog: seq<VersionInfo>, rule: Eligibility)
  {
    forall e :: e in catalog && Eligible(e, rule) ==> e.throttle != 0.0
  }

  /**
   * The by-type and category scripts' filter for a day: versions of the
   * product and channel that started after the day minus the channel's
   * overall build age.
   */
  function ChannelWindow(product: string, channel: string, dayBefore: (string, string) -> string, day: string): Eligibility
  {
    StartedAfter(product, channel, dayBefore(day, DataUtils.MaxBuildAge(channel, true)))
  }

  /** No catalog entry of the product and channel has a zero throttle. */
  predicate ChannelThrottled(catalog: seq<VersionInfo>, product: string, channel: string)
  {
    forall e :: e in catalog && e.product == product && e.buildType == channel ==> e.throttle != 0.0
  }

  /** `verinfo` can be filled for every day's window of a throttled channel. */
  lemma ChannelWindowThrottled(catalog: seq<VersionInfo>, product: string, channel: string, dayBefore: (string, string) -> string, day: string)
    requires ChannelThrottled(catalog, product, channel)
    ensures ThrottlesKnown(catalog, ChannelWindow(product, channel, dayBefore, day))
  {
  }

  /** The `versions` list and the `verinfo` tfactors of one resolution. */
  datatype Resolved = Resolved(versions: seq<string>, tfactor: map<string, real>)

  /**
   * The eligible versions in catalog order, each with its tfactor; when a
   * version is listed twice the later entry's tfactor wins, as in a dict.
   */
  function Resolve(catalog: seq<VersionInfo>, rule: Eligibility): (r: Resolved)
    requires ThrottlesKnown(catalog, rule)
    ensures forall v :: v in r.tfactor <==> v in r.versions
    ensures forall v :: v in r.versions <==> exists e :: e in catalog && Eligible(e, rule) && e.version == v
    ensures forall v :: v in r.tfactor ==> r.tfactor[v] != 0.0
    ensures |r.versions| <= |catalog|
    decreases |catalog|
  {
    if catalog == [] then Resolved([], map[])
    else
      var init := catalog[..|catalog| - 1];
      var e := catalog[|catalog| - 1];
      assert catalog == init + [e];
      var r := Resolve(init, rule);
      if Eligible(e, rule) then
        Resolved(r.versions + [e.version], r.tfactor[e.version := Tfactor(e.throttle)])
      else r
  }

  /** The tfactor kept for a version is that of its last eligible entry. */
  lemma {:induction false} ResolveLastWins(catalog: seq<VersionInfo>, rule: Eligibility, i: nat)
    requires ThrottlesKnown(catalog, rule)
    requires i < |catalog| && Eligible(catalog[i], rule)
    requires forall j :: i < j < |catalog| && Eligible(catalog[j], rule) ==> catalog[j].version != catalog[i].version
    ensures catalog[i].version in Resolve(catalog, rule).tfactor
    ensures Resolve(catalog, rule).tfactor[catalog[i].version] == Tfactor(catalog[i].throttle)
    decreases |catalog|
  {
    var init := catalog[..|catalog| - 1];
    assert catalog == init + [catalog[|catalog| - 1]];
    if i < |catalog| - 1 {
      ResolveLastWins(init, rule, i);
    }
  }

  /** The loop over the catalog that appends to `versions` and fills `verinfo`. */
  method ResolveVersions(catalog: seq<VersionInfo>, rule: Eligibility)
    returns (versions: seq<string>, tfactor: map<string, real>)
    requires ThrottlesKnown(catalog, rule)
    ensures Resolved(versions, tfactor) == Resolve(catalog, rule)
  {
    versions, tfactor := [], map[];
    for i := 0 to |catalog|
      invariant Resolved(versions, tfactor) == Resolve(catalog[..i], rule)
    {
      var e := catalog[i];
      assert catalog[..i + 1] == catalog[..i] + [e];
      if Eligible(e, rule) {
        versions := versions + [e.version];
        tfactor := tfactor[e.version := Tfactor(e.throttle)];
      }
    }
    assert catalog[..|catalog|] == catalog;
  }
}
