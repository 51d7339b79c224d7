/** A row of the `business_profiles` table, as the matcher and the reservation page read it. */
module Catalog {
  import opened Wrappers

  /**
   * `services` is the profile's services object: its (key, description) entries in the
   * order `Object.keys` lists them, or `None` when the column is null, as it is for a
   * profile created at registration with only its user and company name.
   */
  datatype BusinessProfile = BusinessProfile(
    id: string, companyName: string, services: Option<seq<(string, string)>>)

  /** `Object.keys(profile.services)`; on a null `services` it throws instead. */
  function ServiceKeys(p: BusinessProfile): (keys: seq<string>)
    requires p.services.Some?
    ensures |keys| == |p.services.value|
  {
    seq(|p.services.value|, i requires 0 <= i < |p.services.value| => p.services.value[i].0)
  }
}
