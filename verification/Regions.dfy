/**
 Comparison regions and the residency lock (apps/web/src/region-normalization.ts, and
 normalizedRegionPreference in apps/web/src/workload.ts).
 */
module Regions {
  import opened Wrappers
  import opened Text

  datatype RegionGroup = RegionGroup(id: string, aws: string, azure: string, gcp: string)

  const COMPARISON_REGION_GROUPS: seq<RegionGroup> := [
    RegionGroup("us-east", "us-east-1", "eastus", "us-east1"),
    RegionGroup("us-central", "us-east-2", "centralus", "us-central1"),
    RegionGroup("us-west", "us-west-2", "westus2", "us-west1"),
    RegionGroup("eu-west", "eu-west-1", "westeurope", "europe-west1"),
    RegionGroup("eu-central", "eu-central-1", "germanywestcentral", "europe-west3"),
    RegionGroup("ap-south", "ap-south-1", "centralindia", "asia-south1"),
    RegionGroup("ap-southeast", "ap-southeast-1", "southeastasia", "asia-southeast1"),
    RegionGroup("uk", "eu-west-2", "uksouth", "europe-west2"),
    RegionGroup("canada", "ca-central-1", "canadacentral", "northamerica-northeast1")
  ]

  function FindById(groups: seq<RegionGroup>, text: string): (r: Option<string>)
    ensures r.Some? ==> r.value == text
    ensures r.Some? <==> exists i :: 0 <= i < |groups| && groups[i].id == text
  {
    if groups == [] then None
    else if groups[0].id == text then Some(text)
    else
      var rest := FindById(groups[1..], text);
      assert forall i :: 0 < i < |groups| ==> groups[i] == groups[1..][i - 1];
      rest
  }

  predicate HasProviderRegion(group: RegionGroup, text: string) {
    group.aws == text || group.azure == text || group.gcp == text
  }

  function FindByProviderRegion(groups: seq<RegionGroup>, text: string): (r: Option<string>)
    ensures r.Some? ==>
              exists i :: 0 <= i < |groups| && groups[i].id == r.value && HasProviderRegion(groups[i], text)
    ensures r.None? ==> forall i :: 0 <= i < |groups| ==> !HasProviderRegion(groups[i], text)
  {
    if groups == [] then None
    else if HasProviderRegion(groups[0], text) then Some(groups[0].id)
    else
      var rest := FindByProviderRegion(groups[1..], text);
      assert forall i :: 0 < i < |groups| ==> groups[i] == groups[1..][i - 1];
      rest
  }

  /** The group id a typed region stands for, if any. */
  function CanonicalRegion(regionPreference: string): Option<string> {
    var normalized := ToLower(Trim(regionPreference));
    if normalized == "" then None
    else
      var direct := FindById(COMPARISON_REGION_GROUPS, normalized);
      if direct.Some? then direct else FindByProviderRegion(COMPARISON_REGION_GROUPS, normalized)
  }

  datatype Scope = US | EU | UK | APAC | Canada

  function OnlyLetters(s: string): string {
    if s == "" then ""
    else (if 'a' <= s[0] <= 'z' then [s[0]] else "") + OnlyLetters(s[1..])
  }

  function NormalizedResidencyScope(scope: string): Option<Scope> {
    var s := OnlyLetters(ToLower(Trim(scope)));
    if s == "" || s == "global" || s == "anywhere" then None
    else if s == "us" || s == "usa" || s == "unitedstates" || s == "america" then Some(US)
    else if s == "eu" || s == "europe" || s == "europeanunion" || s == "eea" || s == "gdpr" then Some(EU)
    else if s == "uk" || s == "gb" || s == "greatbritain" || s == "unitedkingdom" then Some(UK)
    else if s == "apac" || s == "asia" || s == "asiapacific" then Some(APAC)
    else if s == "canada" || s == "ca" then Some(Canada)
    else None
  }

  function RegionsOfScope(scope: Scope): (r: seq<string>)
    ensures r != []
  {
    match scope
    case US => ["us-east", "us-central", "us-west"]
    case EU => ["eu-west", "eu-central"]
    case UK => ["uk"]
    case APAC => ["ap-south", "ap-southeast"]
    case Canada => ["canada"]
  }

  function CanonicalRegionsForResidencyScope(scope: string): (r: Option<seq<string>>)
    ensures r.Some? <==> NormalizedResidencyScope(scope).Some?
    ensures r.Some? ==> r.value != []
  {
    match NormalizedResidencyScope(scope)
    case Some(known) => Some(RegionsOfScope(known))
    case None => None
  }

  predicate IsRegionPreferenceAllowed(regionPreference: string, scope: string) {
    match CanonicalRegionsForResidencyScope(scope)
    case None => true
    case Some(allowed) =>
      var canonical := CanonicalRegion(regionPreference);
      canonical.Some? && canonical.value in allowed
  }

  function RegionPreferenceForResidencyLock(regionPreference: string, scope: string): Option<string> {
    match CanonicalRegionsForResidencyScope(scope)
    case None => None
    case Some(allowed) =>
      if IsRegionPreferenceAllowed(regionPreference, scope) then
        var canonical := CanonicalRegion(regionPreference);
        Some(if canonical.Some? then canonical.value else regionPreference)
      else Some(allowed[0])
  }

  datatype Region = Region(preference: Option<string>, isDefault: bool)

  function NormalizedRegionPreference(regionPreference: string, dataResidency: string, complianceLocked: bool): Region {
    var trimmed := Trim(regionPreference);
    var locked := if complianceLocked then RegionPreferenceForResidencyLock(trimmed, dataResidency) else None;
    var canonical := CanonicalRegion(if locked.Some? then locked.value else trimmed);
    var preference := if canonical.Some? then canonical.value else trimmed;
    if preference == "" then Region(None, true) else Region(Some(preference), false)
  }

  // ---- Group ids are their own canonical form ------------------------------------------

  predicate IsGroupId(text: string) {
    exists i :: 0 <= i < |COMPARISON_REGION_GROUPS| && COMPARISON_REGION_GROUPS[i].id == text
  }

  /** Nothing to trim or to lower. */
  predicate IsPlain(text: string) {
    text != "" && IsTrimmed(text) && forall i :: 0 <= i < |text| ==> !('A' <= text[i] <= 'Z')
  }

  lemma GroupIdsArePlain(text: string)
    requires IsGroupId(text)
    ensures IsPlain(text)
  {
  }

  /** A typed region stands for a group exactly when it is, up to case and white space, the id or a provider's region
      of some group; and it then stands for such a group. */
  lemma CanonicalNamesItsGroup(regionPreference: string)
    ensures var text := ToLower(Trim(regionPreference));
            var groups := COMPARISON_REGION_GROUPS;
            match CanonicalRegion(regionPreference)
            case Some(id) =>
              exists i :: 0 <= i < |groups| && groups[i].id == id && (id == text || HasProviderRegion(groups[i], text))
            case None =>
              || text == ""
              || forall i :: 0 <= i < |groups| ==> groups[i].id != text && !HasProviderRegion(groups[i], text)
  {
    hide ToLower, Trim, FindById, FindByProviderRegion, HasProviderRegion;
  }

  /** A canonical region is a group id, and canonicalising it again gives it back. */
  lemma CanonicalIsStable(regionPreference: string)
    requires CanonicalRegion(regionPreference).Some?
    ensures IsGroupId(CanonicalRegion(regionPreference).value)
    ensures CanonicalRegion(CanonicalRegion(regionPreference).value) == CanonicalRegion(regionPreference)
  {
    GroupIdIsCanonical(CanonicalRegion(regionPreference).value);
  }

  lemma GroupIdIsCanonical(id: string)
    requires IsGroupId(id)
    ensures CanonicalRegion(id) == Some(id)
  {
    GroupIdsArePlain(id);
    TrimOfTrimmed(id);
    assert ToLower(id) == id;
  }

  lemma CanonicalIgnoresTrim(regionPreference: string)
    ensures CanonicalRegion(Trim(regionPreference)) == CanonicalRegion(regionPreference)
  {
    TrimIsIdempotent(regionPreference);
  }

  lemma ScopeIgnoresTrim(scope: string)
    ensures NormalizedResidencyScope(Trim(scope)) == NormalizedResidencyScope(scope)
  {
    TrimIsIdempotent(scope);
  }

  lemma ScopeRegionsAreGroups(scope: Scope)
    ensures forall id :: id in RegionsOfScope(scope) ==> IsGroupId(id)
  {
    var g := COMPARISON_REGION_GROUPS;
    assert g[0].id == "us-east" && g[1].id == "us-central" && g[2].id == "us-west";
    assert g[3].id == "eu-west" && g[4].id == "eu-central" && g[7].id == "uk" && g[8].id == "canada";
    assert g[5].id == "ap-south" && g[6].id == "ap-southeast";
  }

  /** Under a known scope a locked form lands inside the allowed regions, and a region that was already allowed keeps
      its group; an unknown scope locks nothing. */
  lemma LockIsSafe(regionPreference: string, dataResidency: string)
    ensures var region := NormalizedRegionPreference(regionPreference, dataResidency, true);
            match NormalizedResidencyScope(dataResidency)
            case Some(scope) =>
              && region.preference.Some?
              && region.preference.value in RegionsOfScope(scope)
              && (IsRegionPreferenceAllowed(regionPreference, dataResidency) ==>
                    region.preference == CanonicalRegion(regionPreference))
              && (!IsRegionPreferenceAllowed(regionPreference, dataResidency) ==>
                    region.preference == Some(RegionsOfScope(scope)[0]))
            case None => region == NormalizedRegionPreference(regionPreference, dataResidency, false)
  {
    CanonicalIgnoresTrim(regionPreference);
    if NormalizedResidencyScope(dataResidency).Some? {
      var scope := NormalizedResidencyScope(dataResidency).value;
      var locked := RegionPreferenceForResidencyLock(Trim(regionPreference), dataResidency).value;
      ScopeRegionsAreGroups(scope);
      assert locked in RegionsOfScope(scope);
      GroupIdIsCanonical(locked);
      GroupIdsArePlain(locked);
    }
  }

  /** Where the providers say the group lies. */
  predicate LiesIn(group: RegionGroup, scope: Scope) {
    match scope
    case US => "us-" <= group.aws
    case Canada => "ca-" <= group.aws
    case APAC => "ap-" <= group.aws
    case UK => "uk" <= group.azure
    case EU => "eu-" <= group.aws && !("uk" <= group.azure)
  }

  lemma StartsWith(prefix: string, text: string)
    requires |prefix| <= 3 && |prefix| <= |text|
    ensures prefix <= text <==>
            && (|prefix| > 0 ==> text[0] == prefix[0])
            && (|prefix| > 1 ==> text[1] == prefix[1])
            && (|prefix| > 2 ==> text[2] == prefix[2])
  {
  }

  /** The regions allowed under a scope are exactly the groups that lie in it. */
  lemma ScopeIsItsRegions(scope: Scope, i: nat)
    requires i < |COMPARISON_REGION_GROUPS|
    ensures COMPARISON_REGION_GROUPS[i].id in RegionsOfScope(scope) <==> LiesIn(COMPARISON_REGION_GROUPS[i], scope)
  {
    var group := COMPARISON_REGION_GROUPS[i];
    StartsWith("us-", group.aws);
    StartsWith("ca-", group.aws);
    StartsWith("ap-", group.aws);
    StartsWith("eu-", group.aws);
    StartsWith("uk", group.azure);
    match scope {
      case US =>
      case EU =>
      case UK =>
      case APAC =>
      case Canada =>
    }
  }

  /** What the form shows after reading a region back. */
  function RegionText(region: Region): string {
    if region.preference.Some? then region.preference.value else ""
  }

  /** Normalising a normalised region changes nothing, locked or not, whatever the scope. */
  lemma NormalizationIsStable(regionPreference: string, dataResidency: string, complianceLocked: bool)
    ensures var region := NormalizedRegionPreference(regionPreference, dataResidency, complianceLocked);
            NormalizedRegionPreference(RegionText(region), dataResidency, complianceLocked) == region
  {
    var region := NormalizedRegionPreference(regionPreference, dataResidency, complianceLocked);
    var text := RegionText(region);
    if complianceLocked && NormalizedResidencyScope(dataResidency).Some? {
      LockIsSafe(regionPreference, dataResidency);
      ScopeRegionsAreGroups(NormalizedResidencyScope(dataResidency).value);
      GroupIdIsCanonical(text);
      LockIsSafe(text, dataResidency);
    } else {
      CanonicalIgnoresTrim(regionPreference);
      TrimTrims(regionPreference);
      if CanonicalRegion(regionPreference).Some? {
        CanonicalIsStable(regionPreference);
        CanonicalIgnoresTrim(text);
        GroupIdsArePlain(text);
      } else {
        TrimOfTrimmed(Trim(regionPreference));
      }
    }
  }
}
