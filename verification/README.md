# PolyCost: verification model

PolyCost compares the cost of a workload across clouds. A user fills in a form of about 150 fields (or has it filled
in from a description or a diagram), the web app compiles the form into a cloud-neutral spec (NWS), and the API prices
the spec. This project models four parts of it in Dafny and proves what they promise.

**1. The form and its spec** (`apps/web/src/workload.ts`, `service-catalog.ts`, `region-normalization.ts`).
`Fields` is the table of the 105 numeric fields: how each is validated, how it is written into a section, how it is
recorded in the `scaleParams` of service requirements, and what the form shows when nothing was written. `Workload`
has the form, the spec, `buildNwsFromForm` and `formFromNws`. `Validity` says when a form is valid, `IssueReport`
what the validator must report and in which order, and `Validator` is the validator with its growing list of issues.
`FamilyDerivation` has the lists that derive service families. `TripNumbers`, `TripFamilies` and `NormalForm` prove what
one trip form - spec - form keeps, and `SettledForm` what a second one still changes. `BuiltSpec` says what the spec of a
form contains, `SpecReading` what becomes of any spec, a parsed one as well, that is read into the form and built again,
and `ApiSchema` has the API's schema of specs (`apps/api/src/nws/nws.types.ts`). `Text`, `TextLists`, `Regions`,
`Catalog`, `ServiceCatalog` and `TraceReading` hold the parsers, printers and lookups underneath.

**2. The protocols of the page** (`apps/web/src/App.tsx`). `AsyncActions`: the counter that lets only the latest
asynchronous action have an effect; `CompareRuns`: what becomes of a compare and of the history over a whole run;
`Deliveries`: what every click starts and its answer brings, and what Clear and Restore leave.
`LiveSignature`, `LiveRecompute` and `LiveRuns`: the debounced recompute, on top of it. `DiagramReview`: removing,
classifying and adding services of a parsed diagram; `DiagramParse`: the result it starts from. `History`: the bounded
comparison history. A handler runs to its next `await` in one step, and a render is one step with its effects.

**3. Money** (`money.ts`, both `cost-time.ts`). `Money` and `CostTime`: dollars as exact `real`s, micro-dollars as
`int`s, thrown range errors as `RangeError`.

**4. The break-even timeline** (`App.tsx`). `BreakEven`.

## What the proofs found

- *The spec is a normal form only under conditions.* `NormalForm.SpecIsNormalForm` gives the exact condition: a
  non-blank name, at least one framework, at least one tag, and `ComputeChoiceHolds`. The last fails for a custom tier
  unless the first requirement names it, and for a burstable family that only a bulk row asks for unless the tier is
  small. `NormalForm.TwoTripsSettle`: after two trips the sections of every valid form have settled.
  `NormalForm.BareFormChanges` is a valid form that changes.
- *The form settles too, after one trip or after two.* The first trip settles all of it but the tier and the
  architecture, and these exactly under `SettledForm.OneTripIsEnough`, a condition on the form
  (`SettledForm.FormSettlesAtOnce`); the second trip settles every valid form (`SettledForm.FormSettles`).
  `SettledForm.OneTripIsNotEnough`: a bulk row can make a form show the custom tier after one trip and the balanced one
  after two.
- *The required families come back exactly when there are any* (`TripFamilies.FamiliesAreStable`). A form that
  requires nothing comes back with the seven default families.
- *What the form lets through the API accepts*, exactly if the lists of frameworks and tags are within the API's limits
  and no whole number is beyond 2^53 - 1 (`ApiSchema.ValidFormIsAccepted`, and over runs `Deliveries.SentIsAccepted`).
  The form checks neither: `ApiSchema.LongFrameworkIsRefused`, `ApiSchema.HugeUsersAreRefused`. Number by number, the
  two validators agree but for these whole numbers, which only the form accepts, and for retention over ten years and
  scale limits of zero, which only the API accepts (`ApiSchema.RulesAgree`).
- *A parsed spec survives the form*, number by number (`SpecReading.NumberIsKept`) and service by service
  (`SpecReading.ServicesAreKept`). The quantity of a service that is not a machine does not
  (`SpecReading.QuantitiesAreForgotten`).
- *A skipped live edit can be lost.* The comment at apps/web/src/App.tsx:1426-1427 says the next tick picks the edit
  up; the effect runs only when something it depends on changes. Until then the edit waits
  (`LiveRecompute.SkippedEditWaits`). The first such change sets a timer exactly if it lands in live mode, and otherwise
  drops the edit (`LiveRecompute.SkippedEditIsDecided`), for as long as the signature does not move again
  (`LiveRecompute.DroppedEditStaysDropped`). Switching the input mode away and back is enough
  (`LiveRecompute.LeavingDropsTheEdit`). From every mounted page with a valid form this happens with one letter typed and
  the prices refreshed within the pause (`LiveRuns.EditCanBeLost`).
- *A live compare submits the form its timer was set with.* That is the form on screen exactly when the two are still
  the same (`LiveRecompute.SubmitsTheScreen`, `LiveRuns.SubmitsTheFormAtArming`); a change of other fields in between is
  not submitted (`LiveRuns.OtherEditsAreNotSubmitted`).
- *The headline signature tells forms apart exactly when no headline field contains `|`*
  (`LiveSignature.SignatureTellsApart`).
- *The debounce alone keeps to a limit of live comparisons a minute exactly if the limit is 100 or more*
  (`LiveRuns.DebounceKeepsTo`). The limit of 30 that apps/web/src/App.tsx:1395-1398 gives as its reason is not kept:
  comparisons can be started and delivered 600 ms apart (`LiveRuns.ComparisonsCanBeThatClose`).
- *`roundUsd` is not always the nearest amount.* It rounds to micro-dollars first, and that changes the result exactly
  when it lifts the amount onto a tie (`Money.DoubleRoundingShows`): 0.0149995 becomes 0.02 (`Money.HalfACentMore`).
- *A percentage of 0 does not mean equal amounts*: a change of less than 0.0000495 percent shows as 0
  (`Money.PercentChangeIsZero`, `Money.TinyChangeIsNone`).
- *Removing a diagram service can cost another one its trace*, exactly when both share a source reference
  (`DiagramReview.TracesKeepFollowing`). References are made from ids by replacing characters and cutting, so ids such
  as "a b" and "a_b" share one (`DiagramParse.ReferencesCollide`, `DiagramParse.SharedReferenceLosesTrace`); and an added service needs an id not
  used before (`DiagramReview.AddNeedsFreshId`, `DiagramParse.SameMillisecondTwice`).

## Model

| member | source | states |
|---|---|---|
| IssueReport.PlacesDiffer | apps/web/src/workload.ts:770-1462 | every check has its own place in the order of checks |
| IssueReport.ReportIsUnique | apps/web/src/workload.ts:770-1462 | a form has one report only: what is wrong with it fixes the issues and their order |
| IssueReport.NoIssuesMeansValid | apps/web/src/workload.ts:770-1462 | the report is empty exactly for the valid forms |
| Validator.NothingFailsWhenOff | apps/web/src/workload.ts:794-1446 | a section that is switched off has no failing checks |
| Validator.ValidateWorkloadForm | apps/web/src/workload.ts:770-1462 | the pushed list is the report of the form: exactly what is wrong with it, each once, in the order of the checks; and it is empty exactly for valid forms |
| Validator.IssueLog.RequirePositiveNumber | apps/web/src/workload.ts:3213-3224 | makes the next check: pushes an issue for a missing or non-positive number, nothing otherwise |
| Validator.IssueLog.RequirePositiveInteger | apps/web/src/workload.ts:3226-3237 | makes the next check: a positive whole number is required |
| Validator.IssueLog.OptionalPositiveNumberField | apps/web/src/workload.ts:3239-3256 | makes the next check: blank or a positive number |
| Validator.IssueLog.OptionalNonNegativeNumberField | apps/web/src/workload.ts:3258-3275 | makes the next check: blank or a number from 0 |
| Validator.IssueLog.OptionalNonNegativeIntegerField | apps/web/src/workload.ts:3277-3294 | makes the next check: blank or a whole number from 0 |
| Validator.IssueLog.RequireBoundedNumber | apps/web/src/workload.ts:3296-3309 | makes the next check: a number inside the bounds |
| Validator.IssueLog.RequireBoundedInteger | apps/web/src/workload.ts:3311-3324 | makes the next check: a whole number inside the bounds |
| Validator.IssueLog.CheckScaleOrder | apps/web/src/workload.ts:808-825 | makes the next check of the scale range: reports well-formed limits in the wrong order |
| Validator.IssueLog.CheckBulkRows | apps/web/src/workload.ts:1447-1459 | makes the next check of the bulk rows: one issue at the first bad row, if any |
| Fields.RuleMeansAsTyped | apps/web/src/workload.ts:3103-3324 | each rule accepts exactly the texts that its writer writes as typed, whatever the fallback, and the blank where the field is optional |
| Fields.ValidIsFaithful | apps/web/src/workload.ts:3103-3175 | a text that passes a rule suited to its shape is written as typed, and left out only when blank or zero |
| Fields.RowsFit | apps/web/src/workload.ts:1469-1608 | for every field: its rule suits its shape, and neither its recorded number nor its default revives a number that was left out |
| Fields.ValidatedIsFaithful | apps/web/src/workload.ts:770-1462 | for every field that is written, validation makes rounding and fallback unreachable |
| Fields.ScaledIsFaithful | apps/web/src/workload.ts:2765-2877 | a valid text is recorded in `scaleParams` as typed, and what is recorded passes the field's rule |
| Fields.RowsAreRestorable | apps/web/src/workload.ts:1614-2034 | for every field: the text shown when nothing was written is valid, or the field's rule lets through nothing that is left out |
| Fields.RowsAreWritten | apps/web/src/workload.ts:1464-1612 | for every field: where that text would not be valid, the field is written whenever it is checked |
| TripNumbers.ValidSpecIsFaithful | apps/web/src/workload.ts:1464-1612 | in the spec of a valid form, every number of every section is the number typed |
| TripNumbers.ValidNumbersAreFaithful | apps/web/src/workload.ts:1464-1612 | ... and a number typed but not written is zero |
| TripNumbers.ValidRange | apps/web/src/workload.ts:1480-1487 | a valid autoscaling form writes the range it was given, with 0 < min <= max |
| TripNumbers.RangeIsValidExactly | apps/web/src/workload.ts:794-825 | the three checks of an autoscaling range pass exactly for two whole limits above zero, in order |
| TripNumbers.BuiltNumber | apps/web/src/workload.ts:1464-1612 | each section holds a number exactly where its section is on and the field's gate and shape allow it |
| TripNumbers.RecordedNumber | apps/web/src/workload.ts:2386-2550 | the reader finds a recorded number exactly when one of the families it looks at is required |
| TripNumbers.NumberAfterTrip | apps/web/src/workload.ts:1614-2034 | for every form and numeric field: the text shown after one trip, from the section, the `scaleParams` or the default |
| TripNumbers.SearchHoursAreRecorded | apps/web/src/workload.ts:1765-1769 | with search nodes, the search hours are recorded, so 0 hours survive although the default is 730 |
| TripNumbers.NumberIsStable | apps/web/src/workload.ts:1464-1612 | for every valid form, every number of every section that is on is the same after a trip |
| TripNumbers.ValidityIsKept | apps/web/src/workload.ts:770-1462 | a valid form is valid after a trip |
| TripFamilies.RequirementsOf | apps/web/src/workload.ts:2036-2155 | the requirements of the spec are those of the required families, in catalogue order |
| TripFamilies.SelectionAfterTrip | apps/web/src/workload.ts:2007-2022 | the selection after a trip is the required families, or the default selection when there are none |
| TripFamilies.DrivenAfterTrip | apps/web/src/workload.ts:2189-2342 | no default and no rounding makes a driver positive: a family driven after the trip was driven before |
| TripFamilies.DriversComeBack | apps/web/src/workload.ts:2386-2550 | in a valid form, every positive driver comes back from the `scaleParams` as the number typed |
| TripFamilies.DrivenIsStable | apps/web/src/workload.ts:2189-2342 | in a valid form, the same families are driven after a trip as before |
| TripFamilies.RequiredAfterTrip | apps/web/src/workload.ts:2157-2174 | a family is required after the trip exactly when it was required before |
| TripFamilies.FamiliesAreStable | apps/web/src/workload.ts:2157-2174 | the ordered required families are a fixed point of the trip exactly when there are any |
| NormalForm.WorkloadIsStable | apps/web/src/workload.ts:1499-1511 | the workload section is the same after a trip exactly when the workload has a name |
| NormalForm.StorageIsStable | apps/web/src/workload.ts:1513-1523 | the storage section is the same after a trip |
| NormalForm.DatabaseIsStable | apps/web/src/workload.ts:1524-1534 | the database section is the same after a trip |
| NormalForm.NetworkAndAvailabilityAreStable | apps/web/src/workload.ts:1535-1577 | the network and availability sections are the same after a trip |
| NormalForm.ProfileIsStable | apps/web/src/workload.ts:1578-1608 | the profile is the same after a trip exactly when a framework and a tag can be read in the form |
| NormalForm.TierAfterTrip | apps/web/src/workload.ts:2012-2015 | the tier shown after a trip: that of the instance family written, else that of the first requirement, else balanced |
| NormalForm.ComputeIsStable | apps/web/src/workload.ts:1469-1490 | the compute section is the same after a trip exactly when the compute choice holds |
| NormalForm.ChoiceWithoutBulkRows | apps/web/src/workload.ts:2909-2931 | without bulk rows the choice holds exactly when burstable is selected, or the tier is not custom, or the first required family is a VM or an autoscaling fleet |
| NormalForm.SpecIsNormalForm | apps/web/src/workload.ts:1464-1612 | building, reading back and building again gives the same sections exactly under the four conditions above |
| NormalForm.TwoTripsSettle | apps/web/src/workload.ts:1614-2034 | after two trips the sections of any valid form no longer change |
| SettledForm.TextsSettle | apps/web/src/workload.ts:1614-2034 | for every form, valid or not, a second trip changes nothing but numbers, tier, architecture and selection |
| SettledForm.DefaultsAreRequired | apps/web/src/workload.ts:2007-2022 | a form that requires nothing comes back requiring exactly the default selection |
| SettledForm.FamiliesSettle | apps/web/src/workload.ts:2157-2174 | from the first trip on a valid form requires the same families, and some |
| SettledForm.ScaledAgain | apps/web/src/workload.ts:2765-2877 | a number recorded in `scaleParams` is recorded as the same number again, even in a section that validation skips |
| SettledForm.NumberSettles | apps/web/src/workload.ts:1614-2034 | from the first trip on every number a valid form shows stays, those of sections that are off included |
| SettledForm.TierSettles | apps/web/src/workload.ts:2012-2015 | a second trip changes neither tier nor architecture exactly under a condition on the form as it was typed |
| SettledForm.FormSettlesAtOnce | apps/web/src/workload.ts:1614-2034 | a valid form is the same, field by field, after one trip and after two exactly under that condition |
| SettledForm.FormSettles | apps/web/src/workload.ts:1614-2034 | every valid form is the same, field by field, after two trips and after three |
| SettledForm.OneTripIsNotEnough | apps/web/src/workload.ts:2012-2015 | a valid form whose tier is custom after one trip and balanced after two |
| NormalForm.BareFormChanges | apps/web/src/workload.ts:1627-1658 | a valid form that comes back with other families and other sections |
| BuiltSpec.SectionsAreDemanded | apps/web/src/workload.ts:2157-2174 | every storage and database section, switch and traced family of a spec has its requirement |
| BuiltSpec.EveryDemandHasAReason | apps/web/src/workload.ts:2157-2174 | ... and no requirement is there without a trace, a selection, a section, a switch or a positive usage |
| BuiltSpec.EveryUsageIsRecorded | apps/web/src/workload.ts:2189-2550 | in a valid form every positive number that no section holds and whose default is 0 is recorded by some requirement, and comes back, as typed |
| BuiltSpec.BulkRowMeansAsTyped | apps/web/src/workload.ts:1447-1459 | a bulk row that names a family is valid exactly if its quantity is written as typed |
| BuiltSpec.BulkQuantityIsTyped | apps/web/src/workload.ts:2370-2372 | in a valid form the last bulk row of a family gives the quantity of its requirement, as typed |
| BuiltSpec.MachinesAreTyped | apps/web/src/workload.ts:2580-2596 | without bulk rows, a compute family gets as many machines as were typed |
| BuiltSpec.LabelsReadAsTexts | apps/web/src/workload.ts:2645-2675 | the tier that a requirement's label reads back as is the one its text reads back as |
| BuiltSpec.TiersAgree | apps/web/src/workload.ts:2645-2675 | a requirement without a bulk row is of the tier that its section says |
| BuiltSpec.ComputeIsSized | apps/web/src/workload.ts:1469-1490 | the compute section of a valid form is sized, and has a range exactly when it scales |
| BuiltSpec.UsageFitsPattern | apps/web/src/workload.ts:1588-1606 | hours and days are written exactly for a schedule, the utilization exactly for bursts |
| BuiltSpec.NumbersComeTogether | apps/web/src/workload.ts:1538-1543 | in a valid form the hit ratio is written exactly beside its traffic, and retention beside what is retained |
| ApiSchema.RulesAgree | apps/api/src/nws/nws.types.ts:52-278 | for every field and number: the form's rule accepts it and it is not a whole number beyond the schema's largest exactly if the API's schema allows it and it is none of the two cases in which the form asks for more |
| ApiSchema.ValidFormIsAccepted | apps/api/src/nws/nws.types.ts:52-311 | the API accepts the spec of a valid form exactly if its frameworks and tags are within the limits and its whole numbers and bulk quantities are at most 2^53 - 1 |
| ApiSchema.LongFrameworkIsRefused | apps/api/src/nws/nws.types.ts:141 | every valid form stays valid and is refused with one framework of more than 200 characters |
| ApiSchema.HugeUsersAreRefused | apps/api/src/nws/nws.types.ts:233-238 | every valid form stays valid and is refused with 2^53 daily users |
| SpecReading.ToleranceIsPromised | apps/web/src/workload.ts:2026-2032 | for every spec: a fault tolerance left out is shown as one that survives the loss of a zone exactly if multiAz or multiRegion is set, and of a region exactly if multiRegion is; one that is there is shown as it is |
| SpecReading.LeftOutIsDefault | apps/web/src/workload.ts:1614-1780 | for every spec: each part left out is shown as in the default form |
| SpecReading.MissingNumberIsDefault | apps/web/src/workload.ts:1636-2006 | for every spec: a number that neither section nor requirement gives is shown as in the default form, or not at all where nothing is filled in |
| SpecReading.DefaultFormIsSound | apps/web/src/workload.ts:311-456 | the default form is valid, the API accepts its spec, that is a normal form, and its fault tolerance is what its flags promise |
| SpecReading.DefaultFormRequires | apps/web/src/workload.ts:311-456 | the default form requires exactly the default families |
| SpecReading.WorkloadIsKept | apps/web/src/workload.ts:1499-1577 | for every spec: kind, flags and fault tolerance are kept by reading and building, and the texts without the white space around them |
| SpecReading.ProfileIsKept | apps/web/src/workload.ts:1578-1608 | for every spec: each part of its profile is kept, frameworks and tags when they have the shape that a text can carry |
| SpecReading.FirstEntriesAreKept | apps/web/src/workload.ts:1615-1617 | for every spec: the first compute, storage and database entry is kept |
| SpecReading.AllowedIsWritten | apps/api/src/nws/nws.types.ts:52-278 | the form writes what the schema allows as it is, but for zeros that it leaves out |
| SpecReading.NumberIsKept | apps/web/src/workload.ts:1614-2034 | for every accepted spec: each number is kept, unless it is zero or its gate is closed |
| SpecReading.ServicesAreKept | apps/web/src/workload.ts:2007-2022 | for every spec: each family required, or else traced, or else default, is required again |
| SpecReading.PrimaryIsSelected | apps/web/src/workload.ts:2007-2022 | for every spec: the primary service shown is the first catalogue one that the spec requires, and selected; without requirements it is the first of those selected |
| SpecReading.QuantitiesAreForgotten | apps/web/src/workload.ts:2580-2596 | for every spec: a requirement that is not for machines comes back with quantity 1 |
| FamilyDerivation.SupportingServiceFamilyIds | apps/web/src/workload.ts:2189-2235 | the list built is the driven supporting families in the order of the source |
| FamilyDerivation.RuntimeServiceFamilyIds | apps/web/src/workload.ts:2237-2263 | ... the driven runtime families |
| FamilyDerivation.AnalyticsServiceFamilyIds | apps/web/src/workload.ts:2265-2292 | ... the driven analytics families |
| FamilyDerivation.AiServiceFamilyIds | apps/web/src/workload.ts:2294-2320 | ... the driven AI families |
| FamilyDerivation.IntegrationServiceFamilyIds | apps/web/src/workload.ts:2322-2342 | ... the driven integration families |
| FamilyDerivation.BulkFamiliesAreListed | apps/web/src/workload.ts:2161-2187 | a family is listed once for each bulk row that asks for it, and no other is |
| FamilyDerivation.OrderedRequirementIdsOf | apps/web/src/workload.ts:2157-2174 | the union of all the lists, ordered, is the list of required families; no family has drivers outside the five lists |
| Text.TrimTakesSpace | apps/web/src/workload.ts:3083-3097 | trimming takes white space off both ends, and nothing else |
| TextLists.ParseListShape | apps/web/src/workload.ts:3181-3188 | whatever is typed, the items read are non-empty, trimmed and free of commas |
| TextLists.ListRoundTrip | apps/web/src/workload.ts:1638-1640 | a list survives printing and parsing exactly when all its items have that shape |
| TextLists.ParseTagsShape | apps/web/src/workload.ts:3190-3211 | whatever is typed, every tag read has a non-empty trimmed key without comma or colon and a non-empty trimmed value without comma |
| TextLists.TagsRoundTrip | apps/web/src/workload.ts:1656-1658 | tags survive printing and parsing exactly when all of them have that shape |
| Regions.CanonicalIsStable | apps/web/src/region-normalization.ts:95-113 | a canonical region is a group id and its own canonical form |
| Regions.CanonicalNamesItsGroup | apps/web/src/region-normalization.ts:95-113 | a typed region stands for a group exactly when it is the id or a provider's region of some group, up to case and white space, and then for such a group |
| Regions.LockIsSafe | apps/web/src/region-normalization.ts:126-171 | a locked form of a known scope gets an allowed region: its own group if that is allowed, else the scope's first; an unrecognised scope locks nothing |
| Regions.ScopeIsItsRegions | apps/web/src/region-normalization.ts:9-141 | the regions allowed under a scope are exactly the groups whose provider regions lie in it |
| Regions.NormalizationIsStable | apps/web/src/workload.ts:3083-3101 | normalising a normalised region changes nothing, locked or not, whatever the scope |
| Catalog.OrderedMembers | apps/web/src/service-catalog.ts:320-326 | ordering keeps exactly the wanted families |
| Catalog.OrderedIncreases | apps/web/src/service-catalog.ts:320-326 | ordered families come in catalogue order, none twice |
| ServiceCatalog.OrderedIds | apps/web/src/service-catalog.ts:320-326 | an id is in the ordered list exactly when it is in the list and in the catalogue |
| ServiceCatalog.OrderedIdsAreDistinct | apps/web/src/service-catalog.ts:320-326 | no id comes twice |
| ServiceCatalog.OrderedIdsDependOnSet | apps/web/src/service-catalog.ts:320-326 | only which catalogue ids occur matters, not how often, in which order or among which others |
| ServiceCatalog.OrderedIdsIdempotent | apps/web/src/service-catalog.ts:320-326 | ordering an ordered list changes nothing |
| ServiceCatalog.TraceabilityRoundTrip | apps/web/src/service-catalog.ts:328-348 | reading the trace of a list, unrelated entries in between, gives its ordered form, or the default selection when that is empty |
| TraceReading.ReadersAgree | apps/web/src/workload.ts:2007-2022 | reading the texts of a trace names the families that the form's reader takes |
| TraceReading.TraceReachesTheForm | apps/web/src/service-catalog.ts:328-348 | families written into a spec as texts come back to the form in catalogue order, unrelated entries in between, or as the default selection when there are none |
| AsyncActions.InvariantIsKept | apps/web/src/App.tsx:1485-1496 | every event keeps: ids in flight up to the counter, a compare in flight was started on a valid form, busy exactly while the current action is in flight and naming its kind, applied ids strictly increasing |
| AsyncActions.EveryRunIsOrderly | apps/web/src/App.tsx:717-1011 | ... in every run, on every interleaving |
| AsyncActions.OnlyActiveActs | apps/web/src/App.tsx:802-889 | only the current action changes the screen or busy, and a result applied is the current one's |
| AsyncActions.WhoChangesWhat | apps/web/src/App.tsx:730-972 | apart from Clear, Restore and the user: only a parse changes the form, only a compare or refresh the comparison, which carries its action's id, and only a compare the history, each as the current action |
| CompareRuns.ActionCarriesOn | apps/web/src/App.tsx:717-1011 | in every run that does not supersede it, an action moves with its own answers only, and is applied exactly when they bring it to its result |
| CompareRuns.ActionFails | apps/web/src/App.tsx:745-1011 | an action that fails, at whichever await and after any run that did not supersede it, has applied nothing; the failure sets the error and frees the page, and changes nothing else on the screen |
| CompareRuns.CompareCarriesOn | apps/web/src/App.tsx:802-889 | in every such run after the click, a compare carries the form and spec seen at the click from await to await, and the page is busy comparing exactly while it waits |
| CompareRuns.CompareDelivers | apps/web/src/App.tsx:802-889 | in every such run, the third answer puts the comparison on screen under the compare's id, submitted as the form seen, at the head of the history, and frees the page |
| CompareRuns.ReviewedIsCompared | apps/web/src/App.tsx:898-915 | a compare in diagram mode sends the requirements of exactly the services under review, after any review, and their traces when no two nodes share a source reference |
| Deliveries.ClickStartsExactly | apps/web/src/App.tsx:717-987 | a click starts an action exactly if its input is there; otherwise only error, notice and issue mark can change |
| Deliveries.RefusalIsTold | apps/web/src/App.tsx:802-827 | a refused compare says why, and marks the form when it has issues |
| Deliveries.ParseDelivers | apps/web/src/App.tsx:717-755 | in every run that does not supersede it, a parse reads the spec that comes into the form and shows it for review in form mode, without issues, changes nothing else, and frees the page |
| Deliveries.DiagramParseDelivers | apps/web/src/App.tsx:757-800 | ... a diagram parse too, in diagram mode with the diagram |
| Deliveries.RefreshDelivers | apps/web/src/App.tsx:943-975 | ... a refresh shows the new comparison under its id and leaves form, submission and history |
| Deliveries.ExportDelivers | apps/web/src/App.tsx:977-1011 | ... an export changes the notice only |
| Deliveries.SentIsAccepted | apps/web/src/App.tsx:891-930 | in every run, the spec of the form that a compare in flight sends is accepted by the API exactly if the form is within the limits above |
| Deliveries.ClearForgets | apps/web/src/App.tsx:1322-1348 | after Clear two pages with the same history look the same: the home form, nothing to refresh, nothing running |
| Deliveries.RestoreForgets | apps/web/src/App.tsx:1350-1375 | after Restore too, with the entry's form, which can be compared again exactly if it is valid |
| CompareRuns.HistoryIsStored | apps/web/src/App.tsx:864-876 | the history after a run is what is stored of the comparisons delivered in it |
| CompareRuns.HistoryListsLatest | apps/web/src/App.tsx:864-876 | ... so it lists the latest eight of them, most recent first, each id once |
| AsyncActions.LatestWins | apps/web/src/App.tsx:717-1011 | any overlapping run behaves like a machine that can wait for one action only, on the run without late answers |
| AsyncActions.AbandonedActionsAreSilent | apps/web/src/App.tsx:1322-1375 | after Clear or Restore, however earlier actions end, the screen stays as it is |
| AsyncActions.AbandonedForGood | apps/web/src/App.tsx:1322-1375 | ... and also after any further events: an action in flight at Clear or Restore can only end |
| AsyncActions.App.StartAsyncAction | apps/web/src/App.tsx:1485-1488 | a new id, one above the counter |
| AsyncActions.App.CancelAsyncActions | apps/web/src/App.tsx:1490-1492 | the counter moves on without an action |
| AsyncActions.App.ParseText | apps/web/src/App.tsx:717-727 | blank text is refused; otherwise a parse becomes the current action |
| AsyncActions.App.ParseDiagram | apps/web/src/App.tsx:757-766 | a blank diagram is refused; otherwise a parse becomes the current action |
| AsyncActions.App.Submit | apps/web/src/App.tsx:802-829 | dispatches to a parse, refuses a form that the validator finds invalid, or starts a compare with the form seen |
| AsyncActions.App.RefreshLive | apps/web/src/App.tsx:943-951 | starts a refresh when a comparison is on screen |
| AsyncActions.App.ExportReport | apps/web/src/App.tsx:977-987 | starts an export when a comparison is on screen |
| AsyncActions.App.Continue | apps/web/src/App.tsx:831-888 | what follows each `await`: the id check, the next call or the result, the catch and the finally |
| AsyncActions.App.ClearComparison | apps/web/src/App.tsx:1322-1348 | cancels and resets the screen |
| AsyncActions.App.RestoreComparisonHistory | apps/web/src/App.tsx:1350-1375 | cancels and shows the restored entry |
| LiveSignature.SignatureTellsApart | apps/web/src/App.tsx:3657-3666 | the signature of some headline fields is that of no others exactly when none of them contains a bar |
| LiveSignature.SignatureIsNotEmpty | apps/web/src/App.tsx:3657-3666 | no form has the signature '' |
| LiveRecompute.LiveInvariantIsKept | apps/web/src/App.tsx:1400-1441 | every event keeps: no timer is set or exactly the one the pending cleanup will clear; a set timer means live mode and carries the signature on screen, which is not the remembered one; without a timer the remembered signature is that on screen or '' |
| LiveRecompute.EveryLiveRunIsSafe | apps/web/src/App.tsx:1400-1441 | ... in every timed run |
| LiveRecompute.FiresAreSpaced | apps/web/src/App.tsx:1423-1435 | in every timed run, the i-th and the j-th fire are at least (j - i) times 600 ms apart |
| LiveRecompute.LiveCompareIsSafe | apps/web/src/App.tsx:1400-1441 | a live compare starts only with a comparison, in form mode, not editing, with nothing in flight and on a valid form, and submits a form with the signature on screen; with an action in flight the fire only empties the remembered signature |
| LiveRecompute.SubmitsTheScreen | apps/web/src/App.tsx:1423-1437 | the form submitted is that on screen exactly when the timer's form still is; without a bar on screen the headline fields agree and only the rest decides |
| LiveRecompute.SkippedEditWaits | apps/web/src/App.tsx:1423-1437 | in every run that changes nothing the effect depends on, a skipped edit keeps waiting |
| LiveRecompute.SkippedEditIsDecided | apps/web/src/App.tsx:1403-1437 | after any such run, the first change of something it depends on sets a timer exactly if it lands in live mode; otherwise the signature on screen is remembered and the edit dropped |
| LiveRecompute.DroppedEditStaysDropped | apps/web/src/App.tsx:1403-1437 | a dropped edit sets no timer in any run that does not move the signature again |
| LiveRecompute.LeavingDropsTheEdit | apps/web/src/App.tsx:1414-1421 | leaving form mode and coming back drops a skipped edit with the screen as it was |
| LiveRuns.TimerSeesTheScreen | apps/web/src/App.tsx:1423-1435 | an event that sets a timer sets one, with the screen as the event leaves it |
| LiveRuns.SubmitsTheFormAtArming | apps/web/src/App.tsx:1423-1437 | over every run from the event that sets a timer to the timer's fire, the form submitted is the form as that event left it; so it is the one on screen exactly when that is the same, and whenever no event in between changed the form |
| LiveRuns.OtherEditsAreNotSubmitted | apps/web/src/App.tsx:1423-1437 | a change of anything but the headline fields while the timer is set is on screen but not in the form submitted |
| LiveRuns.StartsAreSpaced | apps/web/src/App.tsx:1423-1435 | in every timed run, the i-th and the j-th comparison started live are at least (j - i) times 600 ms apart |
| LiveRuns.ComparisonsCanBeThatClose | apps/web/src/App.tsx:1395-1398 | for every n, a ready page has a run in which n comparisons are started live, the k-th at 600 k ms, and each of them is applied |
| LiveRuns.ReadyIsReached | apps/web/src/App.tsx:802-889 | a mounted page with a valid form is ready after its first comparison, at time 0 and with nothing fired |
| LiveRuns.DebounceKeepsTo | apps/web/src/App.tsx:1395-1398 | for every limit: all runs from a mounted page with a valid form start at most that many comparisons live in any minute exactly if the limit is 100 or more; and the same of the fires |
| LiveRuns.EditIsSkipped | apps/web/src/App.tsx:1423-1437 | from a ready page, a letter typed and a refresh clicked within the pause end with the edit skipped, no comparison started and the old one still up |
| LiveRuns.EditCanBeLost | apps/web/src/App.tsx:1403-1437 | from every mounted page with a valid form there is a run that ends live with one letter more on screen than in the comparison shown, after which nothing fires before the signature moves again |
| LiveRecompute.LivePage.RunEffects | apps/web/src/App.tsx:1403-1437 | the effect clears the old timer and sets a new one only for a moved signature in live mode |
| LiveRecompute.LivePage.OnTimer | apps/web/src/App.tsx:1423-1434 | the callback is the fire step and keeps the invariant |
| DiagramReview.EveryNodeIsKept | apps/web/src/App.tsx:1048-1227 | every action keeps each node in one place and moves exactly the node it names; none is lost, doubled or invented |
| DiagramReview.PartitionIsKept | apps/web/src/App.tsx:1048-1227 | no node is in two of components, unresolved and ignored |
| DiagramReview.AddNeedsFreshId | apps/web/src/App.tsx:1163-1227 | adding keeps the partition exactly when the id is not in use |
| DiagramReview.ClassifiedAsChosen | apps/web/src/App.tsx:1111-1161 | a classified node is reviewed as the service chosen, under its own label and source reference; a service not on offer becomes the first on offer |
| DiagramReview.AddedAsChosen | apps/web/src/App.tsx:1163-1227 | an added service is reviewed as the service chosen, or as the first on offer exactly when that is not, under its name and the new id, and drawn in the graph as such |
| DiagramReview.RemovedIsIgnored | apps/web/src/App.tsx:1048-1109 | a removed service is ignored under its own label and reference, in the review and in the graph |
| DiagramReview.TraceNamesItsNode | apps/web/src/App.tsx:1135-1140 | the path of a trace names its node |
| DiagramReview.RequirementsKeepFollowing | apps/web/src/App.tsx:1048-1227 | the draft's requirements stay those of the components, one for one and in order |
| DiagramReview.TracesKeepFollowing | apps/web/src/App.tsx:1068-1070 | a removal keeps the traces one for one exactly when no other component shares the source reference |
| DiagramReview.EveryReviewIsSound | apps/web/src/App.tsx:898-1227 | in every review: the partition, the requirements picked for a comparison are those of the reviewed components, the graph agrees, and every node only moves forward |
| DiagramReview.EveryReviewKeepsTraces | apps/web/src/App.tsx:898-915 | with source references of their own, the traces picked for a comparison are those of the reviewed components |
| DiagramReview.MovesAddUp | apps/web/src/App.tsx:1048-1227 | moves made plus moves left equal 2 unresolved + components + additions; so that many moves at most |
| DiagramParse.ParsedDiagramIsSound | apps/api/src/diagram-parser/diagram-parser.service.ts:97-235 | with distinct ids, the result the API makes is sound, and its traces follow the services |
| DiagramParse.ReferencesCollide | apps/api/src/diagram-parser/diagram-security.ts:118-120 | two ids get the same source reference exactly if, up to character 80, they differ only in characters that are `_` or not allowed |
| DiagramParse.SharedReferenceLosesTrace | apps/web/src/App.tsx:1048-1109 | in a diagram of any two ids, with references made from them, removing one service takes the trace of the other exactly if the ids collide, and its requirement never |
| DiagramParse.SameMillisecondTwice | apps/web/src/App.tsx:1168 | two services added in one millisecond share an id: it is under review twice, and removing one removes both |
| History.LatestListsLog | apps/web/src/App.tsx:12139-12150 | the uncut history lists the log most recent first, with the latest save per id and no id missing |
| History.CutThenFilter | apps/web/src/App.tsx:12143-12146 | cutting one longer, filtering an id and cutting again is the same as cutting last |
| History.StoredRefinesLatest | apps/web/src/App.tsx:12139-12150 | after any saves, the stored history is the first 8 entries of the uncut one |
| Money.RoundHalfAwayIsNearest | apps/api/src/money.ts:24 | the rounding is to the nearest integer, halves away from zero |
| Money.RoundUsdIsOdd | apps/api/src/money.ts:32-41 | rounding commutes with the sign, errors included |
| Money.RoundUsdIsMonotone | apps/api/src/money.ts:32-41 | rounding is monotone |
| Money.RoundUsdIsIdempotent | apps/api/src/money.ts:32-41 | rounding a rounded amount to the same decimals changes nothing |
| Money.RateThenCoarser | apps/api/src/money.ts:43-49 | rounding to a rate first never changes a coarser rounding, and never leaves the range |
| Money.RoundUsdError | apps/api/src/money.ts:31-41 | the error is at most half a unit of the last decimal plus half a micro-dollar |
| Money.DoubleRoundingShows | apps/api/src/money.ts:31-41 | for every amount in range and 0 to 6 decimals: the result differs from rounding the amount at once exactly if there are fewer than 6 decimals, the micro-dollars are half a unit past a multiple of the unit, and the amount is closer to zero than they are |
| Money.HalfACentMore | apps/api/src/money.ts:31-41 | 0.0149995 becomes 0.02 where the nearest cent is 0.01 |
| Money.SumUsdSplits | apps/api/src/money.ts:60-62 | a sum splits over concatenation |
| Money.SumUsdIgnoresOrder | apps/api/src/money.ts:59-62 | a sum is the same for every order, errors included |
| Money.SumUsdAbsorbsNoise | apps/api/src/money.ts:10-25 | amounts within half a micro-dollar of whole micro-dollars sum to exactly their sum |
| Money.FoldAddUsdIsSum | apps/api/src/money.ts:51-57 | folding addUsd succeeds exactly when all amounts and partial sums stay in range, and is then the sum |
| Money.PercentChangeNull | apps/api/src/money.ts:64-76 | null exactly when the base is 0 micro-dollars and the value is not |
| Money.PercentChangeDefined | apps/api/src/money.ts:64-81 | a percentage or null comes exactly when both amounts and the exact percentage are in range |
| Money.PercentChangeIsZero | apps/api/src/money.ts:64-81 | the percentage is 0 exactly for equal micro-dollars or a change under 0.0000495 percent of the base |
| Money.TinyChangeIsNone | apps/api/src/money.ts:64-81 | a micro-dollar more on 1000 dollars is 0 percent |
| Money.PercentChangeInverts | apps/api/src/money.ts:69-81 | base times (1 + p/100) recovers the value within 5.05e-7 of the base |
| Money.PercentChangeIsMonotone | apps/api/src/money.ts:69-81 | monotone in the value for a positive base, antitone for a negative one |
| CostTime.IntervalCostsDefined | apps/api/src/cost-time.ts:14-29 | refused exactly for negative rates and yearly totals out of range |
| CostTime.IntervalsReconcile | apps/api/src/cost-time.ts:14-29 | 24 hourly is within 0.0051 of daily, 7 daily within 0.0401 of weekly, 730 hourly within 0.0054 of monthly, 3 monthly within 0.0201 of quarterly, 4 quarterly within 0.0251 and 12 monthly within 0.0651 of yearly, and the totals increase |
| CostTime.ApiAgreesWithWeb | apps/web/src/cost-time.ts:11-30 | the API's totals of a monthly cost are the rounded products with the web app's multipliers; monthly comes back rounded |
| BreakEven.SelectedIsFirstCheapest | apps/web/src/App.tsx:7097-7130 | the offer shown is the first of the cheapest that save; none exactly when none saves |
| BreakEven.BreakEvenMonthIsLeast | apps/web/src/App.tsx:7133-7140 | the commitment has paid off exactly from the break-even month on |
| BreakEven.TimelineIsTruthful | apps/web/src/App.tsx:7131-7173 | the month means what it says of the exact prices, the horizon lies in 12 to 36 and covers it when 36 can, and the marker is there exactly for a first pay-off in months 1 to 36 |
| BreakEven.HorizonIsShortest | apps/web/src/App.tsx:7141-7144 | the horizon is the shortest of 12 to 36 months that covers the term and the pay-off, or 36 when none does |
| BreakEven.AmountsAreShown | apps/web/src/App.tsx:7144-7160 | every amount shown is the exact one to the cent, the savings shown are within 0.0150015 of the difference of the prices shown, and signs and order survive |
| BreakEven.ChartIsHighEnough | apps/web/src/App.tsx:7144-7147 | to half a cent, the chart is as high as both lines in every month it shows, and at most 8 percent higher than the higher of their ends |
| BreakEven.TimelineAppears | apps/web/src/App.tsx:7097-7160 | no timeline exactly when nothing saves, an error exactly when an amount is out of range |

## Left out

Of the form and its spec:

- Numeric texts are abstract: blank, a finite number, or neither. How `Number` reads a text and `toString` prints one is
  assumed to give the number back.
- Real numbers are exact: no NaN, infinities or binary rounding.
- Lower-casing is modelled for ASCII letters only.
- The texts of the 53 family ids, their labels and provider services; only that the ids differ is used.
- Requirement fields that are never read back (category, instance type, region, zones, and the storage, network and
  label keys of `scaleParams`); `availabilityZoneCount` and `selectedServiceCategory`, which no section holds.
- The autoscaling range is two numbers, present or absent together.
- SettledForm.FormSettles: is about the fields modelled; `availabilityZoneCount` and `selectedServiceCategory` are not.
- SpecReading.FirstEntriesAreKept: says nothing of further entries, for which the form has no room.
- Of the API's schema: that its library (zod, version 4, apps/api/package.json:45) takes whole numbers up to 2^53 - 1 is
  assumed; metadata, the texts of requirements other than the tier, and raw types.
- The wording of issues, requirement labels and texts.

Of the page:

- AsyncActions.App.Submit: the branch of `prepareNwsForComparison` that parses a description is not modelled, because a
  compare in describe mode has already gone to the parser.
- AsyncActions.EveryRunIsOrderly: says nothing of `exportingFormat`, which only the current export or Clear and Restore
  reset.
- The pricing model, interval, region catalogue, analytics and health requests, and downloads.
- Opening a comparison from a link, which sets the comparison outside the action ids; it is covered only as a change of
  the screen by something else.
- LiveRecompute.SkippedEditIsDecided: is not a promise that a skipped edit is ever compared; the code makes none.
- Unmounting the page.
- DiagramParse.ParsedDiagramIsSound: takes distinct node ids from the extraction, whose formats are not modelled.
- DiagramReview.EveryReviewIsSound: takes fresh ids for additions, where the code uses the clock.
- CompareRuns.HistoryIsStored: is for runs in which nothing else clears or rewrites the history.
- That the headline texts and the form they are read into belong together is not assumed: they are kept side by side.
- Deliveries.SentIsAccepted: in diagram mode speaks of the form's spec, without the reviewed requirements and traces that
  take the place of its own.
- The traces of a diagram comparison when the parse result has none, which are then computed from the form.
- The lists of assumed defaults and of fields to review, and the parser confidence of a diagram.
- Local storage of the history, and reading it back.

Of money and the timeline:

- Sums of micro-dollars beyond 2^53 are exact here.
- The timeline the server sends, the choice of a provider's best commitment, and chart points.
