/**
 When a form stops changing: what one trip through the spec leaves for a second one to change
 (apps/web/src/workload.ts).
 */
module SettledForm {
  import opened Wrappers
  import opened Text
  import opened TextLists
  import opened Regions
  import opened Catalog
  import opened Fields
  import Money
  import opened Workload
  import opened Validity
  import opened TripNumbers
  import opened TripFamilies
  import opened NormalForm

  /** Two forms that show the same, field by field. */
  ghost predicate SameForm(a: Form, b: Form) {
    && a.(numbers := b.numbers) == b
    && forall field: Field :: a.numbers(field) == b.numbers(field)
  }

  // ---- The texts settle at once ----------------------------------------------------------

  lemma ShownTextIsStable(text: string, fallback: string)
    requires Trim(fallback) == fallback
    ensures ValueOr(NonBlankText(ValueOr(NonBlankText(text), fallback)), fallback) ==
            ValueOr(NonBlankText(text), fallback)
  {
    TrimIsIdempotent(text);
  }

  function ShownList(text: string): string {
    if ParseList(text) == [] then "SOC 2" else PrintList(ParseList(text))
  }

  function ShownTags(text: string): string {
    if ParseTags(text) == [] then "team:platform, project:polycost-demo" else PrintTags(ParseTags(text))
  }

  lemma ShownListIsStable(text: string)
    ensures ShownList(ShownList(text)) == ShownList(text)
  {
    hide ParseList, PrintList;
    ParseListShape(text);
    ListRoundTrip(ParseList(text));
    DefaultFrameworks();
  }

  lemma ShownTagsAreStable(text: string)
    ensures ShownTags(ShownTags(text)) == ShownTags(text)
  {
    hide ParseTags, PrintTags;
    ParseTagsShape(text);
    TagsRoundTrip(ParseTags(text));
    DefaultTags();
  }

  /** What a second trip could still change: the numbers, the tier with the architecture, and the selection. */
  ghost predicate SameTexts(a: Form, b: Form) {
    a.(numbers := b.numbers, instanceTier := b.instanceTier, processorArchitecture := b.processorArchitecture,
       selectedServiceFamilyIds := b.selectedServiceFamilyIds,
       selectedServiceFamilyId := b.selectedServiceFamilyId) == b
  }

  /** Everything else is settled after one trip, whatever the form. */
  lemma TextsSettle(form: Form)
    ensures SameTexts(RoundTrip(RoundTrip(form)), RoundTrip(form))
  {
    hide RoundTrip, OrElse, NonBlankText, NormalizedRegionPreference, RegionText, ParseList, ParseTags, PrintList;
    hide PrintTags, ProcessorArchitecture, Trim;
    var once := RoundTrip(form);
    TextsAfterTrip(form);
    TextsAfterTrip(once);
    DefaultTexts();
    OrElseIsStable(form.dataResidency, "global");
    OrElseIsStable(form.computeRole, "web");
    OrElseIsStable(form.storageRole, "storage");
    OrElseIsStable(form.databaseRole, "database");
    ShownTextIsStable(form.workloadName, "Customer portal");
    TrimOfTrimmed("");
    ShownTextIsStable(form.interRegionDestination, "");
    ShownTextIsStable(form.slaTarget, "");
    RegionAfterTrip(form);
    ShownListIsStable(form.complianceFrameworks);
    ShownTagsAreStable(form.tags);
  }

  // ---- The selection settles at once -----------------------------------------------------

  /** The wanted families from a place on, in catalogue order. */
  ghost predicate IsListFrom(wanted: set<Family>, families: seq<Family>, from: nat) {
    && (forall f: Family :: f in families <==> f in wanted && from <= f)
    && (forall i, j :: 0 <= i < j < |families| ==> families[i] < families[j])
  }

  lemma TailIsList(wanted: set<Family>, families: seq<Family>, from: nat)
    requires IsListFrom(wanted, families, from) && families != [] && families[0] == from
    ensures from in wanted && IsListFrom(wanted, families[1..], from + 1)
  {
    assert families[0] in families;
    forall f: Family ensures f in families[1..] <==> f in wanted && from + 1 <= f {
      if f in families {
        var i :| 0 <= i < |families| && families[i] == f;
        assert i > 0 ==> families[1..][i - 1] == f;
      }
      if f in families[1..] {
        var i :| 0 <= i < |families| - 1 && families[1..][i] == f;
        assert families[i + 1] == f;
      }
    }
  }

  lemma SameListFromNext(wanted: set<Family>, families: seq<Family>, from: Family)
    requires IsListFrom(wanted, families, from) && (families == [] || families[0] != from)
    ensures from !in wanted && IsListFrom(wanted, families, from + 1)
  {
    if families != [] {
      assert families[0] in families;
    }
  }

  lemma FirstIsLater(wanted: set<Family>, families: seq<Family>, from: nat)
    requires IsListFrom(wanted, families, from) && families != []
    ensures from <= families[0]
  {
    assert families[0] in families;
  }

  /** A list in catalogue order is the ordered list of its members. */
  lemma {:induction false} OrderedOfMembers(wanted: set<Family>, families: seq<Family>, from: nat)
    requires from <= CATALOG_SIZE && IsListFrom(wanted, families, from)
    ensures PickFrom(wanted, from) == families
    decreases CATALOG_SIZE - from
  {
    hide IsListFrom;
    if families != [] {
      FirstIsLater(wanted, families, from);
    }
    if families != [] && families[0] == from {
      TailIsList(wanted, families, from);
      OrderedOfMembers(wanted, families[1..], from + 1);
    } else if from < CATALOG_SIZE {
      SameListFromNext(wanted, families, from);
      OrderedOfMembers(wanted, families, from + 1);
    }
  }

  lemma DefaultIsAll(form: Form, family: Family)
    requires RequiredFamilies(form) == {}
    ensures Requires(RoundTrip(form), family) <==> family in DEFAULT_SELECTED_FAMILIES
  {
    hide RoundTrip, IsDriven, StorageServiceFamily, DatabaseServiceFamily, AsIds, InBulk, Ordered, RequiredFamilies;
    SelectionAfterTrip(form);
    SwitchesAfterTrip(form);
    NothingSwitchedOn(form);
    NotRequired(form, family);
    InAsIds(DEFAULT_SELECTED_FAMILIES, family);
    DrivenAfterTrip(form, family);
    NoRows(family);
  }

  /** A form that requires nothing comes back requiring the default selection. */
  lemma DefaultsAreRequired(form: Form)
    requires RequiredFamilies(form) == {}
    ensures RequiredFamilies(RoundTrip(form)) == set f | f in DEFAULT_SELECTED_FAMILIES
    ensures OrderedRequirementIds(RoundTrip(form)) == DEFAULT_SELECTED_FAMILIES
  {
    hide RoundTrip, Requires, PickFrom;
    forall f: Family ensures Requires(RoundTrip(form), f) <==> f in DEFAULT_SELECTED_FAMILIES {
      DefaultIsAll(form, f);
    }
    OrderedOfMembers(RequiredFamilies(RoundTrip(form)), DEFAULT_SELECTED_FAMILIES, 0);
  }

  lemma NoRows(family: Family)
    ensures !InBulk([], family)
  {
  }

  lemma NotRequired(form: Form, family: Family)
    requires RequiredFamilies(form) == {}
    ensures !Requires(form, family)
  {
    hide Requires;
    assert family !in RequiredFamilies(form);
  }

  lemma NothingSwitchedOn(form: Form)
    requires RequiredFamilies(form) == {}
    ensures !form.storageEnabled && !form.databaseEnabled && !form.cdn && !form.loadBalancer
  {
    hide IsDriven, StorageServiceFamily, DatabaseServiceFamily, InBulk;
    NotRequired(form, StorageServiceFamily(form));
    NotRequired(form, DatabaseServiceFamily(form));
    NotRequired(form, CDN_EDGE);
    NotRequired(form, LOAD_BALANCING);
  }

  /** From the first trip on, the same families are required. */
  lemma FamiliesSettle(form: Form)
    requires IsValid(form)
    ensures OrderedRequirementIds(RoundTrip(form)) != []
    ensures RequiredFamilies(form) != {} ==> RequiredFamilies(RoundTrip(form)) == RequiredFamilies(form)
    ensures RequiredFamilies(RoundTrip(RoundTrip(form))) == RequiredFamilies(RoundTrip(form))
  {
    hide RoundTrip, IsValid, Requires, Ordered;
    var once := RoundTrip(form);
    ValidityIsKept(form);
    if RequiredFamilies(form) != {} {
      SameFamilies(form);
    } else {
      DefaultsAreRequired(form);
    }
    OrderedMembers(RequiredFamilies(once));
    SameFamilies(once);
  }

  lemma SameFamilies(form: Form)
    requires IsValid(form) && RequiredFamilies(form) != {}
    ensures RequiredFamilies(RoundTrip(form)) == RequiredFamilies(form)
  {
    hide RoundTrip, IsValid, Requires;
    forall f: Family ensures f in RequiredFamilies(RoundTrip(form)) <==> f in RequiredFamilies(form) {
      RequiredAfterTrip(form, f);
    }
  }

  lemma SelectionSettles(form: Form)
    requires IsValid(form)
    ensures var once, twice := RoundTrip(form), RoundTrip(RoundTrip(form));
            && twice.selectedServiceFamilyIds == once.selectedServiceFamilyIds
            && twice.selectedServiceFamilyId == once.selectedServiceFamilyId
  {
    hide RoundTrip, IsValid, RequiredFamilies, Ordered, AsIds;
    FamiliesSettle(form);
    SelectionAfterTrip(form);
    OrderedMembers(RequiredFamilies(RoundTrip(form)));
    SelectionAfterTrip(RoundTrip(form));
    if RequiredFamilies(form) == {} {
      DefaultsAreRequired(form);
    }
  }

  // ---- The numbers settle at once --------------------------------------------------------

  lemma UncheckedScale(field: Field)
    requires RowOf(field).scaled.Some? && RowOf(field).checked != Always
    ensures RowOf(field).checked == DatabaseOn
    ensures var shape := RowOf(field).scaled.value;
            || shape == ParsedOr(0.0)
            || shape == NonNegativeIntegerOr(0.0)
            || shape == BoundedNumberOr(0.0, HOURS_PER_MONTH, HOURS_PER_MONTH)
  {
  }

  lemma WriteTwice(shape: Shape, text: Input)
    requires || shape == ParsedOr(0.0)
             || shape == NonNegativeIntegerOr(0.0)
             || shape == BoundedNumberOr(0.0, HOURS_PER_MONTH, HOURS_PER_MONTH)
    ensures Write(shape, NumberToInput(Write(shape, text))) == Write(shape, text)
  {
    RoundOfWhole(0);
    if Parse(text).Some? {
      RoundOfWhole(Money.MathRound(Parse(text).value));
    }
  }

  /** A number that was recorded is recorded as the same number again, checked or not. */
  lemma ScaledAgain(form: Form, field: Field)
    requires IsValid(form) && RowOf(field).scaled.Some?
    ensures var shape := RowOf(field).scaled.value;
            Write(shape, NumberToInput(Scaled(form, field))) == Scaled(form, field)
  {
    hide RowOf, Write, Passes, SuitsScaled;
    var row, text := RowOf(field), form.numbers(field);
    if row.checked == Always {
      assert NumberIsValid(form, field);
      ScaledRowsFit(field);
      ScaledIsFaithful(row.rule, row.scaled.value, text);
      ScaledIsFaithful(row.rule, row.scaled.value, NumberToInput(Scaled(form, field)));
    } else {
      UncheckedScale(field);
      WriteTwice(row.scaled.value, text);
    }
  }

  lemma DefaultsRecordNothing(field: Field)
    ensures ReadFamilies(field) * (set f | f in DEFAULT_SELECTED_FAMILIES) == {}
  {
    forall f: Family | f in DEFAULT_SELECTED_FAMILIES ensures f !in ReadFamilies(field) {
    }
  }

  /** What is recorded stays recorded. */
  lemma RecordedSettles(form: Form, field: Field)
    requires IsValid(form)
    ensures IsRecorded(RoundTrip(form), field) == IsRecorded(form, field)
  {
    hide RoundTrip, IsValid, RequiredFamilies, ReadFamilies, Ordered;
    if RequiredFamilies(form) == {} {
      DefaultsAreRequired(form);
      DefaultsRecordNothing(field);
    } else {
      SameFamilies(form);
    }
  }

  /** From the first trip on every number shown stays, those of sections that are off included. */
  lemma NumberSettles(form: Form, field: Field)
    requires IsValid(form)
    ensures RoundTrip(RoundTrip(form)).numbers(field) == RoundTrip(form).numbers(field)
  {
    hide RoundTrip, RowOf, Write, IsValid, IsRecorded, Written, ReadBackText;
    var once := RoundTrip(form);
    ValidityIsKept(form);
    NumberAfterTrip(form, field);
    NumberAfterTrip(once, field);
    SwitchesAfterTrip(form);
    RecordedSettles(form, field);
    if SectionOn(form, field) {
      NumberIsStable(form, field);
    }
    if RowOf(field).scaled.Some? && IsRecorded(form, field) && !(SectionOn(form, field) && Written(form, field).Some?) {
      ScaledAgain(form, field);
      assert once.numbers(field) == NumberToInput(Scaled(form, field));
    }
  }

  // ---- The tier and the architecture -----------------------------------------------------

  /** The tier shown after a trip of a form that does not select burstable. */
  function TierRead(form: Form): InstanceTier {
    if form.instanceTier != Custom then form.instanceTier else ValueOr(PrimaryTier(form), Balanced)
  }

  /** The second trip changes neither tier nor architecture. */
  predicate OneTripIsEnough(form: Form) {
    var families := OrderedRequirementIds(form);
    if SelectsBurstable(form) then true
    else if BURSTABLE_COMPUTE in families then TierRead(form) == Small
    else if TierRead(form) == Custom then
      families != [] && (families[0] == VM_COMPUTE || families[0] == AUTOSCALING_COMPUTE)
    else form.instanceTier == Custom && TierRead(form) == Accelerated ==> form.processorArchitecture == Gpu
  }

  lemma TierOnce(form: Form)
    ensures RoundTrip(form).instanceTier == if SelectsBurstable(form) then Small else TierRead(form)
  {
    hide RoundTrip, SelectsBurstable, PrimaryTier;
    TierAfterTrip(form);
    TierFamilies(form.instanceTier);
  }

  lemma ArchitectureOnce(form: Form)
    ensures RoundTrip(form).processorArchitecture == ProcessorArchitecture(form)
  {
    hide RoundTrip, NormalizedRegionPreference, RegionText, OrElse, NonBlankText, ParseTags, ParseList;
    TextsAfterTrip(form);
  }

  lemma TierSettles(form: Form)
    requires IsValid(form)
    ensures var once, twice := RoundTrip(form), RoundTrip(RoundTrip(form));
            (twice.instanceTier == once.instanceTier && twice.processorArchitecture == once.processorArchitecture) <==>
            OneTripIsEnough(form)
  {
    hide RoundTrip, IsValid, OrderedRequirementIds, SelectsBurstable, TierForRequirement, InstanceTierFromLabel;
    var once := RoundTrip(form);
    TierOnce(form);
    TierOnce(once);
    ArchitectureOnce(form);
    ArchitectureOnce(once);
    BurstableAfterTrip(form);
    SwitchesAfterTrip(form);
    FamiliesAreStable(form);
    ChoiceWithoutBulkRows(once);
    PrimaryFamilyNames(once);
  }

  // ---- The form settles ------------------------------------------------------------------

  /** One trip settles everything but the tier and the architecture, and those exactly under the condition. */
  lemma FormSettlesAtOnce(form: Form)
    requires IsValid(form)
    ensures SameForm(RoundTrip(RoundTrip(form)), RoundTrip(form)) <==> OneTripIsEnough(form)
  {
    hide RoundTrip, IsValid, OneTripIsEnough;
    TextsSettle(form);
    SelectionSettles(form);
    TierSettles(form);
    forall field: Field ensures RoundTrip(RoundTrip(form)).numbers(field) == RoundTrip(form).numbers(field) {
      NumberSettles(form, field);
    }
  }

  /** Two trips settle every valid form. */
  lemma FormSettles(form: Form)
    requires IsValid(form)
    ensures var settled := RoundTrip(RoundTrip(form));
            SameForm(RoundTrip(settled), settled)
  {
    hide RoundTrip, IsValid, OneTripIsEnough, SameForm;
    var once := RoundTrip(form);
    ValidityIsKept(form);
    SecondTripIsEnough(form);
    FormSettlesAtOnce(once);
  }

  lemma SecondTripIsEnough(form: Form)
    requires IsValid(form)
    ensures OneTripIsEnough(RoundTrip(form))
  {
    hide RoundTrip, IsValid, OrderedRequirementIds, SelectsBurstable;
    var once := RoundTrip(form);
    SwitchesAfterTrip(form);
    OnlySelectedIsBurstable(once);
    PrimaryFamilyNames(once);
  }

  /** A form in which a bulk row names the tier: custom, for object storage. */
  function CustomRowForm(): Form {
    BareForm().(instanceTier := Custom,
                bulkServiceRows := [BulkServiceRow(Known(OBJECT_STORAGE), Number(1.0), "custom", "")])
  }

  lemma RowsDoNotMatter(form: Form, tier: InstanceTier, rows: seq<BulkServiceRow>)
    requires IsValid(form) && forall i :: 0 <= i < |rows| ==> BulkRowIsValid(rows[i])
    ensures IsValid(form.(instanceTier := tier, bulkServiceRows := rows))
  {
    hide RowOf, Passes, BulkRowIsValid;
    var other := form.(instanceTier := tier, bulkServiceRows := rows);
    forall field: Field ensures NumberIsValid(other, field) {
      assert NumberIsValid(form, field);
    }
  }

  /** Object storage is all it requires. */
  lemma CustomRowRequires()
    ensures OrderedRequirementIds(CustomRowForm()) == [OBJECT_STORAGE]
  {
    hide RowOf, LeastText, DriversOf, PickFrom;
    var form := CustomRowForm();
    forall family: Family ensures Requires(form, family) <==> family == OBJECT_STORAGE {
      BareFormDrivesNothing(family);
      assert form.bulkServiceRows[0].serviceFamilyId == Known(OBJECT_STORAGE);
      assert IsDriven(form, family) == IsDriven(BareForm(), family);
    }
    OrderedOfMembers(RequiredFamilies(form), [OBJECT_STORAGE], 0);
  }

  lemma CustomRowTier()
    ensures PrimaryTier(CustomRowForm()) == Some(Custom)
  {
    hide OrderedRequirementIds, BareForm;
    CustomRowRequires();
    TrimOfTrimmed("custom");
  }

  lemma CustomRowIsValid()
    ensures IsValid(CustomRowForm())
  {
    hide IsValid, BareForm;
    BareFormIsValid();
    RowsDoNotMatter(BareForm(), Custom, CustomRowForm().bulkServiceRows);
  }

  lemma StorageNamesNoTier(form: Form)
    requires form.bulkServiceRows == [] && OrderedRequirementIds(form) == [OBJECT_STORAGE]
    ensures PrimaryTier(form) == None
  {
    hide OrderedRequirementIds;
  }

  lemma CustomOnce()
    ensures RoundTrip(CustomRowForm()).instanceTier == Custom
    ensures !SelectsBurstable(RoundTrip(CustomRowForm()))
  {
    hide RoundTrip, OrderedRequirementIds, BareForm, SelectsBurstable, PrimaryTier;
    CustomRowRequires();
    CustomRowTier();
    BurstableAfterTrip(CustomRowForm());
    TierOnce(CustomRowForm());
  }

  /** The condition is needed: this valid form shows the custom tier after one trip and the balanced one after two. */
  lemma OneTripIsNotEnough()
    ensures IsValid(CustomRowForm())
    ensures RoundTrip(CustomRowForm()).instanceTier == Custom
    ensures RoundTrip(RoundTrip(CustomRowForm())).instanceTier == Balanced
  {
    hide RoundTrip, IsValid, OrderedRequirementIds, CustomRowForm, SelectsBurstable, PrimaryTier;
    var form := CustomRowForm();
    CustomRowIsValid();
    CustomRowRequires();
    CustomOnce();
    TierOnce(RoundTrip(form));
    SwitchesAfterTrip(form);
    FamiliesAreStable(form);
    StorageNamesNoTier(RoundTrip(form));
  }
}
