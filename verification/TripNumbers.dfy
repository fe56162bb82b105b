/**
 What one trip through the spec does to the numbers of a form: which text comes back for each field, and
 that every number in every section survives (apps/web/src/workload.ts).
 */
module TripNumbers {
  import opened Wrappers
  import opened Catalog
  import opened Fields
  import opened Workload
  import opened Validity
  import opened Regions
  import opened TextLists

  // ---- Where a number is found again -----------------------------------------------------

  predicate SectionOn(form: Form, field: Field) {
    (field.Storage? ==> form.storageEnabled) && (field.Database? ==> form.databaseEnabled)
  }

  lemma BuiltNumber(form: Form, field: Field)
    ensures SectionNumber(BuildNwsFromForm(form), field) ==
            if SectionOn(form, field) then Written(form, field) else None
  {
    hide NormalizedRegionPreference, ParseTags, ParseList, ServiceRequirementsFromForm, TraceableFamilies, Ordered;
    hide AsIds, NonBlankText, OrElse, PrimaryComputeFamily, GateOpen, Write;
    match field {
      case Users(_) => case Compute(_) => case Storage(_) => case Database(_) => case Network(_) => case Profile(_) =>
      case Supporting(_) => case Runtime(_) => case Analytics(_) => case Ai(_) => case Integration(_) =>
    }
  }

  /** A field that some section writes is checked whenever it is written. */
  lemma WrittenIsChecked(form: Form, field: Field)
    requires RowOf(field).written.Some? && SectionOn(form, field) && GateOpen(form, RowOf(field).written.value.gate)
    ensures Applies(form, RowOf(field).checked)
  {
  }

  /** The requirements record a field exactly when a family the reader looks at is required. */
  predicate IsRecorded(form: Form, field: Field) {
    ReadFamilies(field) * RequiredFamilies(form) != {}
  }

  lemma {:induction false} FirstScaledOf(form: Form, families: seq<Family>, field: Field)
    requires RowOf(field).scaled.Some?
    ensures FirstScaled(RequirementsFor(form, families), ReadFamilies(field), field)
            == if exists i :: 0 <= i < |families| && families[i] in ReadFamilies(field) then Scaled(form, field)
               else None
  {
    if families != [] {
      FirstScaledOf(form, families[1..], field);
      var requirements := RequirementsFor(form, families);
      assert requirements[1..] == RequirementsFor(form, families[1..]);
      assert requirements[0] == RequirementFor(form, families[0]);
      if families[0] in ReadFamilies(field) {
        assert families[0] in RecordingFamilies(field);
      } else {
        assert forall i :: 0 < i < |families| ==> families[i] == families[1..][i - 1];
      }
    }
  }

  lemma RecordedNumber(form: Form, field: Field)
    requires RowOf(field).scaled.Some?
    ensures FirstScaled(BuildNwsFromForm(form).serviceRequirements, ReadFamilies(field), field)
            == if IsRecorded(form, field) then Scaled(form, field) else None
  {
    var required := RequiredFamilies(form);
    var families := Ordered(required);
    FirstScaledOf(form, families, field);
    if IsRecorded(form, field) {
      var family :| family in ReadFamilies(field) && family in required;
      OrderedHas(required, family);
      var i :| 0 <= i < |families| && families[i] == family;
    }
    if exists i :: 0 <= i < |families| && families[i] in ReadFamilies(field) {
      var i :| 0 <= i < |families| && families[i] in ReadFamilies(field);
      assert families[i] in families;
      OrderedHas(required, families[i]);
      assert families[i] in ReadFamilies(field) * required;
    }
  }

  lemma ScaledIsDefined(form: Form, field: Field)
    requires RowOf(field).scaled.Some?
    ensures Scaled(form, field).Some?
  {
  }

  /** The text the form shows after one trip. */
  function TextAfterTrip(form: Form, field: Field): Input {
    if SectionOn(form, field) && Written(form, field).Some? then NumberToInput(Written(form, field))
    else if RowOf(field).scaled.Some? && IsRecorded(form, field) then NumberToInput(Scaled(form, field))
    else ReadBackText(RowOf(field).readBack)
  }

  lemma NumberAfterTrip(form: Form, field: Field)
    ensures RoundTrip(form).numbers(field) == TextAfterTrip(form, field)
  {
    hide BuildNwsFromForm, SectionNumber, FirstScaled, RowOf, Written, Scaled, IsRecorded, ReadBackText;
    hide PrintTags, PrintList, ReadInstanceTier, ReadSelectedFamilies, ReadSelectedFamily, AsIds, RegionText;
    BuiltNumber(form, field);
    if RowOf(field).scaled.Some? {
      RecordedNumber(form, field);
      ScaledIsDefined(form, field);
    }
  }

  /** Everything but the numbers, the tier and the selected families, as it comes back. */
  lemma TextsAfterTrip(form: Form)
    ensures var trip := RoundTrip(form);
            && trip.workloadName == ValueOr(NonBlankText(form.workloadName), "Customer portal")
            && trip.workloadType == form.workloadType
            && trip.regionPreference ==
               RegionText(NormalizedRegionPreference(form.regionPreference, form.dataResidency, form.complianceLocked))
            && trip.environment == form.environment
            && trip.dataResidency == OrElse(form.dataResidency, "global")
            && trip.complianceLocked == form.complianceLocked
            && trip.complianceFrameworks ==
               (if ParseList(form.complianceFrameworks) == [] then "SOC 2"
                else PrintList(ParseList(form.complianceFrameworks)))
            && trip.operatingSystem == form.operatingSystem
            && trip.supportTier == form.supportTier
            && trip.usagePattern == form.usagePattern
            && trip.tags ==
               (if ParseTags(form.tags) == [] then "team:platform, project:polycost-demo"
                else PrintTags(ParseTags(form.tags)))
            && trip.computeRole == OrElse(form.computeRole, "web")
            && trip.scalingType == form.scalingType
            && trip.processorArchitecture == ProcessorArchitecture(form)
            && trip.computeTenancy == form.computeTenancy
    ensures var trip := RoundTrip(form);
            && trip.storageEnabled == form.storageEnabled
            && trip.storageRole == (if form.storageEnabled then OrElse(form.storageRole, "storage") else "uploads")
            && trip.storageType == (if form.storageEnabled then form.storageType else ObjectStore)
            && trip.storageAccessPattern == (if form.storageEnabled then form.storageAccessPattern else Frequent)
            && trip.storageClass == (if form.storageEnabled then form.storageClass else StandardClass)
            && trip.storageReplication == (if form.storageEnabled then form.storageReplication else NoReplication)
            && trip.multiAttachEnabled == (form.storageEnabled && form.multiAttachEnabled)
            && trip.databaseEnabled == form.databaseEnabled
            && trip.databaseRole == (if form.databaseEnabled then OrElse(form.databaseRole, "database") else "primary")
            && trip.databaseEngine == (if form.databaseEnabled then form.databaseEngine else Postgres)
            && trip.databaseHighAvailability == (form.databaseEnabled ==> form.databaseHighAvailability)
            && trip.interRegionDestination == ValueOr(NonBlankText(form.interRegionDestination), "")
            && trip.cdn == form.cdn
            && trip.loadBalancer == form.loadBalancer
            && trip.bulkServiceRows == []
            && trip.multiAz == form.multiAz
            && trip.multiRegion == form.multiRegion
            && trip.slaTarget == ValueOr(NonBlankText(form.slaTarget), "")
            && trip.faultTolerance == form.faultTolerance
  {
    hide NormalizedRegionPreference, ParseTags, ParseList, ServiceRequirementsFromForm, TraceableFamilies, Ordered;
    hide AsIds, NonBlankText, OrElse, PrimaryComputeFamily, UsersNumbers, ComputeNumbers, StorageNumbers;
    hide DatabaseNumbers, NetworkNumbers, ProfileNumbers, PrintTags, PrintList, ProcessorArchitecture;
    hide ReadInstanceTier, ReadSelectedFamilies, ReadSelectedFamily, RegionText, ReadNumber;
  }

  /** Of these, the choices that gate numbers, switch sections or call for families. */
  lemma SwitchesAfterTrip(form: Form)
    ensures var trip := RoundTrip(form);
            && trip.storageEnabled == form.storageEnabled
            && trip.databaseEnabled == form.databaseEnabled
            && trip.scalingType == form.scalingType
            && trip.usagePattern == form.usagePattern
            && trip.cdn == form.cdn
            && trip.loadBalancer == form.loadBalancer
            && trip.bulkServiceRows == []
            && (form.storageEnabled ==> StorageServiceFamily(trip) == StorageServiceFamily(form))
            && (form.databaseEnabled ==> trip.databaseEngine == form.databaseEngine)
  {
    hide RoundTrip, NormalizedRegionPreference, RegionText, OrElse, NonBlankText, ParseTags, ParseList;
    TextsAfterTrip(form);
  }

  // ---- Numbers survive -------------------------------------------------------------------

  lemma WriteReadsParse(shape: Shape, text: Input, other: Input)
    requires Parse(text) == Parse(other)
    ensures Write(shape, text) == Write(shape, other)
  {
  }

  /** Writing what the form shows after a trip gives what was written before it. */
  lemma WrittenAgain(row: Row, text: Input, recorded: bool, after: Input)
    requires RowFits(row) && row.written.Some? && Passes(row.rule, text)
    requires row.scaled.Some? ==> recorded || row.readBack == Default(0.0)
    requires var written := Write(row.written.value.shape, text);
             after == if written.Some? then NumberToInput(written)
                      else if row.scaled.Some? && recorded then NumberToInput(Write(row.scaled.value, text))
                      else ReadBackText(row.readBack)
    ensures Write(row.written.value.shape, after) == Write(row.written.value.shape, text)
  {
    hide Write, Passes, Suits, RecordsZero, AlwaysWritten;
    var shape := row.written.value.shape;
    ValidIsFaithful(row.rule, shape, text);
    if Write(shape, text).Some? {
      WriteReadsParse(shape, text, after);
    } else if row.scaled.Some? && recorded {
      RecordedZero(row.rule, row.scaled.value, text);
    } else if row.scaled.None? && AlwaysWritten(row.rule, shape) {
      AlwaysWrittenIsWritten(row.rule, shape, text);
    }
  }

  /** Only the search hours may have been dropped at zero and yet have a default that would revive them. */
  lemma RevivableRow(field: Field)
    requires RowOf(field).written.Some? && RowOf(field).scaled.Some?
    ensures RowOf(field).readBack == Default(0.0) || field == Database(SearchNodeHours)
    ensures RowOf(Database(SearchNodeHours)).written.value.gate == IfWholePositive(Database(SearchNodeCount))
  {
  }

  lemma WholePositive(text: Input)
    ensures Write(NonNegativeIntegerOr(0.0), text).value > 0.0 ==> HasPositive(text)
  {
  }

  /** ... and those are always recorded when their gate is open. */
  lemma SearchHoursAreRecorded(form: Form)
    requires form.databaseEnabled && GateOpen(form, IfWholePositive(Database(SearchNodeCount)))
    ensures IsRecorded(form, Database(SearchNodeHours))
  {
    hide IsDriven, InBulk, StorageServiceFamily, Write;
    WholePositive(form.numbers(Database(SearchNodeCount)));
    assert Requires(form, MANAGED_SEARCH);
    assert MANAGED_SEARCH in ReadFamilies(Database(SearchNodeHours)) * RequiredFamilies(form);
  }

  /** An open gate is all the trip needs to bring the written number back. */
  lemma ShapeAfterTrip(form: Form, field: Field)
    requires IsValid(form) && SectionOn(form, field)
    requires RowOf(field).written.Some? && GateOpen(form, RowOf(field).written.value.gate)
    ensures var shape := RowOf(field).written.value.shape;
            Write(shape, RoundTrip(form).numbers(field)) == Write(shape, form.numbers(field))
  {
    hide RoundTrip, RowOf, Write, IsRecorded, Requires, GateOpen, RowFits, Passes, ReadBackText;
    var row := RowOf(field);
    WrittenIsChecked(form, field);
    assert NumberIsValid(form, field);
    NumberAfterTrip(form, field);
    RowsFit(field);
    if row.scaled.Some? {
      RevivableRow(field);
      if row.readBack != Default(0.0) {
        SearchHoursAreRecorded(form);
      }
    }
    WrittenAgain(row, form.numbers(field), IsRecorded(form, field), RoundTrip(form).numbers(field));
  }

  /** A gate looks at a field of its own section that is itself always written when positive. */
  lemma GatingRow(form: Form, field: Field)
    requires RowOf(field).written.Some? && SectionOn(form, field)
    ensures match RowOf(field).written.value.gate
            case IfPositive(g) => RowOf(g).written == Some(Writing(PositiveNumber, Open)) && SectionOn(form, g)
            case IfWholePositive(g) => RowOf(g).written == Some(Writing(PositiveInteger, Open)) && SectionOn(form, g)
            case _ => true
  {
  }

  lemma PositiveByShape(text: Input, after: Input)
    ensures Write(PositiveNumber, text) == Write(PositiveNumber, after) ==> HasPositive(text) == HasPositive(after)
    ensures Write(PositiveInteger, text) == Write(PositiveInteger, after) ==>
              Write(NonNegativeIntegerOr(0.0), text) == Write(NonNegativeIntegerOr(0.0), after) &&
              HasPositive(text) == HasPositive(after)
  {
    RoundOfWhole(0);
  }

  lemma GateAfterTrip(form: Form, field: Field)
    requires IsValid(form) && SectionOn(form, field) && RowOf(field).written.Some?
    ensures var gate := RowOf(field).written.value.gate;
            GateOpen(RoundTrip(form), gate) == GateOpen(form, gate)
  {
    hide RoundTrip, RowOf, Write, HasPositive, IsValid, SectionOn;
    SwitchesAfterTrip(form);
    GatingRow(form, field);
    match RowOf(field).written.value.gate {
      case IfPositive(g) =>
        ShapeAfterTrip(form, g);
        PositiveByShape(form.numbers(g), RoundTrip(form).numbers(g));
      case IfWholePositive(g) =>
        ShapeAfterTrip(form, g);
        PositiveByShape(form.numbers(g), RoundTrip(form).numbers(g));
      case _ =>
    }
  }

  /** Every number in every section that is there is the same after one trip. */
  lemma NumberIsStable(form: Form, field: Field)
    requires IsValid(form) && SectionOn(form, field)
    ensures Written(RoundTrip(form), field) == Written(form, field)
  {
    hide RoundTrip, RowOf, Write, GateOpen, IsValid, SectionOn;
    if RowOf(field).written.Some? {
      GateAfterTrip(form, field);
      if GateOpen(form, RowOf(field).written.value.gate) {
        ShapeAfterTrip(form, field);
      }
    }
  }

  lemma UsersNumbersAreStable(form: Form)
    requires IsValid(form)
    ensures UsersNumbers(RoundTrip(form)) == UsersNumbers(form)
  {
    hide RoundTrip, Written, IsValid;
    forall f: UsersField ensures Written(RoundTrip(form), Users(f)) == Written(form, Users(f)) {
      NumberIsStable(form, Users(f));
    }
  }

  lemma ComputeNumbersAreStable(form: Form)
    requires IsValid(form)
    ensures ComputeNumbers(RoundTrip(form)) == ComputeNumbers(form)
  {
    hide RoundTrip, Written, IsValid;
    forall f: ComputeField ensures Written(RoundTrip(form), Compute(f)) == Written(form, Compute(f)) {
      NumberIsStable(form, Compute(f));
    }
  }

  lemma StorageNumbersAreStable(form: Form)
    requires IsValid(form) && form.storageEnabled
    ensures StorageNumbers(RoundTrip(form)) == StorageNumbers(form)
  {
    hide RoundTrip, Written, IsValid;
    forall f: StorageField ensures Written(RoundTrip(form), Storage(f)) == Written(form, Storage(f)) {
      NumberIsStable(form, Storage(f));
    }
  }

  lemma DatabaseNumbersAreStable(form: Form)
    requires IsValid(form) && form.databaseEnabled
    ensures DatabaseNumbers(RoundTrip(form)) == DatabaseNumbers(form)
  {
    hide RoundTrip, Written, IsValid;
    forall f: DatabaseField ensures Written(RoundTrip(form), Database(f)) == Written(form, Database(f)) {
      NumberIsStable(form, Database(f));
    }
  }

  lemma NetworkNumbersAreStable(form: Form)
    requires IsValid(form)
    ensures NetworkNumbers(RoundTrip(form)) == NetworkNumbers(form)
  {
    hide RoundTrip, Written, IsValid;
    forall f: NetworkField ensures Written(RoundTrip(form), Network(f)) == Written(form, Network(f)) {
      NumberIsStable(form, Network(f));
    }
  }

  lemma ProfileNumbersAreStable(form: Form)
    requires IsValid(form)
    ensures ProfileNumbers(RoundTrip(form)) == ProfileNumbers(form)
  {
    hide RoundTrip, Written, IsValid;
    forall f: ProfileField ensures Written(RoundTrip(form), Profile(f)) == Written(form, Profile(f)) {
      NumberIsStable(form, Profile(f));
    }
  }

  // ---- Validation makes every fallback unreachable ---------------------------------------

  /** In a valid form, every number written is the number typed: no rounding, no fallback; and what is typed
      but not written is zero. */
  lemma ValidNumbersAreFaithful(form: Form, field: Field)
    requires IsValid(form) && SectionOn(form, field)
    requires RowOf(field).written.Some? && GateOpen(form, RowOf(field).written.value.gate)
    ensures match Written(form, field)
            case Some(v) => Parse(form.numbers(field)) == Some(v)
            case None => Parse(form.numbers(field)) == None || Parse(form.numbers(field)) == Some(0.0)
  {
    hide RowOf, Write, GateOpen, Passes;
    WrittenIsChecked(form, field);
    assert NumberIsValid(form, field);
    ValidatedIsFaithful(field, form.numbers(field));
  }

  /** In the spec of a valid form, every number of every section is the number typed. */
  lemma ValidSpecIsFaithful(form: Form, field: Field)
    requires IsValid(form)
    ensures var number := SectionNumber(BuildNwsFromForm(form), field);
            number.Some? ==> Parse(form.numbers(field)) == number
  {
    hide BuildNwsFromForm, SectionNumber, RowOf, Write, GateOpen, IsValid, SectionOn;
    BuiltNumber(form, field);
    if SectionOn(form, field) && Written(form, field).Some? {
      ValidNumbersAreFaithful(form, field);
    }
  }

  /** A valid autoscaling form writes the range it was given, and the range is not empty. */
  lemma ValidRange(form: Form)
    requires IsValid(form) && form.scalingType == Autoscaled
    ensures var min, max := Written(form, Compute(AutoscaleMin)), Written(form, Compute(AutoscaleMax));
            && min.Some? && max.Some?
            && 0.0 < min.value <= max.value
            && Parse(form.numbers(Compute(AutoscaleMin))) == min
            && Parse(form.numbers(Compute(AutoscaleMax))) == max
  {
    assert NumberIsValid(form, Compute(AutoscaleMin)) && NumberIsValid(form, Compute(AutoscaleMax));
    ValidNumbersAreFaithful(form, Compute(AutoscaleMin));
    ValidNumbersAreFaithful(form, Compute(AutoscaleMax));
  }

  lemma RangeRules()
    ensures RowOf(Compute(AutoscaleMin)).rule == RequirePositiveInteger
    ensures RowOf(Compute(AutoscaleMax)).rule == RequirePositiveInteger
    ensures RowOf(Compute(AutoscaleMin)).checked == RowOf(Compute(AutoscaleMax)).checked == Autoscaling
  {
  }

  /** The three checks of an autoscaling range pass exactly for two whole limits above zero, in order. */
  lemma RangeIsValidExactly(form: Form)
    requires form.scalingType == Autoscaled
    ensures var min, max := Parse(form.numbers(Compute(AutoscaleMin))), Parse(form.numbers(Compute(AutoscaleMax)));
            NumberIsValid(form, Compute(AutoscaleMin)) && NumberIsValid(form, Compute(AutoscaleMax))
            && ScaleOrderIsValid(form) <==>
            && min.Some? && max.Some? && IsInteger(min.value) && IsInteger(max.value)
            && 0.0 < min.value <= max.value
  {
    hide RowOf, IsInteger;
    RangeRules();
  }

  // ---- Validity survives -----------------------------------------------------------------

  lemma PassesReadsParse(rule: Rule, text: Input, value: real)
    requires Passes(rule, text) && Parse(text) == Some(value)
    ensures Passes(rule, Number(value))
  {
  }

  lemma AlwaysWrittenWhenChecked(form: Form, field: Field)
    requires IsValid(form) && Applies(form, RowOf(field).checked)
    requires !Passes(RowOf(field).rule, ReadBackText(RowOf(field).readBack))
    ensures SectionOn(form, field) && Written(form, field).Some?
  {
    hide RowOf, Write, Passes, AlwaysWritten, ReadBackText;
    RowsAreRestorable(field);
    RowsAreWritten(field);
    assert NumberIsValid(form, field);
    AlwaysWrittenIsWritten(RowOf(field).rule, RowOf(field).written.value.shape, form.numbers(field));
  }

  lemma NumberStaysValid(form: Form, field: Field)
    requires IsValid(form) && Applies(form, RowOf(field).checked)
    ensures Passes(RowOf(field).rule, RoundTrip(form).numbers(field))
  {
    hide RoundTrip, RowOf, Write, Passes, SectionOn, IsRecorded, GateOpen, ReadBackText, SuitsScaled, Applies;
    assert NumberIsValid(form, field);
    NumberAfterTrip(form, field);
    if SectionOn(form, field) && Written(form, field).Some? {
      ValidNumbersAreFaithful(form, field);
      PassesReadsParse(RowOf(field).rule, form.numbers(field), Written(form, field).value);
    } else if RowOf(field).scaled.Some? && IsRecorded(form, field) {
      ScaledRowsFit(field);
      ScaledIsFaithful(RowOf(field).rule, RowOf(field).scaled.value, form.numbers(field));
    } else if !Passes(RowOf(field).rule, ReadBackText(RowOf(field).readBack)) {
      AlwaysWrittenWhenChecked(form, field);
    }
  }

  lemma ScaleOrderStaysValid(form: Form)
    requires IsValid(form)
    ensures ScaleOrderIsValid(RoundTrip(form))
  {
    hide RoundTrip, IsInteger, Written;
    SwitchesAfterTrip(form);
    if form.scalingType == Autoscaled {
      ValidRange(form);
      NumberAfterTrip(form, Compute(AutoscaleMin));
      NumberAfterTrip(form, Compute(AutoscaleMax));
    }
  }

  /** A valid form is valid after a trip. */
  lemma ValidityIsKept(form: Form)
    requires IsValid(form)
    ensures IsValid(RoundTrip(form))
  {
    hide RoundTrip, RowOf, Passes, ScaleOrderIsValid;
    SwitchesAfterTrip(form);
    ScaleOrderStaysValid(form);
    forall field: Field ensures NumberIsValid(RoundTrip(form), field) {
      if Applies(form, RowOf(field).checked) {
        NumberStaysValid(form, field);
      }
    }
  }
}
