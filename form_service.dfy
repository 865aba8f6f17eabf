/**
 * The gift-entry form service: lookup tables from a field's describe type to
 * the `lightning-input` type and number formatter, lookups in the field and
 * object mappings of the loaded form template, and the builder that turns the
 * form's sections into one data-import record.
 */
module GeFormService {
  import opened Wrappers

  // ---------------------------------------------------------------------------
  // Describe-type lookup tables
  // ---------------------------------------------------------------------------

  /** `inputTypeByDescribeType`: only the types a `lightning-input` can edit. */
  const InputTypeByDescribeType: map<string, string> := map[
    "BOOLEAN" := "checkbox",
    "CURRENCY" := "number",
    "DATE" := "date",
    "DATETIME" := "datetime-local",
    "EMAIL" := "email",
    "DOUBLE" := "number",
    "INTEGER" := "number",
    "LONG" := "number",
    "PERCENT" := "number",
    "STRING" := "text",
    "PHONE" := "tel",
    "TEXT" := "text",
    "TIME" := "time",
    "URL" := "url"
  ]

  /** `numberFormatterByDescribeType`. */
  const NumberFormatterByDescribeType: map<string, string> := map["PERCENT" := "percent-fixed"]

  /** The describe types the form can render as a `lightning-input`. */
  const HandledDescribeTypes: set<string> := {
    "BOOLEAN", "CURRENCY", "DATE", "DATETIME", "EMAIL", "DOUBLE", "INTEGER",
    "LONG", "PERCENT", "STRING", "PHONE", "TEXT", "TIME", "URL"
  }

  /** The describe types whose values are numbers. */
  const NumericDescribeTypes: set<string> := {"CURRENCY", "DOUBLE", "INTEGER", "LONG", "PERCENT"}

  /** The `lightning-input` types the table can produce. */
  const LightningInputTypes: set<string> := {
    "checkbox", "number", "date", "datetime-local", "email", "text", "tel", "time", "url"
  }

  /** `getInputTypeFromDataType`: the table entry, `undefined` for any other type. */
  function GetInputTypeFromDataType(dataType: string): (r: Option<string>)
    ensures r.Some? <==> dataType in HandledDescribeTypes
    ensures r.Some? ==> r.value in LightningInputTypes
    ensures dataType in NumericDescribeTypes ==> r == Some("number")
    ensures r == Some("number") ==> dataType in NumericDescribeTypes
  {
    if dataType in InputTypeByDescribeType then Some(InputTypeByDescribeType[dataType]) else None
  }

  /** `getNumberFormatterByDescribeType`: only percentages get a formatter. */
  function GetNumberFormatterByDescribeType(dataType: string): (r: Option<string>)
    ensures r.Some? <==> dataType == "PERCENT"
    ensures r.Some? ==> r.value == "percent-fixed"
  {
    if dataType in NumberFormatterByDescribeType then Some(NumberFormatterByDescribeType[dataType]) else None
  }

  /** A type with a number formatter is always rendered as a number input. */
  lemma DescribeTablesAgree(dataType: string)
    ensures GetNumberFormatterByDescribeType(dataType).Some? ==>
      GetInputTypeFromDataType(dataType) == Some("number")
    ensures GetInputTypeFromDataType("CURRENCY") == Some("number")
    ensures GetInputTypeFromDataType("PHONE") == Some("tel")
    ensures GetInputTypeFromDataType("BOOLEAN") == Some("checkbox")
    ensures GetInputTypeFromDataType("DATETIME") == Some("datetime-local")
    ensures GetInputTypeFromDataType("TEXTAREA") == None && GetInputTypeFromDataType("PICKLIST") == None
  {
  }

  // ---------------------------------------------------------------------------
  // Form data
  // ---------------------------------------------------------------------------

  /** A value entered in the form (a text input, a checkbox, or an empty field). */
  datatype FieldValue = Text(text: string) | Flag(on: bool) | Blank

  /** A field mapping: the data-import field a form field is written to. */
  datatype FieldMapping = FieldMapping(
    developerName: string,
    sourceFieldApiName: string,
    targetFieldApiName: string,
    targetObjectMappingDevName: string)

  /** An object mapping of the data-import batch. */
  datatype ObjectMapping = ObjectMapping(developerName: string, objectApiName: string)

  /** The `fieldMappingSetWrapper` of a form render wrapper. */
  datatype FieldMappingSetWrapper = FieldMappingSetWrapper(
    fieldMappingByDevName: map<string, FieldMapping>,
    objectMappingByDevName: map<string, ObjectMapping>,
    fieldMappingByTargetFieldName: map<string, FieldMapping>)

  /** One form section: its field values keyed by field-mapping developer name,
      and its widget values. Either may be `undefined`; spreading `undefined`
      into an object literal adds nothing. */
  datatype Section = Section(values: Option<map<string, FieldValue>>, widgetValues: Option<map<string, FieldValue>>)

  /** An existing Contact or Account the gift is attached to. */
  datatype DonorRecord = DonorRecord(apiName: string, id: string)

  datatype DataImportRecord = DataImportRecord(diRecord: map<string, FieldValue>, widgetValues: map<string, FieldValue>)

  // The object and field names below come from the template-builder utility
  // module, which is not part of this model; they are its un-namespaced values.
  const ContactObjectApiName := "Contact"
  const AccountObjectApiName := "Account"
  const Contact1ImportedField := "Contact1Imported__c"
  const Account1ImportedField := "Account1Imported__c"
  const DonationDonorField := "Donation_Donor__c"
  const Contact1 := "Contact1"
  const Account1 := "Account1"

  // ---------------------------------------------------------------------------
  // Folding the sections (later sections override earlier ones)
  // ---------------------------------------------------------------------------

  /** Which of a section's two maps is being merged. */
  datatype Part = Values | Widgets

  /** `{...x}` for a possibly `undefined` map `x`. */
  function Spread(x: Option<map<string, FieldValue>>): (r: map<string, FieldValue>)
    ensures x.None? ==> r == map[]
    ensures x.Some? ==> forall k :: k in x.value ==> k in r && r[k] == x.value[k]
    ensures forall k :: k in r ==> x.Some? && k in x.value
  {
    x.GetOr(map[])
  }

  function PartOf(section: Section, part: Part): map<string, FieldValue> {
    match part
    case Values => Spread(section.values)
    case Widgets => Spread(section.widgetValues)
  }

  /** The accumulator after `acc = { ...acc, ...(section.part) }` for every section, in order. */
  function Merge(sections: seq<Section>, part: Part): (r: map<string, FieldValue>)
    ensures sections == [] ==> r == map[]
    ensures sections != [] ==> forall k :: k in PartOf(sections[|sections| - 1], part) ==>
      k in r && r[k] == PartOf(sections[|sections| - 1], part)[k]
    decreases |sections|
  {
    if sections == [] then map[]
    else Merge(sections[..|sections| - 1], part) + PartOf(sections[|sections| - 1], part)
  }

  /** A key is merged exactly when some section has it. */
  lemma {:induction false} MergeKeys(sections: seq<Section>, part: Part, k: string)
    ensures k in Merge(sections, part) <==> exists i :: 0 <= i < |sections| && k in PartOf(sections[i], part)
    decreases |sections|
  {
    if sections != [] {
      var init := sections[..|sections| - 1];
      MergeKeys(init, part, k);
      if k in Merge(sections, part) && k !in PartOf(sections[|sections| - 1], part) {
        var i :| 0 <= i < |init| && k in PartOf(init[i], part);
        assert sections[i] == init[i];
      }
      if exists i :: 0 <= i < |sections| && k in PartOf(sections[i], part) {
        var i :| 0 <= i < |sections| && k in PartOf(sections[i], part);
        if i < |init| {
          assert init[i] == sections[i];
        }
      }
    }
  }

  /** On a collision the later section wins: a key takes its value from the
      last section that has it. */
  lemma {:induction false} MergeLaterWins(sections: seq<Section>, part: Part, k: string, i: nat)
    requires i < |sections| && k in PartOf(sections[i], part)
    requires forall j :: i < j < |sections| ==> k !in PartOf(sections[j], part)
    ensures k in Merge(sections, part) && Merge(sections, part)[k] == PartOf(sections[i], part)[k]
    decreases |sections|
  {
    var last := |sections| - 1;
    if i < last {
      var init := sections[..last];
      forall j | i < j < |init| ensures k !in PartOf(init[j], part) {
        assert init[j] == sections[j];
      }
      MergeLaterWins(init, part, k, i);
      assert init[i] == sections[i];
    }
  }

  // ---------------------------------------------------------------------------
  // Renaming fields and stamping the donor
  // ---------------------------------------------------------------------------

  /** `dr` is a data-import record built from `fieldData` by writing each value
      under its mapping's source field name: every mapped name is present, and
      each entry of `dr` comes from some form field mapped to it (the one the
      `for...in` loop visits last when several share a name). */
  ghost predicate MappedFrom(fieldData: map<string, FieldValue>, mappings: map<string, FieldMapping>, dr: map<string, FieldValue>) {
    && (forall k :: k in fieldData ==> k in mappings && mappings[k].sourceFieldApiName in dr)
    && (forall t :: t in dr ==>
          exists k :: k in fieldData && k in mappings && mappings[k].sourceFieldApiName == t && dr[t] == fieldData[k])
  }

  /** No two form fields are mapped to the same data-import field. */
  ghost predicate DistinctSources(fieldData: map<string, FieldValue>, mappings: map<string, FieldMapping>) {
    forall k1, k2 ::
      (k1 in fieldData && k2 in fieldData && k1 in mappings && k2 in mappings
       && mappings[k1].sourceFieldApiName == mappings[k2].sourceFieldApiName) ==> k1 == k2
  }

  /** Without collisions each form value lands under its mapped name. */
  lemma MappedFromDistinct(fieldData: map<string, FieldValue>, mappings: map<string, FieldMapping>, dr: map<string, FieldValue>, k: string)
    requires MappedFrom(fieldData, mappings, dr) && DistinctSources(fieldData, mappings)
    requires k in fieldData
    ensures k in mappings && dr[mappings[k].sourceFieldApiName] == fieldData[k]
  {
    var t := mappings[k].sourceFieldApiName;
    var k' :| k' in fieldData && k' in mappings && mappings[k'].sourceFieldApiName == t && dr[t] == fieldData[k'];
  }

  /** Without collisions the renamed record is determined by the field data and
      the mappings: its names are exactly the mapped names. */
  lemma MappedFromUnique(fieldData: map<string, FieldValue>, mappings: map<string, FieldMapping>, dr1: map<string, FieldValue>, dr2: map<string, FieldValue>)
    requires MappedFrom(fieldData, mappings, dr1) && MappedFrom(fieldData, mappings, dr2)
    requires DistinctSources(fieldData, mappings)
    ensures dr1 == dr2
  {
    forall t | t in dr1 ensures t in dr2 && dr2[t] == dr1[t] {
      var k :| k in fieldData && k in mappings && mappings[k].sourceFieldApiName == t && dr1[t] == fieldData[k];
      MappedFromDistinct(fieldData, mappings, dr2, k);
    }
    forall t | t in dr2 ensures t in dr1 {
      var k :| k in fieldData && k in mappings && mappings[k].sourceFieldApiName == t && dr2[t] == fieldData[k];
    }
  }

  /** The data-import fields that the donor stamp writes. */
  function DonorStampFields(record: Option<DonorRecord>): set<string> {
    if record.None? then {}
    else if record.value.apiName == ContactObjectApiName then {Contact1ImportedField, DonationDonorField}
    else if record.value.apiName == AccountObjectApiName then {Account1ImportedField, DonationDonorField}
    else {}
  }

  /** Links the record to an attached Contact or Account; these writes come after
      the mapped fields, so they replace any mapped value under the same name. */
  function StampDonor(dr: map<string, FieldValue>, record: Option<DonorRecord>): (r: map<string, FieldValue>)
    ensures r.Keys == dr.Keys + DonorStampFields(record)
    ensures forall t :: t in dr && t !in DonorStampFields(record) ==> r[t] == dr[t]
    ensures record.Some? && record.value.apiName == ContactObjectApiName ==>
      r[Contact1ImportedField] == Text(record.value.id) && r[DonationDonorField] == Text(Contact1)
    ensures record.Some? && record.value.apiName == AccountObjectApiName ==>
      r[Account1ImportedField] == Text(record.value.id) && r[DonationDonorField] == Text(Account1)
  {
    match record
    case None => dr
    case Some(rec) =>
      if rec.apiName == ContactObjectApiName then
        dr[Contact1ImportedField := Text(rec.id)][DonationDonorField := Text(Contact1)]
      else if rec.apiName == AccountObjectApiName then
        dr[Account1ImportedField := Text(rec.id)][DonationDonorField := Text(Account1)]
      else dr
  }

  /** What `getDataImportRecord` promises of its `diRecord`: the renamed field
      data with the donor stamp applied on top. */
  ghost predicate IsDataImportRecord(fieldData: map<string, FieldValue>, mappings: map<string, FieldMapping>,
                                     record: Option<DonorRecord>, di: map<string, FieldValue>) {
    exists dr :: MappedFrom(fieldData, mappings, dr) && di == StampDonor(dr, record)
  }

  /** With no donor to stamp the record holds only mapped fields; without
      collisions every field value is found under its mapped name unless the
      donor stamp overrode that name. */
  lemma DataImportRecordFields(fieldData: map<string, FieldValue>, mappings: map<string, FieldMapping>,
                               record: Option<DonorRecord>, di: map<string, FieldValue>)
    requires IsDataImportRecord(fieldData, mappings, record, di)
    ensures DonorStampFields(record) == {} ==> MappedFrom(fieldData, mappings, di)
    ensures DistinctSources(fieldData, mappings) ==>
      forall k :: k in fieldData && k in mappings && mappings[k].sourceFieldApiName !in DonorStampFields(record) ==>
        mappings[k].sourceFieldApiName in di && di[mappings[k].sourceFieldApiName] == fieldData[k]
    ensures forall t :: t in di && t !in DonorStampFields(record) ==>
      exists k :: k in fieldData && k in mappings && mappings[k].sourceFieldApiName == t
  {
    var dr :| MappedFrom(fieldData, mappings, dr) && di == StampDonor(dr, record);
    if DonorStampFields(record) == {} {
      assert di == dr;
    }
    if DistinctSources(fieldData, mappings) {
      forall k | k in fieldData && k in mappings && mappings[k].sourceFieldApiName !in DonorStampFields(record)
        ensures mappings[k].sourceFieldApiName in di && di[mappings[k].sourceFieldApiName] == fieldData[k]
      {
        MappedFromDistinct(fieldData, mappings, dr, k);
      }
    }
  }

  // ---------------------------------------------------------------------------
  // The service object
  // ---------------------------------------------------------------------------

  /** `obj[key]` in JavaScript: a `TypeError` when `obj` itself is `undefined`,
      `undefined` when the key is absent. */
  function PropertyOf<T>(obj: Option<map<string, T>>, key: string): (r: Result<Option<T>>)
    ensures r.Failure? <==> obj.None?
    ensures r.Ok? ==> (r.value.Some? <==> key in obj.value)
    ensures r.Ok? && r.value.Some? ==> r.value.value == obj.value[key]
  {
    match obj
    case None => Failure(TypeError)
    case Some(m) => Ok(if key in m then Some(m[key]) else None)
  }

  /** The service: its three mapping maps are `undefined` until a form template is loaded. */
  class FormService {
    var fieldMappings: Option<map<string, FieldMapping>>
    var objectMappings: Option<map<string, ObjectMapping>>
    var fieldTargetMappings: Option<map<string, FieldMapping>>

    constructor()
      ensures fieldMappings == None && objectMappings == None && fieldTargetMappings == None
    {
      fieldMappings := None;
      objectMappings := None;
      fieldTargetMappings := None;
    }

    /** The `.then` body of `getFormTemplate`, given the fetched wrapper's mapping set. */
    method ApplyFormTemplate(wrapper: FieldMappingSetWrapper)
      modifies this
      ensures fieldMappings == Some(wrapper.fieldMappingByDevName)
      ensures objectMappings == Some(wrapper.objectMappingByDevName)
      ensures fieldTargetMappings == Some(wrapper.fieldMappingByTargetFieldName)
    {
      fieldMappings := Some(wrapper.fieldMappingByDevName);
      objectMappings := Some(wrapper.objectMappingByDevName);
      fieldTargetMappings := Some(wrapper.fieldMappingByTargetFieldName);
    }

    function GetFieldMappingWrapper(fieldDevName: string): (r: Result<Option<FieldMapping>>)
      reads this
      ensures r.Failure? <==> fieldMappings.None?
      ensures r.Ok? ==> (r.value.Some? <==> fieldDevName in fieldMappings.value)
      ensures r.Ok? && r.value.Some? ==> r.value.value == fieldMappings.value[fieldDevName]
    {
      PropertyOf(fieldMappings, fieldDevName)
    }

    function GetFieldMappingWrapperFromTarget(targetFieldName: string): (r: Result<Option<FieldMapping>>)
      reads this
      ensures r.Failure? <==> fieldTargetMappings.None?
      ensures r.Ok? ==> (r.value.Some? <==> targetFieldName in fieldTargetMappings.value)
      ensures r.Ok? && r.value.Some? ==> r.value.value == fieldTargetMappings.value[targetFieldName]
    {
      PropertyOf(fieldTargetMappings, targetFieldName)
    }

    function GetObjectMappingWrapper(objectDevName: string): (r: Result<Option<ObjectMapping>>)
      reads this
      ensures r.Failure? <==> objectMappings.None?
      ensures r.Ok? ==> (r.value.Some? <==> objectDevName in objectMappings.value)
      ensures r.Ok? && r.value.Some? ==> r.value.value == objectMappings.value[objectDevName]
    {
      PropertyOf(objectMappings, objectDevName)
    }

    /** The field mappings known so far (none before a template is loaded). */
    function KnownFieldMappings(): map<string, FieldMapping>
      reads this
    {
      fieldMappings.GetOr(map[])
    }

    /** Some form field has no field mapping, so reading its source name throws. */
    ghost predicate HasUnmappedField(fieldData: map<string, FieldValue>)
      reads this
    {
      exists k :: k in fieldData && k !in KnownFieldMappings()
    }

    /** The `for...in` loop of `getDataImportRecord`: write each field value under
        its mapping's source field name, throwing on a field without a mapping. */
    method RenameFields(fieldData: map<string, FieldValue>) returns (r: Result<map<string, FieldValue>>)
      ensures r.Failure? <==> HasUnmappedField(fieldData)
      ensures r.Ok? ==> MappedFrom(fieldData, KnownFieldMappings(), r.value)
    {
      var mappings := KnownFieldMappings();
      var diRecord: map<string, FieldValue> := map[];
      var pending := fieldData.Keys;
      while pending != {}
        invariant pending <= fieldData.Keys
        invariant forall k :: k in fieldData && k !in pending ==>
          k in mappings && mappings[k].sourceFieldApiName in diRecord
        invariant forall t :: t in diRecord ==>
          exists k :: k in fieldData && k !in pending && k in mappings
            && mappings[k].sourceFieldApiName == t && diRecord[t] == fieldData[k]
        decreases pending
      {
        var key :| key in pending;
        var value := fieldData[key];
        var fieldWrapper := GetFieldMappingWrapper(key);
        if fieldWrapper.Failure? || fieldWrapper.value.None? {
          return Failure(TypeError);
        }
        var source := fieldWrapper.value.value.sourceFieldApiName;
        ghost var before := diRecord;
        diRecord := diRecord[source := value];
        pending := pending - {key};
        forall t | t in diRecord
          ensures exists k :: (k in fieldData && k !in pending && k in mappings
                                && mappings[k].sourceFieldApiName == t && diRecord[t] == fieldData[k])
        {
          if t != source {
            var k :| k in fieldData && k !in pending + {key} && k in mappings
              && mappings[k].sourceFieldApiName == t && before[t] == fieldData[k];
          }
        }
      }
      return Ok(diRecord);
    }

    /** `getDataImportRecord(sectionList, record)`: merge the sections' field
        values and widget values (later sections override earlier ones), rename
        the fields to their data-import names, then link the donor record. */
    method GetDataImportRecord(sectionList: seq<Section>, record: Option<DonorRecord>) returns (r: Result<DataImportRecord>)
      ensures r.Failure? <==> HasUnmappedField(Merge(sectionList, Values))
      ensures r.Ok? ==> r.value.widgetValues == Merge(sectionList, Widgets)
      ensures r.Ok? ==> IsDataImportRecord(Merge(sectionList, Values), KnownFieldMappings(), record, r.value.diRecord)
    {
      var fieldData: map<string, FieldValue> := map[];
      var widgetValues: map<string, FieldValue> := map[];
      for i := 0 to |sectionList|
        invariant fieldData == Merge(sectionList[..i], Values)
        invariant widgetValues == Merge(sectionList[..i], Widgets)
      {
        assert sectionList[..i + 1][..i] == sectionList[..i];
        fieldData := fieldData + Spread(sectionList[i].values);
        widgetValues := widgetValues + Spread(sectionList[i].widgetValues);
      }
      assert sectionList[..|sectionList|] == sectionList;
      var renamed := RenameFields(fieldData);
      if renamed.Failure? {
        return Failure(renamed.error);
      }
      var diRecord := StampDonor(renamed.value, record);
      return Ok(DataImportRecord(diRecord, widgetValues));
    }
  }
}
