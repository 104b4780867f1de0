/** The response records of exchange_rate_client/commons.py and the way a
    response body becomes one of them. Every record derives from a base
    model configured with `extra="ignore"`: declared fields are read,
    required ones must be present, `Optional[...] = None` ones default to
    `None`, and every other key of the body is dropped. */
module Commons {
  import opened Wrappers
  import opened Json

  /** One validation error, as the record constructor reports it. */
  datatype FieldError = Missing(field: string) | WrongType(field: string)

  /** The annotation of a declared field. */
  datatype FieldType = StrType | IntType | FloatType | RateMapType

  /** A declared field: its name, its annotation, and whether it is
      declared `Optional[...] = None`. */
  datatype Field = Field(name: string, typ: FieldType, optional: bool)

  /** A JSON number read as a float: integers are accepted and widened. */
  function AsFloat(v: Value): Option<real>
  {
    match v
    case Int(i) => Some(i as real)
    case Float(r) => Some(r)
    case _ => None
  }

  /** Whether a JSON value is accepted for an annotation. */
  predicate Conforms(v: Value, t: FieldType)
  {
    match t
    case StrType => v.Str?
    case IntType => v.Int?
    case FloatType => AsFloat(v).Some?
    case RateMapType => v.Obj? && forall k | k in v.fields :: AsFloat(v.fields[k]).Some?
  }

  // ---------------------------------------------------------------------
  // The declared fields, in declaration order: the reference against which
  // the decoders below are proved.
  // ---------------------------------------------------------------------

  /** The errors one declared field contributes for body `d`. */
  function FieldErrors(d: Object, f: Field): seq<FieldError>
  {
    if f.name !in d then (if f.optional then [] else [Missing(f.name)])
    else if f.optional && d[f.name] == Null then []
    else if Conforms(d[f.name], f.typ) then []
    else [WrongType(f.name)]
  }

  /** All validation errors for body `d`, field by field in declaration order. */
  function SchemaErrors(d: Object, schema: seq<Field>): seq<FieldError>
  {
    if schema == [] then [] else FieldErrors(d, schema[0]) + SchemaErrors(d, schema[1..])
  }

  const ExchangeRatesSchema: seq<Field> :=
    [ Field("base_code", StrType, false),
      Field("conversion_rates", RateMapType, false) ]

  const PairConversionSchema: seq<Field> :=
    [ Field("time_last_update_unix", IntType, true),
      Field("time_last_update_utc", StrType, true),
      Field("time_next_update_unix", IntType, true),
      Field("time_next_update_utc", StrType, true),
      Field("base_code", StrType, false),
      Field("target_code", StrType, false),
      Field("conversion_rate", FloatType, false),
      Field("conversion_result", FloatType, true) ]

  const APIQuotaStatusSchema: seq<Field> :=
    [ Field("plan_quota", IntType, false),
      Field("requests_remaining", IntType, false),
      Field("refresh_day_of_month", IntType, false) ]

  /** A required field named `name` is absent, so validation reports it missing. */
  lemma {:induction false} MissingRequiredField(d: Object, schema: seq<Field>, i: nat)
    requires i < |schema| && !schema[i].optional && schema[i].name !in d
    ensures Missing(schema[i].name) in SchemaErrors(d, schema)
  {
    if i == 0 {
      assert FieldErrors(d, schema[0]) == [Missing(schema[0].name)];
    } else {
      MissingRequiredField(d, schema[1..], i - 1);
    }
  }

  /** Bodies `d1` and `d2` agree on every name the schema declares:
      the same keys present, holding the same values. */
  predicate AgreeOn(d1: Object, d2: Object, schema: seq<Field>)
  {
    forall i | 0 <= i < |schema| ::
      (schema[i].name in d1) == (schema[i].name in d2) && Get(d1, schema[i].name) == Get(d2, schema[i].name)
  }

  /** Validation looks only at the declared names: two bodies that agree on
      them get the same errors, whatever else they hold. */
  lemma {:induction false} SchemaErrorsIgnoreUnknownKeys(d1: Object, d2: Object, schema: seq<Field>)
    requires AgreeOn(d1, d2, schema)
    ensures SchemaErrors(d1, schema) == SchemaErrors(d2, schema)
  {
    if schema != [] {
      assert AgreeOn(d1, d2, schema[1..]) by {
        forall i | 0 <= i < |schema[1..]|
          ensures (schema[1..][i].name in d1) == (schema[1..][i].name in d2)
          ensures Get(d1, schema[1..][i].name) == Get(d2, schema[1..][i].name)
        {
          assert schema[1..][i] == schema[i + 1];
        }
      }
      assert FieldErrors(d1, schema[0]) == FieldErrors(d2, schema[0]) by {
        assert (schema[0].name in d1) == (schema[0].name in d2);
        assert Get(d1, schema[0].name) == Get(d2, schema[0].name);
      }
      SchemaErrorsIgnoreUnknownKeys(d1, d2, schema[1..]);
    }
  }

  /** Validation passes exactly when every declared field is valid. */
  lemma {:induction false} NoSchemaErrorsIffAllValid(d: Object, schema: seq<Field>)
    ensures SchemaErrors(d, schema) == [] <==> AllFieldsValid(d, schema)
  {
    if schema != [] {
      NoSchemaErrorsIffAllValid(d, schema[1..]);
      if AllFieldsValid(d, schema) {
        assert AllFieldsValid(d, schema[1..]) by {
          forall i | 0 <= i < |schema[1..]| ensures FieldErrors(d, schema[1..][i]) == [] {
            assert schema[1..][i] == schema[i + 1];
          }
        }
      }
    }
  }

  // ---------------------------------------------------------------------
  // The records and their decoders.
  // ---------------------------------------------------------------------

  /** Latest rates for a base currency: target code to rate. */
  datatype ExchangeRates = ExchangeRates(baseCode: string, conversionRates: map<string, real>)

  /** The rate between two currencies, with optional update times and an
      optional converted amount. */
  datatype PairConversion = PairConversion(
    timeLastUpdateUnix: Option<int>,
    timeLastUpdateUtc: Option<string>,
    timeNextUpdateUnix: Option<int>,
    timeNextUpdateUtc: Option<string>,
    baseCode: string,
    targetCode: string,
    conversionRate: real,
    conversionResult: Option<real>)

  /** The account's request quota. */
  datatype APIQuotaStatus = APIQuotaStatus(planQuota: int, requestsRemaining: int, refreshDayOfMonth: int)

  /** JSON form of an optional value: `null` for `None`. */
  function IntOrNull(o: Option<int>): Value { if o.None? then Null else Int(o.value) }
  function StrOrNull(o: Option<string>): Value { if o.None? then Null else Str(o.value) }
  function FloatOrNull(o: Option<real>): Value { if o.None? then Null else Float(o.value) }

  /** The value of a field that validated, read per its annotation. */
  function FloatOf(v: Value): real
    requires AsFloat(v).Some?
  {
    AsFloat(v).value
  }

  function OptionalInt(d: Object, name: string): Option<int>
    requires FieldErrors(d, Field(name, IntType, true)) == []
  {
    if Get(d, name) == Null then None else Some(d[name].i)
  }

  function OptionalStr(d: Object, name: string): Option<string>
    requires FieldErrors(d, Field(name, StrType, true)) == []
  {
    if Get(d, name) == Null then None else Some(d[name].s)
  }

  function OptionalFloat(d: Object, name: string): Option<real>
    requires FieldErrors(d, Field(name, FloatType, true)) == []
  {
    if Get(d, name) == Null then None else Some(FloatOf(d[name]))
  }

  function RateMap(v: Value): map<string, real>
    requires Conforms(v, RateMapType)
  {
    map k | k in v.fields :: FloatOf(v.fields[k])
  }

  /** Every declared field of `schema` is valid in `d`. */
  predicate AllFieldsValid(d: Object, schema: seq<Field>)
  {
    forall i | 0 <= i < |schema| :: FieldErrors(d, schema[i]) == []
  }

  function DecodeExchangeRates(d: Object): (r: Result<ExchangeRates, seq<FieldError>>)
    ensures r.Success? <==> AllFieldsValid(d, ExchangeRatesSchema)
    ensures r.Failure? ==> r.error == SchemaErrors(d, ExchangeRatesSchema) && r.error != []
    ensures r.Success? ==>
      && "base_code" in d && d["base_code"] == Str(r.value.baseCode)
      && "conversion_rates" in d && d["conversion_rates"].Obj?
      && r.value.conversionRates.Keys == d["conversion_rates"].fields.Keys
      && forall k | k in r.value.conversionRates ::
           AsFloat(d["conversion_rates"].fields[k]) == Some(r.value.conversionRates[k])
  {
    var schema := ExchangeRatesSchema;
    var errors := SchemaErrors(d, schema);
    NoSchemaErrorsIffAllValid(d, schema);
    if errors != [] then Failure(errors)
    else
      assert FieldErrors(d, schema[0]) == [] && FieldErrors(d, schema[1]) == [];
      Success(ExchangeRates(d["base_code"].s, RateMap(d["conversion_rates"])))
  }

  function DecodePairConversion(d: Object): (r: Result<PairConversion, seq<FieldError>>)
    ensures r.Success? <==> AllFieldsValid(d, PairConversionSchema)
    ensures r.Failure? ==> r.error == SchemaErrors(d, PairConversionSchema) && r.error != []
    ensures r.Success? ==>
      && "base_code" in d && d["base_code"] == Str(r.value.baseCode)
      && "target_code" in d && d["target_code"] == Str(r.value.targetCode)
      && "conversion_rate" in d && AsFloat(d["conversion_rate"]) == Some(r.value.conversionRate)
      && Get(d, "time_last_update_unix") == IntOrNull(r.value.timeLastUpdateUnix)
      && Get(d, "time_last_update_utc") == StrOrNull(r.value.timeLastUpdateUtc)
      && Get(d, "time_next_update_unix") == IntOrNull(r.value.timeNextUpdateUnix)
      && Get(d, "time_next_update_utc") == StrOrNull(r.value.timeNextUpdateUtc)
      && (r.value.conversionResult.None? <==> Get(d, "conversion_result") == Null)
      && (r.value.conversionResult.Some? ==>
            AsFloat(d["conversion_result"]) == Some(r.value.conversionResult.value))
  {
    var schema := PairConversionSchema;
    var errors := SchemaErrors(d, schema);
    NoSchemaErrorsIffAllValid(d, schema);
    if errors != [] then Failure(errors)
    else
      assert FieldErrors(d, schema[0]) == [] && FieldErrors(d, schema[1]) == [];
      assert FieldErrors(d, schema[2]) == [] && FieldErrors(d, schema[3]) == [];
      assert FieldErrors(d, schema[4]) == [] && FieldErrors(d, schema[5]) == [];
      assert FieldErrors(d, schema[6]) == [] && FieldErrors(d, schema[7]) == [];
      Success(PairConversion(
        OptionalInt(d, "time_last_update_unix"),
        OptionalStr(d, "time_last_update_utc"),
        OptionalInt(d, "time_next_update_unix"),
        OptionalStr(d, "time_next_update_utc"),
        d["base_code"].s,
        d["target_code"].s,
        FloatOf(d["conversion_rate"]),
        OptionalFloat(d, "conversion_result")))
  }

  function DecodeAPIQuotaStatus(d: Object): (r: Result<APIQuotaStatus, seq<FieldError>>)
    ensures r.Success? <==>
      && "plan_quota" in d && d["plan_quota"].Int?
      && "requests_remaining" in d && d["requests_remaining"].Int?
      && "refresh_day_of_month" in d && d["refresh_day_of_month"].Int?
    ensures r.Failure? ==> r.error == SchemaErrors(d, APIQuotaStatusSchema) && r.error != []
    ensures r.Success? ==>
      && d["plan_quota"] == Int(r.value.planQuota)
      && d["requests_remaining"] == Int(r.value.requestsRemaining)
      && d["refresh_day_of_month"] == Int(r.value.refreshDayOfMonth)
  {
    var schema := APIQuotaStatusSchema;
    var errors := SchemaErrors(d, schema);
    NoSchemaErrorsIffAllValid(d, schema);
    assert AllFieldsValid(d, schema) <==>
      FieldErrors(d, schema[0]) == [] && FieldErrors(d, schema[1]) == [] && FieldErrors(d, schema[2]) == [];
    if errors != [] then Failure(errors)
    else Success(APIQuotaStatus(d["plan_quota"].i, d["requests_remaining"].i, d["refresh_day_of_month"].i))
  }

  // ---------------------------------------------------------------------
  // Dumps (the JSON form of a record, `None` as `null`) and the properties
  // that tie them to the decoders.
  // ---------------------------------------------------------------------

  function DumpExchangeRates(e: ExchangeRates): Object
  {
    map["base_code" := Str(e.baseCode),
        "conversion_rates" := Obj(map k | k in e.conversionRates :: Float(e.conversionRates[k]))]
  }

  function DumpPairConversion(p: PairConversion): Object
  {
    map["time_last_update_unix" := IntOrNull(p.timeLastUpdateUnix),
        "time_last_update_utc" := StrOrNull(p.timeLastUpdateUtc),
        "time_next_update_unix" := IntOrNull(p.timeNextUpdateUnix),
        "time_next_update_utc" := StrOrNull(p.timeNextUpdateUtc),
        "base_code" := Str(p.baseCode),
        "target_code" := Str(p.targetCode),
        "conversion_rate" := Float(p.conversionRate),
        "conversion_result" := FloatOrNull(p.conversionResult)]
  }

  function DumpAPIQuotaStatus(q: APIQuotaStatus): Object
  {
    map["plan_quota" := Int(q.planQuota),
        "requests_remaining" := Int(q.requestsRemaining),
        "refresh_day_of_month" := Int(q.refreshDayOfMonth)]
  }

  lemma ExchangeRatesRoundTrip(e: ExchangeRates)
    ensures DecodeExchangeRates(DumpExchangeRates(e)) == Success(e)
  {
    var d := DumpExchangeRates(e);
    var schema := ExchangeRatesSchema;
    assert FieldErrors(d, schema[0]) == [] && FieldErrors(d, schema[1]) == [];
    assert AllFieldsValid(d, schema);
    assert RateMap(d["conversion_rates"]) == e.conversionRates;
  }

  /** Every declared field of a dumped pair record is valid. */
  lemma PairConversionDumpValid(p: PairConversion)
    ensures AllFieldsValid(DumpPairConversion(p), PairConversionSchema)
  {
    var d := DumpPairConversion(p);
    var schema := PairConversionSchema;
    forall i | 0 <= i < |schema| ensures FieldErrors(d, schema[i]) == [] {
      assert schema[i].name in d;
    }
  }

  lemma PairConversionRoundTrip(p: PairConversion)
    ensures DecodePairConversion(DumpPairConversion(p)) == Success(p)
  {
    PairConversionDumpValid(p);
  }

  lemma APIQuotaStatusRoundTrip(q: APIQuotaStatus)
    ensures DecodeAPIQuotaStatus(DumpAPIQuotaStatus(q)) == Success(q)
  {
  }

  /** The decode of `d` failed and reported `name` missing. */
  predicate ReportsMissing<T>(r: Result<T, seq<FieldError>>, name: string)
  {
    r.Failure? && Missing(name) in r.error
  }

  /** Each absent required field is reported, whatever else is wrong. */
  lemma ExchangeRatesRequiredFields(d: Object)
    ensures "base_code" !in d ==> ReportsMissing(DecodeExchangeRates(d), "base_code")
    ensures "conversion_rates" !in d ==> ReportsMissing(DecodeExchangeRates(d), "conversion_rates")
  {
    if "base_code" !in d { MissingRequiredField(d, ExchangeRatesSchema, 0); }
    if "conversion_rates" !in d { MissingRequiredField(d, ExchangeRatesSchema, 1); }
  }

  lemma PairConversionRequiredFields(d: Object)
    ensures "base_code" !in d ==> ReportsMissing(DecodePairConversion(d), "base_code")
    ensures "target_code" !in d ==> ReportsMissing(DecodePairConversion(d), "target_code")
    ensures "conversion_rate" !in d ==> ReportsMissing(DecodePairConversion(d), "conversion_rate")
  {
    if "base_code" !in d { MissingRequiredField(d, PairConversionSchema, 4); }
    if "target_code" !in d { MissingRequiredField(d, PairConversionSchema, 5); }
    if "conversion_rate" !in d { MissingRequiredField(d, PairConversionSchema, 6); }
  }

  lemma APIQuotaStatusRequiredFields(d: Object)
    ensures "plan_quota" !in d ==> ReportsMissing(DecodeAPIQuotaStatus(d), "plan_quota")
    ensures "requests_remaining" !in d ==> ReportsMissing(DecodeAPIQuotaStatus(d), "requests_remaining")
    ensures "refresh_day_of_month" !in d ==> ReportsMissing(DecodeAPIQuotaStatus(d), "refresh_day_of_month")
  {
    if "plan_quota" !in d { MissingRequiredField(d, APIQuotaStatusSchema, 0); }
    if "requests_remaining" !in d { MissingRequiredField(d, APIQuotaStatusSchema, 1); }
    if "refresh_day_of_month" !in d { MissingRequiredField(d, APIQuotaStatusSchema, 2); }
  }

  /** `extra="ignore"`: keys the record does not declare never change the
      outcome of decoding. */
  lemma ExchangeRatesIgnoresUnknownKeys(d1: Object, d2: Object)
    requires AgreeOn(d1, d2, ExchangeRatesSchema)
    ensures DecodeExchangeRates(d1) == DecodeExchangeRates(d2)
  {
    var schema := ExchangeRatesSchema;
    SchemaErrorsIgnoreUnknownKeys(d1, d2, schema);
    assert Get(d1, schema[0].name) == Get(d2, schema[0].name);
    assert Get(d1, schema[1].name) == Get(d2, schema[1].name);
  }

  lemma PairConversionIgnoresUnknownKeys(d1: Object, d2: Object)
    requires AgreeOn(d1, d2, PairConversionSchema)
    ensures DecodePairConversion(d1) == DecodePairConversion(d2)
  {
    var schema := PairConversionSchema;
    SchemaErrorsIgnoreUnknownKeys(d1, d2, schema);
    assert Get(d1, schema[0].name) == Get(d2, schema[0].name);
    assert Get(d1, schema[1].name) == Get(d2, schema[1].name);
    assert Get(d1, schema[2].name) == Get(d2, schema[2].name);
    assert Get(d1, schema[3].name) == Get(d2, schema[3].name);
    assert Get(d1, schema[4].name) == Get(d2, schema[4].name);
    assert Get(d1, schema[5].name) == Get(d2, schema[5].name);
    assert Get(d1, schema[6].name) == Get(d2, schema[6].name);
    assert Get(d1, schema[7].name) == Get(d2, schema[7].name);
  }

  lemma APIQuotaStatusIgnoresUnknownKeys(d1: Object, d2: Object)
    requires AgreeOn(d1, d2, APIQuotaStatusSchema)
    ensures DecodeAPIQuotaStatus(d1) == DecodeAPIQuotaStatus(d2)
  {
    var schema := APIQuotaStatusSchema;
    SchemaErrorsIgnoreUnknownKeys(d1, d2, schema);
    assert Get(d1, schema[0].name) == Get(d2, schema[0].name);
    assert Get(d1, schema[1].name) == Get(d2, schema[1].name);
    assert Get(d1, schema[2].name) == Get(d2, schema[2].name);
  }
}
