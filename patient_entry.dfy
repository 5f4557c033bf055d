/**
 * The Patientor entry validator: `toNewEntry` parses an untyped request body
 * into one of three entry variants with a zod discriminated union on the
 * `type` field, and `parseDiagnosisCodes` reads a `diagnosisCodes` property
 * without checking it.
 *
 * zod's behaviour is modelled as it affects the result: an object schema
 * keeps only the keys it declares (so an `id` in the input never reaches
 * the entry), reports an issue for every failing field in declaration
 * order, and `z.string().date()` accepts exactly the `YYYY-MM-DD` calendar
 * dates (the full-date form of section 5.6 of RFC 3339).
 */
module PatientEntry {
  import opened Wrappers
  import opened Json
  import opened Text

  // ----- calendar dates -----

  predicate IsLeapYear(y: nat) {
    (y % 4 == 0 && y % 100 != 0) || y % 400 == 0
  }

  function DaysInMonth(y: nat, m: nat): (d: nat)
    requires 1 <= m <= 12
    ensures 28 <= d <= 31
    ensures d == 29 <==> m == 2 && IsLeapYear(y)
  {
    if m == 2 then (if IsLeapYear(y) then 29 else 28)
    else if m == 4 || m == 6 || m == 9 || m == 11 then 30
    else 31
  }

  /** The value of the decimal digit at index `i` of `s`. */
  function DigitAt(s: string, i: nat): nat
    requires i < |s| && IsDigit(s[i])
  {
    DigitValue(s[i])
  }

  /** `YYYY-MM-DD` naming a day that exists in the Gregorian calendar. */
  predicate IsDate(s: string) {
    && |s| == 10
    && s[4] == '-' && s[7] == '-'
    && IsDigit(s[0]) && IsDigit(s[1]) && IsDigit(s[2]) && IsDigit(s[3])
    && IsDigit(s[5]) && IsDigit(s[6]) && IsDigit(s[8]) && IsDigit(s[9])
    && var year := 1000 * DigitAt(s, 0) + 100 * DigitAt(s, 1) + 10 * DigitAt(s, 2) + DigitAt(s, 3);
       var month := 10 * DigitAt(s, 5) + DigitAt(s, 6);
       var day := 10 * DigitAt(s, 8) + DigitAt(s, 9);
       1 <= month <= 12 && 1 <= day <= DaysInMonth(year, month)
  }

  // ----- the parsed entry -----

  datatype SickLeave = SickLeave(startDate: string, endDate: string)

  datatype Discharge = Discharge(date: string, criteria: string)

  /** `EntryWithoutId`: the three variants with their shared and own fields. */
  datatype EntryWithoutId =
    | HealthCheck(description: string, date: string, specialist: string,
                  diagnosisCodes: Option<seq<string>>, healthCheckRating: int)
    | OccupationalHealthcare(description: string, date: string, specialist: string,
                             diagnosisCodes: Option<seq<string>>, employerName: string,
                             sickLeave: Option<SickLeave>)
    | Hospital(description: string, date: string, specialist: string,
               diagnosisCodes: Option<seq<string>>, discharge: Discharge)

  function TypeTag(e: EntryWithoutId): string {
    match e
    case HealthCheck(_, _, _, _, _) => "HealthCheck"
    case OccupationalHealthcare(_, _, _, _, _, _) => "OccupationalHealthcare"
    case Hospital(_, _, _, _, _) => "Hospital"
  }

  /** What a successfully parsed entry always satisfies. */
  predicate WellFormed(e: EntryWithoutId, ratings: set<int>) {
    && IsDate(e.date)
    && match e
       case HealthCheck(_, _, _, _, rating) => rating in ratings
       case OccupationalHealthcare(_, _, _, _, _, leave) =>
         leave.Some? ==> IsDate(leave.value.startDate) && IsDate(leave.value.endDate)
       case Hospital(_, _, _, _, discharge) => IsDate(discharge.date)
  }

  // ----- zod's error report -----

  datatype PathKey = Key(name: string) | Index(i: nat)

  datatype IssueCode = InvalidType | InvalidString | InvalidUnionDiscriminator | InvalidEnumValue

  datatype Issue = Issue(code: IssueCode, path: seq<PathKey>)

  datatype ZodError = ZodError(issues: seq<Issue>)

  // ----- the schema, stated declaratively -----

  predicate IsString(v: Option<Json>) {
    v.Some? && v.value.JStr?
  }

  predicate IsDateString(v: Option<Json>) {
    IsString(v) && IsDate(v.value.s)
  }

  predicate IsStringArray(v: Option<Json>) {
    v.Some? && v.value.JArr? && forall i :: 0 <= i < |v.value.items| ==> v.value.items[i].JStr?
  }

  /** The discriminator names one of the three variants. */
  predicate IsTag(v: Option<Json>) {
    v == Some(JStr("HealthCheck")) || v == Some(JStr("OccupationalHealthcare")) || v == Some(JStr("Hospital"))
  }

  /** The fields all three schemas share (utils.ts lines 14-17, 23-26, 36-39). */
  predicate SharedConforms(j: Json) {
    && IsString(Lookup(j, "description"))
    && IsDateString(Lookup(j, "date"))
    && IsString(Lookup(j, "specialist"))
    && (Lookup(j, "diagnosisCodes").None? || IsStringArray(Lookup(j, "diagnosisCodes")))
  }

  predicate SickLeaveConforms(v: Option<Json>) {
    v.None? ||
    (v.value.JObj? && IsDateString(Lookup(v.value, "startDate")) && IsDateString(Lookup(v.value, "endDate")))
  }

  predicate DischargeConforms(v: Option<Json>) {
    v.Some? && v.value.JObj? && IsDateString(Lookup(v.value, "date")) && IsString(Lookup(v.value, "criteria"))
  }

  predicate VariantConforms(j: Json, tag: string, ratings: set<int>) {
    if tag == "HealthCheck" then
      var r := Lookup(j, "healthCheckRating");
      r.Some? && r.value.JNum? && r.value.n in ratings
    else if tag == "OccupationalHealthcare" then
      IsString(Lookup(j, "employerName")) && SickLeaveConforms(Lookup(j, "sickLeave"))
    else
      DischargeConforms(Lookup(j, "discharge"))
  }

  /** The input is an object accepted by `EntrySchema`. */
  predicate Conforms(j: Json, ratings: set<int>) {
    && j.JObj?
    && IsTag(Lookup(j, "type"))
    && SharedConforms(j)
    && VariantConforms(j, Lookup(j, "type").value.s, ratings)
  }

  /** Every schema field of `e` equals the input's field of the same name. */
  predicate Matches(j: Json, e: EntryWithoutId) {
    && Lookup(j, "type") == Some(JStr(TypeTag(e)))
    && Lookup(j, "description") == Some(JStr(e.description))
    && Lookup(j, "date") == Some(JStr(e.date))
    && Lookup(j, "specialist") == Some(JStr(e.specialist))
    && (match e.diagnosisCodes
        case None => Lookup(j, "diagnosisCodes").None?
        case Some(codes) => Lookup(j, "diagnosisCodes") == Some(StringArray(codes)))
    && match e
       case HealthCheck(_, _, _, _, rating) =>
         Lookup(j, "healthCheckRating") == Some(JNum(rating))
       case OccupationalHealthcare(_, _, _, _, employer, leave) =>
         && Lookup(j, "employerName") == Some(JStr(employer))
         && (match leave
             case None => Lookup(j, "sickLeave").None?
             case Some(l) =>
               var v := Lookup(j, "sickLeave");
               && v.Some?
               && Lookup(v.value, "startDate") == Some(JStr(l.startDate))
               && Lookup(v.value, "endDate") == Some(JStr(l.endDate)))
       case Hospital(_, _, _, _, d) =>
         var v := Lookup(j, "discharge");
         && v.Some?
         && Lookup(v.value, "date") == Some(JStr(d.date))
         && Lookup(v.value, "criteria") == Some(JStr(d.criteria))
  }

  // ----- the parser, field by field as zod reports -----

  function StringIssues(v: Option<Json>, path: seq<PathKey>): (r: seq<Issue>)
    ensures r == [] <==> IsString(v)
  {
    if IsString(v) then [] else [Issue(InvalidType, path)]
  }

  function DateIssues(v: Option<Json>, path: seq<PathKey>): (r: seq<Issue>)
    ensures r == [] <==> IsDateString(v)
  {
    if !IsString(v) then [Issue(InvalidType, path)]
    else if IsDate(v.value.s) then []
    else [Issue(InvalidString, path)]
  }

  /** One `invalid_type` issue per array element that is not a string. */
  function ElementIssues(items: seq<Json>, path: seq<PathKey>): (r: seq<Issue>)
    ensures r == [] <==> forall i :: 0 <= i < |items| ==> items[i].JStr?
  {
    if items == [] then []
    else
      var n := |items| - 1;
      ElementIssues(items[..n], path) + (if items[n].JStr? then [] else [Issue(InvalidType, path + [Index(n)])])
  }

  function OptionalStringArrayIssues(v: Option<Json>, path: seq<PathKey>): (r: seq<Issue>)
    ensures r == [] <==> v.None? || IsStringArray(v)
  {
    match v
    case None => []
    case Some(JArr(items)) => ElementIssues(items, path)
    case Some(_) => [Issue(InvalidType, path)]
  }

  /** `z.nativeEnum`: numbers and strings are compared with the enum's values, anything else is a type error. */
  function RatingIssues(v: Option<Json>, ratings: set<int>, path: seq<PathKey>): (r: seq<Issue>)
    ensures r == [] <==> v.Some? && v.value.JNum? && v.value.n in ratings
  {
    if v.Some? && v.value.JNum? then (if v.value.n in ratings then [] else [Issue(InvalidEnumValue, path)])
    else if v.Some? && v.value.JStr? then [Issue(InvalidEnumValue, path)]
    else [Issue(InvalidType, path)]
  }

  function SickLeaveIssues(v: Option<Json>, path: seq<PathKey>): (r: seq<Issue>)
    ensures r == [] <==> SickLeaveConforms(v)
  {
    if v.None? then []
    else if !v.value.JObj? then [Issue(InvalidType, path)]
    else
      DateIssues(Lookup(v.value, "startDate"), path + [Key("startDate")])
      + DateIssues(Lookup(v.value, "endDate"), path + [Key("endDate")])
  }

  function DischargeIssues(v: Option<Json>, path: seq<PathKey>): (r: seq<Issue>)
    ensures r == [] <==> DischargeConforms(v)
  {
    if v.None? || !v.value.JObj? then [Issue(InvalidType, path)]
    else
      DateIssues(Lookup(v.value, "date"), path + [Key("date")])
      + StringIssues(Lookup(v.value, "criteria"), path + [Key("criteria")])
  }

  function SharedIssues(j: Json): (r: seq<Issue>)
    ensures r == [] <==> SharedConforms(j)
  {
    StringIssues(Lookup(j, "description"), [Key("description")])
    + DateIssues(Lookup(j, "date"), [Key("date")])
    + StringIssues(Lookup(j, "specialist"), [Key("specialist")])
    + OptionalStringArrayIssues(Lookup(j, "diagnosisCodes"), [Key("diagnosisCodes")])
  }

  function VariantIssues(j: Json, tag: string, ratings: set<int>): (r: seq<Issue>)
    ensures r == [] <==> VariantConforms(j, tag, ratings)
  {
    if tag == "HealthCheck" then
      RatingIssues(Lookup(j, "healthCheckRating"), ratings, [Key("healthCheckRating")])
    else if tag == "OccupationalHealthcare" then
      StringIssues(Lookup(j, "employerName"), [Key("employerName")])
      + SickLeaveIssues(Lookup(j, "sickLeave"), [Key("sickLeave")])
    else
      DischargeIssues(Lookup(j, "discharge"), [Key("discharge")])
  }

  /** The strings of a JSON array of strings. */
  function Strings(items: seq<Json>): (ss: seq<string>)
    requires forall i :: 0 <= i < |items| ==> items[i].JStr?
    ensures StringArray(ss) == JArr(items)
  {
    var ss := seq(|items|, i requires 0 <= i < |items| => items[i].s);
    assert StringArray(ss).items == items;
    ss
  }

  function CodesOf(v: Option<Json>): Option<seq<string>>
    requires v.None? || IsStringArray(v)
  {
    if v.None? then None else Some(Strings(v.value.items))
  }

  /** The entry zod returns for an accepted input: the declared fields only. */
  function Build(j: Json, ratings: set<int>): (e: EntryWithoutId)
    requires Conforms(j, ratings)
    ensures Matches(j, e) && WellFormed(e, ratings)
  {
    var tag := Lookup(j, "type").value.s;
    if tag == "HealthCheck" then BuildHealthCheck(j, ratings)
    else if tag == "OccupationalHealthcare" then BuildOccupational(j, ratings)
    else BuildHospital(j, ratings)
  }

  function BuildHealthCheck(j: Json, ratings: set<int>): (e: EntryWithoutId)
    requires Conforms(j, ratings) && Lookup(j, "type") == Some(JStr("HealthCheck"))
    ensures Matches(j, e) && WellFormed(e, ratings)
  {
    HealthCheck(Lookup(j, "description").value.s, Lookup(j, "date").value.s, Lookup(j, "specialist").value.s,
                CodesOf(Lookup(j, "diagnosisCodes")), Lookup(j, "healthCheckRating").value.n)
  }

  function BuildOccupational(j: Json, ratings: set<int>): (e: EntryWithoutId)
    requires Conforms(j, ratings) && Lookup(j, "type") == Some(JStr("OccupationalHealthcare"))
    ensures Matches(j, e) && WellFormed(e, ratings)
  {
    var leave := Lookup(j, "sickLeave");
    OccupationalHealthcare(Lookup(j, "description").value.s, Lookup(j, "date").value.s, Lookup(j, "specialist").value.s,
      CodesOf(Lookup(j, "diagnosisCodes")), Lookup(j, "employerName").value.s,
      if leave.None? then None
      else Some(SickLeave(Lookup(leave.value, "startDate").value.s, Lookup(leave.value, "endDate").value.s)))
  }

  function BuildHospital(j: Json, ratings: set<int>): (e: EntryWithoutId)
    requires Conforms(j, ratings) && Lookup(j, "type") == Some(JStr("Hospital"))
    ensures Matches(j, e) && WellFormed(e, ratings)
  {
    var d := Lookup(j, "discharge").value;
    Hospital(Lookup(j, "description").value.s, Lookup(j, "date").value.s, Lookup(j, "specialist").value.s,
             CodesOf(Lookup(j, "diagnosisCodes")), Discharge(Lookup(d, "date").value.s, Lookup(d, "criteria").value.s))
  }

  /**
   * `toNewEntry`: `EntrySchema.parse` (an object whose `type` picks one of
   * three object schemas) followed by dropping `id`. A failed parse is the
   * thrown `ZodError`.
   */
  function ToNewEntry(j: Json, ratings: set<int>): (r: Result<EntryWithoutId, ZodError>)
    ensures r.Success? <==> Conforms(j, ratings)
    ensures r.Success? ==> Matches(j, r.value) && WellFormed(r.value, ratings)
    ensures r.Failure? ==> r.error.issues != []
    ensures !j.JObj? ==> r == Failure(ZodError([Issue(InvalidType, [])]))
    ensures j.JObj? && !IsTag(Lookup(j, "type")) ==>
              r == Failure(ZodError([Issue(InvalidUnionDiscriminator, [Key("type")])]))
  {
    if !j.JObj? then Failure(ZodError([Issue(InvalidType, [])]))
    else
      var t := Lookup(j, "type");
      if !IsTag(t) then Failure(ZodError([Issue(InvalidUnionDiscriminator, [Key("type")])]))
      else
        var issues := SharedIssues(j) + VariantIssues(j, t.value.s, ratings);
        if issues != [] then Failure(ZodError(issues))
        else Success(Build(j, ratings))
  }

  /**
   * `parseDiagnosisCodes`: the `diagnosisCodes` property of an object,
   * unchecked, or `[]` when the input is falsy, not an object or lacks the key.
   */
  function ParseDiagnosisCodes(j: Json): (r: Json)
    ensures Lookup(j, "diagnosisCodes").Some? ==> r == Lookup(j, "diagnosisCodes").value
    ensures Lookup(j, "diagnosisCodes").None? ==> r == JArr([])
  {
    match j
    case JObj(fields) => if "diagnosisCodes" in fields then fields["diagnosisCodes"] else JArr([])
    case _ => JArr([])
  }

  // ----- properties -----

  /** The body a client sends for `e`. */
  function EntryToJson(e: EntryWithoutId): Json {
    var shared := map["type" := JStr(TypeTag(e)), "description" := JStr(e.description),
                      "date" := JStr(e.date), "specialist" := JStr(e.specialist)];
    var withCodes := if e.diagnosisCodes.Some? then shared["diagnosisCodes" := StringArray(e.diagnosisCodes.value)] else shared;
    match e
    case HealthCheck(_, _, _, _, rating) =>
      JObj(withCodes["healthCheckRating" := JNum(rating)])
    case OccupationalHealthcare(_, _, _, _, employer, leave) =>
      var m := withCodes["employerName" := JStr(employer)];
      JObj(if leave.None? then m
           else m["sickLeave" := JObj(map["startDate" := JStr(leave.value.startDate), "endDate" := JStr(leave.value.endDate)])])
    case Hospital(_, _, _, _, d) =>
      JObj(withCodes["discharge" := JObj(map["date" := JStr(d.date), "criteria" := JStr(d.criteria)])])
  }

  /** A field-by-field match fixes the entry: the parse result is determined by the input. */
  lemma MatchesUnique(j: Json, e1: EntryWithoutId, e2: EntryWithoutId)
    requires Matches(j, e1) && Matches(j, e2)
    ensures e1 == e2
  {
    if e1.diagnosisCodes.Some? {
      StringArrayInjective(e1.diagnosisCodes.value, e2.diagnosisCodes.value);
    }
  }

  lemma StringArrayInjective(a: seq<string>, b: seq<string>)
    requires StringArray(a) == StringArray(b)
    ensures a == b
  {
    assert |a| == |b|;
    forall i | 0 <= i < |a| ensures a[i] == b[i] {
      assert StringArray(a).items[i] == JStr(a[i]);
    }
  }

  /** Every well-formed entry, sent as its JSON body, parses back to itself. */
  lemma RoundTrip(e: EntryWithoutId, ratings: set<int>)
    requires WellFormed(e, ratings)
    ensures ToNewEntry(EntryToJson(e), ratings) == Success(e)
  {
    var j := EntryToJson(e);
    EncodingConforms(e, ratings);
    EncodingMatches(e);
    MatchesUnique(j, ToNewEntry(j, ratings).value, e);
  }

  lemma EncodingMatches(e: EntryWithoutId)
    ensures Matches(EntryToJson(e), e)
  {
  }

  lemma EncodingConforms(e: EntryWithoutId, ratings: set<int>)
    requires WellFormed(e, ratings)
    ensures Conforms(EntryToJson(e), ratings)
  {
    var j := EntryToJson(e);
    EncodingMatches(e);
    assert IsTag(Lookup(j, "type"));
    assert IsDateString(Lookup(j, "date"));
    if e.diagnosisCodes.Some? {
      assert IsStringArray(Lookup(j, "diagnosisCodes"));
    }
    assert SharedConforms(j);
    match e
    case HealthCheck(_, _, _, _, _) =>
    case OccupationalHealthcare(_, _, _, _, _, leave) =>
      if leave.Some? {
        var v := Lookup(j, "sickLeave").value;
        assert IsDateString(Lookup(v, "startDate"));
      }
    case Hospital(_, _, _, _, _) =>
  }

  /** The names the three schemas declare; every other key is stripped. */
  predicate IsSchemaKey(k: string) {
    k in {"type", "description", "date", "specialist", "diagnosisCodes",
          "healthCheckRating", "employerName", "sickLeave", "discharge"}
  }

  /** An undeclared key such as `id` changes nothing: the result never carries it. */
  lemma {:induction false} UndeclaredKeyIgnored(m: map<string, Json>, k: string, v: Json, ratings: set<int>)
    requires !IsSchemaKey(k)
    ensures ToNewEntry(JObj(m[k := v]), ratings) == ToNewEntry(JObj(m), ratings)
  {
    var a, b := JObj(m[k := v]), JObj(m);
    forall key | IsSchemaKey(key) ensures Lookup(a, key) == Lookup(b, key) { }
    assert Lookup(a, "type") == Lookup(b, "type");
    if IsTag(Lookup(b, "type")) {
      assert SharedIssues(a) == SharedIssues(b);
      assert VariantIssues(a, Lookup(a, "type").value.s, ratings) == VariantIssues(b, Lookup(b, "type").value.s, ratings);
      if Conforms(b, ratings) {
        MatchesUnique(b, ToNewEntry(a, ratings).value, ToNewEntry(b, ratings).value);
      }
    }
  }

  /** The fields a variant requires, besides `type`. */
  function RequiredKeys(tag: string): seq<string> {
    ["description", "date", "specialist"] +
    (if tag == "HealthCheck" then ["healthCheckRating"]
     else if tag == "OccupationalHealthcare" then ["employerName"]
     else ["discharge"])
  }

  /** A missing required field fails the parse with a type issue naming that field. */
  lemma MissingFieldNamed(j: Json, ratings: set<int>, k: string)
    requires j.JObj? && IsTag(Lookup(j, "type"))
    requires k in RequiredKeys(Lookup(j, "type").value.s) && k !in j.fields
    ensures ToNewEntry(j, ratings).Failure?
    ensures Issue(InvalidType, [Key(k)]) in ToNewEntry(j, ratings).error.issues
  {
    var tag := Lookup(j, "type").value.s;
    var shared := SharedIssues(j);
    var variant := VariantIssues(j, tag, ratings);
    assert SharedIssues(j) + variant == ToNewEntry(j, ratings).error.issues;
    if k == "description" || k == "date" || k == "specialist" {
      assert Issue(InvalidType, [Key(k)]) in shared;
    } else {
      assert Issue(InvalidType, [Key(k)]) in variant;
    }
  }

  /** A `date` that is a string but not a calendar date fails with a string-format issue on that field. */
  lemma BadDateNamed(j: Json, ratings: set<int>, s: string)
    requires j.JObj? && IsTag(Lookup(j, "type"))
    requires Lookup(j, "date") == Some(JStr(s)) && !IsDate(s)
    ensures ToNewEntry(j, ratings).Failure?
    ensures Issue(InvalidString, [Key("date")]) in ToNewEntry(j, ratings).error.issues
  {
    var tag := Lookup(j, "type").value.s;
    assert Issue(InvalidString, [Key("date")]) in SharedIssues(j);
    assert SharedIssues(j) + VariantIssues(j, tag, ratings) == ToNewEntry(j, ratings).error.issues;
  }

  /** The cast in `parseDiagnosisCodes` is unchecked: a non-array comes back as it is. */
  lemma ParseDiagnosisCodesUnchecked()
    ensures ParseDiagnosisCodes(JObj(map["diagnosisCodes" := JNum(5)])) == JNum(5)
    ensures ParseDiagnosisCodes(JNull) == JArr([])
    ensures ParseDiagnosisCodes(JArr([JStr("Z57.1")])) == JArr([])
  {
  }

  lemma DateExamples()
    ensures IsDate("2024-01-01") && IsDate("2024-02-29") && IsDate("2000-02-29")
    ensures !IsDate("2023-02-29") && !IsDate("1900-02-29") && !IsDate("2024-04-31") && !IsDate("2024-1-01")
  {
  }
}
