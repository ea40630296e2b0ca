/** `process_incident` and the helpers it calls: the identifier and recency
    gates, decoding of the embedded `fiscal_data` and `fire_status`
    sub-records, the longitude sign fix, line-break stripping, the
    type-description table and the clear time; also `get_status_code`. */
module Normalizer {
  import opened Values
  import opened Host

  /** The dict literal `process_incident` returns (NWIM.py line 115-140),
      field for field. */
  datatype ProcessedIncident = ProcessedIncident(
    agency: string,
    jurisdiction: string,
    incidentId: Value,
    alternateId: Value,
    incidentTypeDescription: Value,
    latitude: Value,
    longitude: Value,
    statusUpdatedDatetime: Value,
    clearDatetime: Value,
    narrative: string,
    name: Value,
    ic: Value,
    acres: Value,
    fuels: Value,
    fireOut: Value,
    fireContain: Value,
    fireControl: Value,
    fireCode: Value,
    wfdssunit: Value,
    fsJobCode: Value,
    fsOverride: Value,
    fiscalComments: string,
    stateFiscalCode: Value,
    fireStatus: map<string, Value>)

  /** `is_recent_incident` for a string date: a date neither format parses
      makes it return False; otherwise the date must lie strictly after
      now - age_limit_months. (A non-string date makes `strptime` raise
      TypeError, which is not caught; see `NormalizerDefined`.) */
  predicate IsRecentIncident(date: string, env: Env)
  {
    match env.parseDate(date)
    case None => false
    case Some(t) => t > env.recentCutoff
  }

  /** `incident.get(key, {})`, decoded with `json.loads` when it is a string;
      a string that does not decode becomes `{}`. */
  function EmbeddedRecord(rec: map<string, Value>, key: string, env: Env): Value
  {
    match GetOr(rec, key, Obj(map[]))
    case Str(text) =>
      (match env.decodeJson(text)
       case Some(v) => v
       case None => Obj(map[]))
    case v => v
  }

  /** Prefix "-" unless the string is empty or already starts with "-". */
  function SignLongitude(s: string): (r: string)
    ensures r == s || r == "-" + s
    ensures s != "" ==> r[0] == '-'
    ensures s != "" && s[0] == '-' ==> r == s
    ensures s == "" ==> r == ""
  {
    if s != "" && s[0] != '-' then "-" + s else s
  }

  /** Applying the sign fix twice is the same as applying it once. */
  lemma SignLongitudeIdempotent(s: string)
    ensures SignLongitude(SignLongitude(s)) == SignLongitude(s)
  {
  }

  /** Line 87-89 on the value of `longitude`: a truthy value must be a
      string (anything else has no `startswith`). */
  function FixLongitude(v: Value): Value
    requires TextOrFalsy(v)
  {
    if Truthy(v) then Str(SignLongitude(v.s)) else v
  }

  /** `s.replace(c, d)` for single characters c and d. */
  function ReplaceChar(s: string, c: char, d: char): (r: string)
    ensures |r| == |s|
    ensures forall i :: 0 <= i < |s| ==> r[i] == (if s[i] == c then d else s[i])
    decreases |s|
  {
    if s == [] then [] else ReplaceChar(s[..|s| - 1], c, d) + [if s[|s| - 1] == c then d else s[|s| - 1]]
  }

  /** `.replace('\n', ' ').replace('\r', ' ')`: every line break becomes one
      space, so "\r\n" becomes two. */
  function StripLineBreaks(s: string): (r: string)
    ensures |r| == |s|
    ensures forall i :: 0 <= i < |r| ==> r[i] != '\n' && r[i] != '\r'
    ensures forall i :: 0 <= i < |s| ==> r[i] == (if s[i] == '\n' || s[i] == '\r' then ' ' else s[i])
  {
    ReplaceChar(ReplaceChar(s, '\n', ' '), '\r', ' ')
  }

  /** `x or ''` for a text field; a truthy value must be a string. */
  function TextField(v: Value): string
    requires TextOrFalsy(v)
  {
    if Truthy(v) then v.s else ""
  }

  /** The decision table of line 108-113. */
  function TypeDescription(fireStatus: map<string, Value>, rawType: Value): Value
  {
    var contain, control, out := Get(fireStatus, "contain"), Get(fireStatus, "control"), Get(fireStatus, "out");
    if Truthy(contain) && !Truthy(control) && !Truthy(out) then Str("Wildfire Contained")
    else if Truthy(contain) && Truthy(control) && !Truthy(out) then Str("Wildfire Controlled")
    else rawType
  }

  /** The status text is derived exactly when the fire is contained and not
      out; control then decides between the two texts; otherwise the raw
      type passes through. */
  lemma TypeDescriptionTable(fireStatus: map<string, Value>, rawType: Value)
    requires rawType != Str("Wildfire Contained") && rawType != Str("Wildfire Controlled")
    ensures var r := TypeDescription(fireStatus, rawType);
      && (r == Str("Wildfire Contained") <==>
            Truthy(Get(fireStatus, "contain")) && !Truthy(Get(fireStatus, "control")) && !Truthy(Get(fireStatus, "out")))
      && (r == Str("Wildfire Controlled") <==>
            Truthy(Get(fireStatus, "contain")) && Truthy(Get(fireStatus, "control")) && !Truthy(Get(fireStatus, "out")))
      && (r == rawType <==> !Truthy(Get(fireStatus, "contain")) || Truthy(Get(fireStatus, "out")))
  {
  }

  /** `get_status_code`: "Avail" when `out` is truthy, else "OnScene". */
  function GetStatusCode(fireStatus: map<string, Value>): string
  {
    if Truthy(Get(fireStatus, "out")) then "Avail" else "OnScene"
  }

  /** What `process_incident` needs of a record that gets past both gates,
      so that nothing in line 70-140 raises. */
  predicate ShapeDefined(rec: map<string, Value>, env: Env)
  {
    var fiscal := EmbeddedRecord(rec, "fiscal_data", env);
    && fiscal.Obj?
    && EmbeddedRecord(rec, "fire_status", env).Obj?
    && TextOrFalsy(GetOr(rec, "longitude", Str("")))
    && TextOrFalsy(GetOr(rec, "webComment", Str("")))
    && TextOrFalsy(GetOr(fiscal.fields, "fiscal_comments", Str("")))
  }

  /** `process_incident` does not raise on `rec`: a record with a truthy
      uuid has a string date, and one that is also recent has the shape
      above. */
  predicate NormalizerDefined(rec: map<string, Value>, env: Env)
  {
    Truthy(Get(rec, "uuid")) ==>
      Get(rec, "date").Str? &&
      (IsRecentIncident(Get(rec, "date").s, env) ==> ShapeDefined(rec, env))
  }

  /** The two gates of line 63-68: a truthy uuid and a recent date. */
  predicate Emits(rec: map<string, Value>, env: Env)
    requires NormalizerDefined(rec, env)
  {
    Truthy(Get(rec, "uuid")) && IsRecentIncident(Get(rec, "date").s, env)
  }

  /** `process_incident(incident, center_code, agency, age_limit_months)`. */
  function ProcessIncident(rec: map<string, Value>, centerCode: string, agency: string, env: Env)
    : (r: Option<ProcessedIncident>)
    requires NormalizerDefined(rec, env)
    ensures r.Some? <==> Emits(rec, env)
    ensures r.Some? ==>
      var p := r.value;
      var fireStatus := EmbeddedRecord(rec, "fire_status", env).fields;
      && p.incidentId == Get(rec, "uuid") && p.jurisdiction == centerCode && p.agency == agency
      && p.fireStatus == fireStatus
      && p.clearDatetime == Get(fireStatus, "out")
      && p.incidentTypeDescription == TypeDescription(fireStatus, GetOr(rec, "type", Str("")))
      && p.longitude == FixLongitude(GetOr(rec, "longitude", Str("")))
      && p.narrative == StripLineBreaks(TextField(GetOr(rec, "webComment", Str(""))))
      && p.fiscalComments ==
           StripLineBreaks(TextField(GetOr(EmbeddedRecord(rec, "fiscal_data", env).fields, "fiscal_comments", Str(""))))
      && (forall i :: 0 <= i < |p.narrative| ==> p.narrative[i] != '\n' && p.narrative[i] != '\r')
      && (forall i :: 0 <= i < |p.fiscalComments| ==> p.fiscalComments[i] != '\n' && p.fiscalComments[i] != '\r')
      && (p.longitude.Str? && p.longitude.s != "" ==> p.longitude.s[0] == '-')
  {
    var incidentId := Get(rec, "uuid");
    if !Truthy(incidentId) then None
    else if !IsRecentIncident(Get(rec, "date").s, env) then None
    else
      var fiscalData := EmbeddedRecord(rec, "fiscal_data", env).fields;
      var fireStatus := EmbeddedRecord(rec, "fire_status", env).fields;
      var longitude := FixLongitude(GetOr(rec, "longitude", Str("")));
      var webComment := StripLineBreaks(TextField(GetOr(rec, "webComment", Str(""))));
      var fiscalComments := StripLineBreaks(TextField(GetOr(fiscalData, "fiscal_comments", Str(""))));
      var fireOut := Get(fireStatus, "out");
      var clearDatetime := if fireOut != Null then fireOut else Null;
      Some(ProcessedIncident(
        agency := agency,
        jurisdiction := centerCode,
        incidentId := incidentId,
        alternateId := Get(rec, "inc_num"),
        incidentTypeDescription := TypeDescription(fireStatus, GetOr(rec, "type", Str(""))),
        latitude := Get(rec, "latitude"),
        longitude := longitude,
        statusUpdatedDatetime := GetOr(rec, "date", Str("Unknown")),
        clearDatetime := clearDatetime,
        narrative := webComment,
        name := Get(rec, "name"),
        ic := Get(rec, "ic"),
        acres := Get(rec, "acres"),
        fuels := Get(rec, "fuels"),
        fireOut := Get(fireStatus, "out"),
        fireContain := Get(fireStatus, "contain"),
        fireControl := Get(fireStatus, "control"),
        fireCode := Get(fiscalData, "fire_code"),
        wfdssunit := Get(fiscalData, "wfdssunit"),
        fsJobCode := Get(fiscalData, "fs_job_code"),
        fsOverride := Get(fiscalData, "fs_override"),
        fiscalComments := fiscalComments,
        stateFiscalCode := Get(fiscalData, "state_fiscal_code"),
        fireStatus := fireStatus))
  }

  /** A date neither format parses is "not recent": the record is dropped,
      not reported as an error. */
  lemma UnparseableDateDropped(rec: map<string, Value>, centerCode: string, agency: string, env: Env)
    requires NormalizerDefined(rec, env)
    requires Get(rec, "date").Str? && env.parseDate(Get(rec, "date").s).None?
    ensures ProcessIncident(rec, centerCode, agency, env).None?
  {
  }

  /** The recency cutoff is strict: a record dated exactly at
      now - age_limit_months is dropped, one dated later is kept. */
  lemma RecencyBoundary(rec: map<string, Value>, centerCode: string, agency: string, env: Env, t: int)
    requires NormalizerDefined(rec, env) && Truthy(Get(rec, "uuid"))
    requires Get(rec, "date").Str? && env.parseDate(Get(rec, "date").s) == Some(t)
    ensures ProcessIncident(rec, centerCode, agency, env).Some? <==> t > env.recentCutoff
  {
  }

  /** The status code and the release test of `process_center_data` read the
      same `out` field differently: "Avail" implies a clear time, but a clear
      time of `false` (or 0, or "") still releases while reporting "OnScene". */
  lemma StatusVersusClearTime(rec: map<string, Value>, centerCode: string, agency: string, env: Env)
    requires NormalizerDefined(rec, env) && Emits(rec, env)
    ensures var p := ProcessIncident(rec, centerCode, agency, env).value;
      && (GetStatusCode(p.fireStatus) == "Avail" ==> p.clearDatetime != Null)
      && (p.clearDatetime == Bool(false) ==> GetStatusCode(p.fireStatus) == "OnScene")
  {
  }
}
