/** End-to-end runs of one page through `process_center_data`'s filter,
    normalizer and unit rule: a contained wildfire that is still burning, and
    the same wildfire once it is out. */
module Scenarios {
  import opened Values
  import opened Host
  import opened Allocator
  import opened Filter
  import opened Normalizer
  import opened CenterProcessor

  function FireStatus(contain: bool, control: bool, out: bool): Value
  {
    Obj(map["contain" := Bool(contain), "control" := Bool(control), "out" := Bool(out)])
  }

  /** A record of the given type at 34.1 N, 112.5 W, written without the sign. */
  function RawIncident(uuid: string, incidentType: string, date: string, fireStatus: Value): Value
  {
    Obj(map[
      "uuid" := Str(uuid),
      "type" := Str(incidentType),
      "latitude" := Str("34.1"),
      "longitude" := Str("112.5"),
      "date" := Str(date),
      "fire_status" := fireStatus])
  }

  /** The fields the pipeline reads from a `RawIncident`. */
  lemma RawIncidentFields(uuid: string, incidentType: string, date: string, fireStatus: Value)
    ensures var rec := RawIncident(uuid, incidentType, date, fireStatus).fields;
      && Get(rec, "uuid") == Str(uuid)
      && "type" in rec && rec["type"] == Str(incidentType) && Get(rec, "type") == Str(incidentType)
      && GetOr(rec, "type", Str("")) == Str(incidentType)
      && Get(rec, "latitude") == Str("34.1")
      && Get(rec, "longitude") == Str("112.5") && GetOr(rec, "longitude", Str("")) == Str("112.5")
      && Get(rec, "date") == Str(date)
      && GetOr(rec, "fire_status", Obj(map[])) == fireStatus
      && GetOr(rec, "fiscal_data", Obj(map[])) == Obj(map[])
      && GetOr(rec, "webComment", Str("")) == Str("")
  {
  }

  lemma FireStatusFields(contain: bool, control: bool, out: bool)
    ensures var m := FireStatus(contain, control, out).fields;
      Get(m, "contain") == Bool(contain) && Get(m, "control") == Bool(control) && Get(m, "out") == Bool(out)
  {
  }

  /** Coordinates 34.1 and 112.5, both accepted by `float`. */
  predicate AtSite(rec: map<string, Value>, env: Env)
  {
    && Get(rec, "latitude") == Str("34.1") && Get(rec, "longitude") == Str("112.5")
    && GetOr(rec, "longitude", Str("")) == Str("112.5")
    && env.isFloat("34.1") && env.isFloat("112.5")
  }

  /** An aircraft record at the site. */
  predicate AircraftRecord(rec: map<string, Value>, env: Env)
  {
    "type" in rec && rec["type"] == Str("Aircraft") && AtSite(rec, env)
  }

  /** A wildfire record at the site with uuid "w-1", a recent date, no
      fiscal data or comment, and fire status `status`. */
  predicate WildfireRecord(rec: map<string, Value>, status: map<string, Value>, env: Env)
  {
    && "type" in rec && rec["type"] == Str("Wildfire") && Get(rec, "type") == Str("Wildfire")
    && GetOr(rec, "type", Str("")) == Str("Wildfire")
    && AtSite(rec, env)
    && Get(rec, "uuid") == Str("w-1")
    && Get(rec, "date").Str? && env.parseDate(Get(rec, "date").s).Some?
    && env.parseDate(Get(rec, "date").s).value > env.recentCutoff
    && GetOr(rec, "fire_status", Obj(map[])) == Obj(status)
    && GetOr(rec, "fiscal_data", Obj(map[])) == Obj(map[])
    && GetOr(rec, "webComment", Str("")) == Str("")
  }

  /** `RawIncident` builds records of both kinds. */
  lemma RawIncidentKinds(date: string, status: map<string, Value>, env: Env)
    requires env.isFloat("34.1") && env.isFloat("112.5")
    requires env.parseDate(date).Some? && env.parseDate(date).value > env.recentCutoff
    ensures AircraftRecord(RawIncident("a-1", "Aircraft", date, FireStatus(false, false, false)).fields, env)
    ensures WildfireRecord(RawIncident("w-1", "Wildfire", date, Obj(status)).fields, status, env)
  {
    RawIncidentFields("a-1", "Aircraft", date, FireStatus(false, false, false));
    RawIncidentFields("w-1", "Wildfire", date, Obj(status));
  }

  /** The aircraft record is dropped by the type filter. */
  lemma AircraftDropped(rec: map<string, Value>, env: Env)
    requires AircraftRecord(rec, env)
    ensures FilterDefined(rec, env) && !Admitted(rec, env)
  {
    assert "Aircraft" in ExcludedTypes;
  }

  /** The wildfire record passes the filter and both gates, and
      `process_incident` turns it into an incident with the sign added to its
      longitude, its fire status carried over and its clear time equal to
      the status's `out`. */
  lemma WildfireProcessed(rec: map<string, Value>, status: map<string, Value>, centerCode: string, agency: string, env: Env)
    requires WildfireRecord(rec, status, env)
    ensures FilterDefined(rec, env) && Admitted(rec, env)
    ensures NormalizerDefined(rec, env) && Emits(rec, env)
    ensures var p := ProcessIncident(rec, centerCode, agency, env).value;
      && p.incidentId == Str("w-1")
      && p.longitude == Str("-112.5")
      && p.clearDatetime == Get(status, "out")
      && p.fireStatus == status
      && p.incidentTypeDescription == TypeDescription(status, Str("Wildfire"))
  {
    assert "Wildfire" !in ExcludedTypes && "Wildfire" != PrescribedFire;
    assert "-" + "112.5" == "-112.5";
  }

  /** The filter on two records, the first rejected and the second kept. */
  lemma FilterPair(x: map<string, Value>, y: map<string, Value>, env: Env)
    requires ItemDefined(Obj(x), env) && ItemDefined(Obj(y), env)
    requires !Admitted(x, env) && Admitted(y, env)
    ensures FilterIncidents([Obj(x), Obj(y)], env) == [y]
  {
    var items := [Obj(x), Obj(y)];
    assert items[..1] == [Obj(x)] && items[..1][..0] == [];
    assert FilterIncidents(items[..1], env) == [];
  }

  /** A page holding two records is a data page the loop can process. */
  lemma PairPage(x: map<string, Value>, y: map<string, Value>, env: Env)
    requires ItemDefined(Obj(x), env) && ItemDefined(Obj(y), env)
    ensures var page := Obj(map["data" := Arr([Obj(x), Obj(y)])]);
      && DataPage(page) && page.fields["data"].items == [Obj(x), Obj(y)] && PageDefined(page, env)
  {
  }

  lemma ProcessedOne(rec: map<string, Value>, centerCode: string, agency: string, env: Env)
    requires NormalizerDefined(rec, env) && Emits(rec, env)
    ensures Processed([rec], centerCode, agency, env) == [ProcessIncident(rec, centerCode, agency, env).value]
  {
    assert [rec][..0] == [];
  }

  /** Of a page holding the aircraft and then the wildfire record, only the
      wildfire survives. */
  lemma MixedPageSurvivors(aircraft: map<string, Value>, wildfire: map<string, Value>, status: map<string, Value>,
                           centerCode: string, agency: string, env: Env)
    requires AircraftRecord(aircraft, env) && WildfireRecord(wildfire, status, env)
    ensures var page := Obj(map["data" := Arr([Obj(aircraft), Obj(wildfire)])]);
      && PageDefined(page, env)
      && NormalizerDefined(wildfire, env)
      && Emits(wildfire, env)
      && PageSurvivors(page, centerCode, agency, env) == [ProcessIncident(wildfire, centerCode, agency, env).value]
  {
    AircraftDropped(aircraft, env);
    WildfireProcessed(wildfire, status, centerCode, agency, env);
    assert ItemDefined(Obj(aircraft), env);
    assert ItemDefined(Obj(wildfire), env);
    PairPage(aircraft, wildfire, env);
    FilterPair(aircraft, wildfire, env);
    ProcessedOne(wildfire, centerCode, agency, env);
  }

  /** The aircraft record is filtered out; the wildfire, contained but neither
      controlled nor out, becomes the page's only incident, described as
      "Wildfire Contained", with its longitude signed and its clear time the
      `false` its `out` field holds (not null). */
  lemma ContainedWildfire(aircraft: map<string, Value>, wildfire: map<string, Value>, centerCode: string, agency: string, env: Env)
    requires AircraftRecord(aircraft, env) && WildfireRecord(wildfire, FireStatus(true, false, false).fields, env)
    ensures var page := Obj(map["data" := Arr([Obj(aircraft), Obj(wildfire)])]);
      && PageDefined(page, env)
      && var ps := PageSurvivors(page, centerCode, agency, env);
      && |ps| == 1
      && ps[0].incidentId == Str("w-1")
      && ps[0].incidentTypeDescription == Str("Wildfire Contained")
      && ps[0].longitude == Str("-112.5")
      && ps[0].clearDatetime == Bool(false)
      && GetStatusCode(ps[0].fireStatus) == "OnScene"
  {
    var status := FireStatus(true, false, false).fields;
    MixedPageSurvivors(aircraft, wildfire, status, centerCode, agency, env);
    WildfireProcessed(wildfire, status, centerCode, agency, env);
    FireStatusFields(true, false, false);
  }

  /** The contained wildfire's clear time is `false`, which is not None, so
      if it already held a unit the unit rule gives that unit back even
      though the fire is not out. */
  lemma ContainedWildfireReleasesUnit(aircraft: map<string, Value>, wildfire: map<string, Value>, centerCode: string,
                                      agency: string, env: Env, a: Allocation)
    requires AircraftRecord(aircraft, env) && WildfireRecord(wildfire, FireStatus(true, false, false).fields, env)
    requires Str("w-1") in a.mapping
    ensures var page := Obj(map["data" := Arr([Obj(aircraft), Obj(wildfire)])]);
      && PageDefined(page, env)
      && var ps := PageSurvivors(page, centerCode, agency, env);
      && |ps| == 1
      && GetStatusCode(ps[0].fireStatus) == "OnScene"
      && var r := ApplyAll(a, ps);
      && Str("w-1") !in r.mapping
      && r.pool == a.pool + [a.mapping[Str("w-1")]]
  {
    var status := FireStatus(true, false, false).fields;
    MixedPageSurvivors(aircraft, wildfire, status, centerCode, agency, env);
    WildfireProcessed(wildfire, status, centerCode, agency, env);
    FireStatusFields(true, false, false);
    var p := ProcessIncident(wildfire, centerCode, agency, env).value;
    OneIncident(a, p, {}, map[], map[centerCode := []], centerCode);
    UpdateUnitsOutcome(a, p.incidentId, true);
  }

  /** When the same wildfire is reported out, it still survives, with clear
      time `true`, and because it held a unit the unit rule gives that unit
      back: the incident is unmapped and the unit is the last in the pool. */
  lemma WildfireOutReleasesUnit(aircraft: map<string, Value>, wildfire: map<string, Value>, centerCode: string, agency: string,
                                env: Env, a: Allocation)
    requires AircraftRecord(aircraft, env) && WildfireRecord(wildfire, FireStatus(true, true, true).fields, env)
    requires Str("w-1") in a.mapping
    ensures var page := Obj(map["data" := Arr([Obj(aircraft), Obj(wildfire)])]);
      && PageDefined(page, env)
      && var ps := PageSurvivors(page, centerCode, agency, env);
      && |ps| == 1
      && ps[0].clearDatetime == Bool(true)
      && ps[0].incidentTypeDescription == Str("Wildfire")
      && GetStatusCode(ps[0].fireStatus) == "Avail"
      && var r := ApplyAll(a, ps);
      && Str("w-1") !in r.mapping
      && r.pool == a.pool + [a.mapping[Str("w-1")]]
  {
    var status := FireStatus(true, true, true).fields;
    MixedPageSurvivors(aircraft, wildfire, status, centerCode, agency, env);
    WildfireProcessed(wildfire, status, centerCode, agency, env);
    FireStatusFields(true, true, true);
    var p := ProcessIncident(wildfire, centerCode, agency, env).value;
    OneIncident(a, p, {}, map[], map[centerCode := []], centerCode);
    UpdateUnitsOutcome(a, p.incidentId, true);
  }
}
