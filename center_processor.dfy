/** `process_center_data` and the unit re-assignment loop of `main`, over the
    run-scoped state they share: the unit mapping, the pool of released
    units and the per-center list of processed incidents. The functions
    first say what one center's batch produces; the class `RunState` then
    holds the state the source mutates in place, and its methods are proved
    to update it as those functions say. */
module CenterProcessor {
  import opened Values
  import opened Host
  import opened Allocator
  import opened Filter
  import opened Normalizer

  /** Python's `'data' in s` for a string page: a substring test. */
  predicate ContainsData(s: string)
    decreases |s|
  {
    |s| >= 4 && (s[..4] == "data" || ContainsData(s[1..]))
  }

  /** A page whose `data` entry is a list: the only kind that is processed. */
  predicate DataPage(page: Value)
  {
    page.Obj? && "data" in page.fields && page.fields["data"].Arr?
  }

  /** The filter and `process_incident` do not raise on `item`, and a record
      that comes out of both has a hashable uuid (it goes into a set and is
      used as a dict key). */
  predicate ItemDefined(item: Value, env: Env)
  {
    && item.Obj?
    && FilterDefined(item.fields, env)
    && (Admitted(item.fields, env) ==>
          NormalizerDefined(item.fields, env) &&
          (Emits(item.fields, env) ==> Hashable(Get(item.fields, "uuid"))))
  }

  /** Line 170 and the loop over `data` do not raise: a dict page is fine
      (its records must be); a list or string page is skipped when "data" is
      not in it and raises TypeError when it is; None, booleans and numbers
      raise at `in`. */
  predicate PageDefined(page: Value, env: Env)
  {
    match page
    case Obj(m) =>
      DataPage(page) ==> forall k :: 0 <= k < |m["data"].items| ==> ItemDefined(m["data"].items[k], env)
    case Arr(xs) => Str("data") !in xs
    case Str(s) => !ContainsData(s)
    case _ => false
  }

  /** `process_center_data` does not raise on `response`. */
  predicate ResponseDefined(response: Value, env: Env)
  {
    response.Arr? ==> forall k :: 0 <= k < |response.items| ==> PageDefined(response.items[k], env)
  }

  /** The list comprehension of line 173-178, on the records' dicts. */
  function FilterIncidents(items: seq<Value>, env: Env): (r: seq<map<string, Value>>)
    requires forall k :: 0 <= k < |items| ==> ItemDefined(items[k], env)
    ensures |r| <= |items|
    ensures forall x :: x in r ==>
      Obj(x) in items && FilterDefined(x, env) && Admitted(x, env) && NormalizerDefined(x, env) &&
      (Emits(x, env) ==> Hashable(Get(x, "uuid")))
    ensures forall x :: Obj(x) in items && FilterDefined(x, env) && Admitted(x, env) ==> x in r
    decreases |items|
  {
    if items == [] then []
    else
      var last := items[|items| - 1];
      assert ItemDefined(last, env);
      FilterIncidents(items[..|items| - 1], env) + (if Admitted(last.fields, env) then [last.fields] else [])
  }

  /** The records `process_incident` turns into incidents, in order. */
  function Processed(recs: seq<map<string, Value>>, centerCode: string, agency: string, env: Env)
    : (r: seq<ProcessedIncident>)
    requires forall x :: x in recs ==> NormalizerDefined(x, env)
    ensures |r| <= |recs|
    decreases |recs|
  {
    if recs == [] then []
    else
      var init := Processed(recs[..|recs| - 1], centerCode, agency, env);
      match ProcessIncident(recs[|recs| - 1], centerCode, agency, env)
      case Some(p) => init + [p]
      case None => init
  }

  /** What one page contributes. */
  function PageSurvivors(page: Value, centerCode: string, agency: string, env: Env): seq<ProcessedIncident>
    requires PageDefined(page, env)
  {
    if DataPage(page) then Processed(FilterIncidents(page.fields["data"].items, env), centerCode, agency, env)
    else []
  }

  /** The incidents a sequence of pages yields, in processing order. */
  function Survivors(pages: seq<Value>, centerCode: string, agency: string, env: Env): seq<ProcessedIncident>
    requires forall k :: 0 <= k < |pages| ==> PageDefined(pages[k], env)
    decreases |pages|
  {
    if pages == [] then []
    else Survivors(pages[..|pages| - 1], centerCode, agency, env) + PageSurvivors(pages[|pages| - 1], centerCode, agency, env)
  }

  /** The incidents one center's response yields; none unless it is a list. */
  function CenterSurvivors(response: Value, centerCode: string, agency: string, env: Env): seq<ProcessedIncident>
    requires ResponseDefined(response, env)
  {
    if response.Arr? then Survivors(response.items, centerCode, agency, env) else []
  }

  predicate HasDataPage(pages: seq<Value>)
    decreases |pages|
  {
    pages != [] && (HasDataPage(pages[..|pages| - 1]) || DataPage(pages[|pages| - 1]))
  }

  /** Whether the response creates the center's entry in `all_center_data`. */
  predicate CenterHasData(response: Value)
  {
    response.Arr? && HasDataPage(response.items)
  }

  /** `current_uuids`: the ids of the incidents. */
  function Ids(ps: seq<ProcessedIncident>): set<Value>
    decreases |ps|
  {
    if ps == [] then {} else Ids(ps[..|ps| - 1]) + {ps[|ps| - 1].incidentId}
  }

  /** `incident_dict`: each id maps to the last incident carrying it. */
  function Index(ps: seq<ProcessedIncident>): map<Value, ProcessedIncident>
    decreases |ps|
  {
    if ps == [] then map[] else Index(ps[..|ps| - 1])[ps[|ps| - 1].incidentId := ps[|ps| - 1]]
  }

  /** The unit rule of line 191-197 applied to each incident in order. */
  function ApplyAll(a: Allocation, ps: seq<ProcessedIncident>): Allocation
    decreases |ps|
  {
    if ps == [] then a
    else
      var last := ps[|ps| - 1];
      UpdateUnits(ApplyAll(a, ps[..|ps| - 1]), last.incidentId, last.clearDatetime != Null)
  }

  /** The list a center has so far; none yet reads as empty. */
  function Listed(m: map<string, seq<ProcessedIncident>>, centerCode: string): seq<ProcessedIncident>
  {
    if centerCode in m then m[centerCode] else []
  }

  /** What one call of `process_incident` contributes. */
  function Outcome(o: Option<ProcessedIncident>): seq<ProcessedIncident>
  {
    match o
    case Some(p) => [p]
    case None => []
  }

  /** `all_center_data` after appending `ps` under `centerCode`; the entry is
      created only when `touched`. */
  function AppendCenter(m: map<string, seq<ProcessedIncident>>, centerCode: string, touched: bool,
                        ps: seq<ProcessedIncident>): map<string, seq<ProcessedIncident>>
  {
    if touched then m[centerCode := Listed(m, centerCode) + ps] else m
  }

  /** The record `generate_unit_data` builds at line 323-328: status from the
      fire status, both timestamps from the incident's status time. */
  datatype UnitRecord = UnitRecord(
    agency: string,
    unitId: string,
    incidentId: Value,
    statusCode: string,
    latitude: Value,
    longitude: Value,
    statusUpdatedDatetime: Value,
    gpsFixDatetime: Value)

  function UnitRecordFor(agency: string, unitId: string, incidentId: Value, inc: ProcessedIncident): UnitRecord
  {
    UnitRecord(agency, unitId, incidentId, GetStatusCode(inc.fireStatus), inc.latitude, inc.longitude,
               inc.statusUpdatedDatetime, inc.statusUpdatedDatetime)
  }

  /** The unit records of `main`'s loop, visiting the ids in `order`. */
  function UnitRecords(a: Allocation, order: seq<Value>, incidentDict: map<Value, ProcessedIncident>, agency: string)
    : seq<UnitRecord>
    requires forall k :: 0 <= k < |order| ==> order[k] in incidentDict
    decreases |order|
  {
    if order == [] then []
    else
      var id := order[|order| - 1];
      UnitRecords(a, order[..|order| - 1], incidentDict, agency) +
        [UnitRecordFor(agency, AssignAll(a, order).mapping[id], id, incidentDict[id])]
  }

  /** The state a run shares across centers (NWIM.py line 294-299). */
  class RunState {
    var unitMapping: map<Value, string>
    var availableUnits: seq<string>
    var allCenterData: map<string, seq<ProcessedIncident>>

    function State(): Allocation
      reads this
    {
      Allocation(unitMapping, availableUnits)
    }

    predicate Valid()
      reads this
    {
      Allocator.Valid(State())
    }

    /** A run starts from the loaded mapping and an empty pool; the
        invariant holds exactly when the loaded mapping is injective. */
    constructor (loaded: map<Value, string>)
      ensures unitMapping == loaded && availableUnits == [] && allCenterData == map[]
      ensures Valid() <==> Injective(loaded)
    {
      unitMapping := loaded;
      availableUnits := [];
      allCenterData := map[];
    }

    /** `get_next_unit_id`: pops the head of the pool, else mints. */
    method GetNextUnitId() returns (unitId: string)
      modifies this
      ensures NextUnit(old(State())) == Draw(unitId, availableUnits)
      ensures unitMapping == old(unitMapping) && allCenterData == old(allCenterData)
    {
      if availableUnits != [] {
        unitId := availableUnits[0];
        availableUnits := availableUnits[1..];
      } else {
        unitId := MintUnitId(unitMapping.Values);
      }
    }

    /** Line 190-197 for one surviving incident: allocate when unmapped,
        release when mapped and the clear time is not None. */
    method UpdateUnitMapping(incidentId: Value, clearDatetime: Value)
      modifies this
      ensures State() == UpdateUnits(old(State()), incidentId, clearDatetime != Null)
      ensures allCenterData == old(allCenterData)
    {
      if incidentId !in unitMapping {
        var unitId := GetNextUnitId();
        unitMapping := unitMapping[incidentId := unitId];
      } else if clearDatetime != Null {
        availableUnits := availableUnits + [unitMapping[incidentId]];
        unitMapping := unitMapping - {incidentId};
      }
    }

    /** Line 184-197 for one filtered record: a processed incident joins
        `current_uuids`, the center's list and `incident_dict`, and then the
        unit rule runs for it. */
    method ProcessRecord(centerCode: string, rec: map<string, Value>, agency: string, env: Env,
                         uuidsIn: set<Value>, dictIn: map<Value, ProcessedIncident>)
      returns (currentUuids: set<Value>, incidentDict: map<Value, ProcessedIncident>)
      requires NormalizerDefined(rec, env)
      requires centerCode in allCenterData
      modifies this
      ensures var s := Outcome(ProcessIncident(rec, centerCode, agency, env));
        && State() == ApplyAll(old(State()), s)
        && currentUuids == uuidsIn + Ids(s)
        && incidentDict == dictIn + Index(s)
        && allCenterData == AppendCenter(old(allCenterData), centerCode, true, s)
    {
      currentUuids, incidentDict := uuidsIn, dictIn;
      var processedIncident := ProcessIncident(rec, centerCode, agency, env);
      if processedIncident.Some? {
        var inc := processedIncident.value;
        OneIncident(old(State()), inc, uuidsIn, dictIn, old(allCenterData), centerCode);
        currentUuids := currentUuids + {inc.incidentId};
        allCenterData := allCenterData[centerCode := allCenterData[centerCode] + [inc]];
        incidentDict := incidentDict[inc.incidentId := inc];
        UpdateUnitMapping(inc.incidentId, inc.clearDatetime);
      } else {
        assert dictIn + map[] == dictIn;
        AppendNothing(allCenterData, centerCode);
      }
    }

    /** Line 183-197: the loop over one page's filtered records. */
    method ProcessFiltered(centerCode: string, filtered: seq<map<string, Value>>, agency: string, env: Env,
                           uuidsIn: set<Value>, dictIn: map<Value, ProcessedIncident>)
      returns (currentUuids: set<Value>, incidentDict: map<Value, ProcessedIncident>)
      requires forall x :: x in filtered ==> NormalizerDefined(x, env)
      requires centerCode in allCenterData
      modifies this
      ensures var s := Processed(filtered, centerCode, agency, env);
        && State() == ApplyAll(old(State()), s)
        && currentUuids == uuidsIn + Ids(s)
        && incidentDict == dictIn + Index(s)
        && allCenterData == AppendCenter(old(allCenterData), centerCode, true, s)
    {
      currentUuids, incidentDict := uuidsIn, dictIn;
      assert dictIn + map[] == dictIn;
      AppendNothing(allCenterData, centerCode);
      for k := 0 to |filtered|
        invariant var s := Processed(filtered[..k], centerCode, agency, env);
          && State() == ApplyAll(old(State()), s)
          && currentUuids == uuidsIn + Ids(s)
          && incidentDict == dictIn + Index(s)
          && allCenterData == AppendCenter(old(allCenterData), centerCode, true, s)
      {
        ghost var s := Processed(filtered[..k], centerCode, agency, env);
        ghost var step := Outcome(ProcessIncident(filtered[k], centerCode, agency, env));
        currentUuids, incidentDict := ProcessRecord(centerCode, filtered[k], agency, env, currentUuids, incidentDict);
        ProcessedStep(filtered, k, centerCode, agency, env);
        ApplyAllAppend(old(State()), s, step);
        CollectedStep(uuidsIn, dictIn, s, step);
        AppendCenterTwice(old(allCenterData), centerCode, true, true, s, step);
      }
      assert filtered[..|filtered|] == filtered;
    }

    /** Line 169-197 for one page: a page with a list under "data" creates
        the center's entry if needed and has its filtered records processed;
        any other page is skipped. */
    method ProcessPage(centerCode: string, centerData: Value, agency: string, env: Env,
                       uuidsIn: set<Value>, dictIn: map<Value, ProcessedIncident>)
      returns (currentUuids: set<Value>, incidentDict: map<Value, ProcessedIncident>)
      requires PageDefined(centerData, env)
      modifies this
      ensures var s := PageSurvivors(centerData, centerCode, agency, env);
        && State() == ApplyAll(old(State()), s)
        && currentUuids == uuidsIn + Ids(s)
        && incidentDict == dictIn + Index(s)
        && allCenterData == AppendCenter(old(allCenterData), centerCode, DataPage(centerData), s)
    {
      currentUuids, incidentDict := uuidsIn, dictIn;
      if DataPage(centerData) {
        var filtered := FilterIncidents(centerData.fields["data"].items, env);
        if centerCode !in allCenterData {
          allCenterData := allCenterData[centerCode := []];
        }
        ghost var created := allCenterData;
        currentUuids, incidentDict := ProcessFiltered(centerCode, filtered, agency, env, currentUuids, incidentDict);
        ghost var ps := Processed(filtered, centerCode, agency, env);
        if centerCode !in old(allCenterData) {
          AppendCenterCreated(old(allCenterData), centerCode, ps);
        }
      } else {
        assert uuidsIn + Ids([]) == uuidsIn;
        assert dictIn + Index([]) == dictIn;
      }
    }

    /** `process_center_data(center_code, center_response, all_center_data,
        agency, age_limit_months, unit_mapping, available_units)`. */
    method ProcessCenterData(centerCode: string, centerResponse: Value, agency: string, env: Env)
      returns (currentUuids: set<Value>, incidentDict: map<Value, ProcessedIncident>)
      requires ResponseDefined(centerResponse, env)
      modifies this
      ensures var s := CenterSurvivors(centerResponse, centerCode, agency, env);
        && State() == ApplyAll(old(State()), s)
        && currentUuids == Ids(s)
        && incidentDict == Index(s)
        && allCenterData == AppendCenter(old(allCenterData), centerCode, CenterHasData(centerResponse), s)
      ensures old(Valid()) ==> Valid()
    {
      currentUuids := {};
      incidentDict := map[];
      ghost var done: seq<ProcessedIncident> := [];
      if centerResponse.Arr? {
        var pages := centerResponse.items;
        for p := 0 to |pages|
          invariant done == Survivors(pages[..p], centerCode, agency, env)
          invariant State() == ApplyAll(old(State()), done)
          invariant currentUuids == Ids(done) && incidentDict == Index(done)
          invariant allCenterData == AppendCenter(old(allCenterData), centerCode, HasDataPage(pages[..p]), done)
          invariant !HasDataPage(pages[..p]) ==> done == []
        {
          ghost var pageSurvivors := PageSurvivors(pages[p], centerCode, agency, env);
          currentUuids, incidentDict := ProcessPage(centerCode, pages[p], agency, env, currentUuids, incidentDict);
          SurvivorsStep(pages, p, centerCode, agency, env);
          ApplyAllAppend(old(State()), done, pageSurvivors);
          IdsAppend(done, pageSurvivors);
          IndexAppend(done, pageSurvivors);
          AppendCenterTwice(old(allCenterData), centerCode, HasDataPage(pages[..p]), DataPage(pages[p]), done, pageSurvivors);
          done := done + pageSurvivors;
        }
        assert pages[..|pages|] == pages;
      }
      ApplyAllPreservesValid(old(State()), done);
    }

    /** Line 317-329 of `main`: every current incident that holds no unit
        (missing or empty id) is given `get_next_unit_id()`, and a unit
        record is built for each. `order` is the iteration order of the
        Python set `current_uuids`, which the language leaves unspecified. */
    method AssignUnits(order: seq<Value>, incidentDict: map<Value, ProcessedIncident>, agency: string)
      returns (unitData: seq<UnitRecord>)
      requires forall k :: 0 <= k < |order| ==> order[k] in incidentDict
      modifies this
      ensures State() == AssignAll(old(State()), order)
      ensures unitData == UnitRecords(old(State()), order, incidentDict, agency)
      ensures allCenterData == old(allCenterData)
      ensures old(Valid()) ==> Valid()
    {
      unitData := [];
      for k := 0 to |order|
        invariant State() == AssignAll(old(State()), order[..k])
        invariant unitData == UnitRecords(old(State()), order[..k], incidentDict, agency)
        invariant allCenterData == old(allCenterData)
      {
        assert order[..k + 1][..k] == order[..k];
        var incidentId := order[k];
        // `unit_mapping.get(incident_id)`: a missing key and "" are both falsy.
        var unitId := if incidentId in unitMapping then unitMapping[incidentId] else "";
        if unitId == "" {
          unitId := GetNextUnitId();
          unitMapping := unitMapping[incidentId := unitId];
        }
        var unit := UnitRecordFor(agency, unitId, incidentId, incidentDict[incidentId]);
        unitData := unitData + [unit];
      }
      assert order[..|order|] == order;
      if old(Valid()) {
        AssignAllValid(old(State()), order);
      }
    }
  }

  /** One more record extends the processed list by at most its own incident. */
  lemma ProcessedStep(recs: seq<map<string, Value>>, k: nat, centerCode: string, agency: string, env: Env)
    requires forall x :: x in recs ==> NormalizerDefined(x, env)
    requires k < |recs|
    ensures Processed(recs[..k + 1], centerCode, agency, env) ==
      Processed(recs[..k], centerCode, agency, env) + Outcome(ProcessIncident(recs[k], centerCode, agency, env))
  {
    assert recs[..k + 1][..k] == recs[..k];
  }

  /** One more page: its survivors follow the earlier ones, and it adds a
      data page exactly when it is one. */
  lemma SurvivorsStep(pages: seq<Value>, p: nat, centerCode: string, agency: string, env: Env)
    requires forall k :: 0 <= k < |pages| ==> PageDefined(pages[k], env)
    requires p < |pages|
    ensures Survivors(pages[..p + 1], centerCode, agency, env) ==
      Survivors(pages[..p], centerCode, agency, env) + PageSurvivors(pages[p], centerCode, agency, env)
    ensures HasDataPage(pages[..p + 1]) == (HasDataPage(pages[..p]) || DataPage(pages[p]))
    ensures !DataPage(pages[p]) ==> PageSurvivors(pages[p], centerCode, agency, env) == []
  {
    assert pages[..p + 1][..p] == pages[..p];
  }

  /** Two appends under the same center are one append of both lists. */
  lemma AppendCenterTwice(m: map<string, seq<ProcessedIncident>>, centerCode: string, t1: bool, t2: bool,
                          xs: seq<ProcessedIncident>, ys: seq<ProcessedIncident>)
    requires !t1 ==> xs == []
    requires !t2 ==> ys == []
    ensures AppendCenter(AppendCenter(m, centerCode, t1, xs), centerCode, t2, ys) ==
      AppendCenter(m, centerCode, t1 || t2, xs + ys)
  {
    if !t1 {
      assert xs + ys == ys;
    } else if !t2 {
      assert xs + ys == xs;
    } else {
      assert (Listed(m, centerCode) + xs) + ys == Listed(m, centerCode) + (xs + ys);
    }
  }

  /** A single incident: one run of the unit rule, one id, one index entry
      and one element appended to the center's list. */
  lemma OneIncident(a: Allocation, inc: ProcessedIncident, uuidsIn: set<Value>, dictIn: map<Value, ProcessedIncident>,
                    m: map<string, seq<ProcessedIncident>>, centerCode: string)
    requires centerCode in m
    ensures ApplyAll(a, [inc]) == UpdateUnits(a, inc.incidentId, inc.clearDatetime != Null)
    ensures uuidsIn + Ids([inc]) == uuidsIn + {inc.incidentId}
    ensures dictIn + Index([inc]) == dictIn[inc.incidentId := inc]
    ensures AppendCenter(m, centerCode, true, [inc]) == m[centerCode := m[centerCode] + [inc]]
  {
    assert [inc][..0] == [];
  }

  lemma AppendNothing(m: map<string, seq<ProcessedIncident>>, centerCode: string)
    requires centerCode in m
    ensures AppendCenter(m, centerCode, true, []) == m
  {
    assert m[centerCode] + [] == m[centerCode];
    assert AppendCenter(m, centerCode, true, []).Keys == m.Keys;
  }

  /** Creating the empty entry first does not change what the append yields. */
  lemma AppendCenterCreated(m: map<string, seq<ProcessedIncident>>, centerCode: string, ps: seq<ProcessedIncident>)
    requires centerCode !in m
    ensures AppendCenter(m[centerCode := []], centerCode, true, ps) == AppendCenter(m, centerCode, true, ps)
  {
    assert [] + ps == ps;
    assert m[centerCode := []][centerCode := ps] == m[centerCode := ps];
  }

  lemma {:induction false} ApplyAllAppend(a: Allocation, xs: seq<ProcessedIncident>, ys: seq<ProcessedIncident>)
    ensures ApplyAll(a, xs + ys) == ApplyAll(ApplyAll(a, xs), ys)
    decreases |ys|
  {
    if ys != [] {
      assert (xs + ys)[..|xs + ys| - 1] == xs + ys[..|ys| - 1];
      ApplyAllAppend(a, xs, ys[..|ys| - 1]);
    } else {
      assert xs + ys == xs;
    }
  }

  lemma {:induction false} IdsAppend(xs: seq<ProcessedIncident>, ys: seq<ProcessedIncident>)
    ensures Ids(xs + ys) == Ids(xs) + Ids(ys)
    decreases |ys|
  {
    if ys != [] {
      assert (xs + ys)[..|xs + ys| - 1] == xs + ys[..|ys| - 1];
      IdsAppend(xs, ys[..|ys| - 1]);
    } else {
      assert xs + ys == xs;
    }
  }

  lemma {:induction false} IndexAppend(xs: seq<ProcessedIncident>, ys: seq<ProcessedIncident>)
    ensures Index(xs + ys) == Index(xs) + Index(ys)
    decreases |ys|
  {
    if ys != [] {
      assert (xs + ys)[..|xs + ys| - 1] == xs + ys[..|ys| - 1];
      IndexAppend(xs, ys[..|ys| - 1]);
    } else {
      assert xs + ys == xs;
    }
  }

  /** Extending the processed incidents by `step` adds its ids to
      `current_uuids` and its entries to `incident_dict`. */
  lemma CollectedStep(uuidsIn: set<Value>, dictIn: map<Value, ProcessedIncident>,
                      s: seq<ProcessedIncident>, step: seq<ProcessedIncident>)
    ensures uuidsIn + Ids(s + step) == (uuidsIn + Ids(s)) + Ids(step)
    ensures dictIn + Index(s + step) == (dictIn + Index(s)) + Index(step)
  {
    IdsAppend(s, step);
    IndexAppend(s, step);
  }

  lemma {:induction false} ApplyAllPreservesValid(a: Allocation, ps: seq<ProcessedIncident>)
    ensures Valid(a) ==> Valid(ApplyAll(a, ps))
    ensures Valid(a) && Nonblank(a) ==> Nonblank(ApplyAll(a, ps))
    decreases |ps|
  {
    if ps != [] && Valid(a) {
      var last := ps[|ps| - 1];
      ApplyAllPreservesValid(a, ps[..|ps| - 1]);
      UpdateUnitsPreservesValid(ApplyAll(a, ps[..|ps| - 1]), last.incidentId, last.clearDatetime != Null);
    }
  }

  lemma {:induction false} AssignAllValid(a: Allocation, order: seq<Value>)
    requires Valid(a)
    ensures Valid(AssignAll(a, order))
    decreases |order|
  {
    if order != [] {
      AssignAllValid(a, order[..|order| - 1]);
      AssignStepPreservesValid(AssignAll(a, order[..|order| - 1]), order[|order| - 1]);
    }
  }

  /** `item` is a record on a page of `response` that the loop over `data`
      visits. */
  predicate Offered(response: Value, item: Value)
  {
    response.Arr? &&
    exists k :: 0 <= k < |response.items| && DataPage(response.items[k]) && item in response.items[k].fields["data"].items
  }

  /** The record passes the filter (type not excluded, coordinates convert,
      not a stale prescribed fire) and both gates of `process_incident`
      (truthy uuid, recent date). */
  predicate Eligible(item: Value, env: Env)
  {
    && item.Obj?
    && FilterDefined(item.fields, env)
    && !TypeExcluded(item.fields["type"])
    && IsValidLatLong(item.fields, env)
    && !IsOldPrescribedFire(item.fields, env)
    && Truthy(Get(item.fields, "uuid"))
    && Get(item.fields, "date").Str?
    && IsRecentIncident(Get(item.fields, "date").s, env)
  }

  lemma {:induction false} IdsMember(ps: seq<ProcessedIncident>, id: Value)
    requires id in Ids(ps)
    ensures exists p :: p in ps && p.incidentId == id
    decreases |ps|
  {
    if id != ps[|ps| - 1].incidentId {
      IdsMember(ps[..|ps| - 1], id);
      var p :| p in ps[..|ps| - 1] && p.incidentId == id;
      assert p in ps;
    } else {
      assert ps[|ps| - 1] in ps;
    }
  }

  /** `incident_dict` has an entry for exactly the ids in `current_uuids`,
      and for an id carried by several incidents it holds the last of them. */
  lemma {:induction false} IndexKeepsLast(ps: seq<ProcessedIncident>, id: Value)
    ensures id in Index(ps) <==> id in Ids(ps)
    ensures id in Index(ps) ==>
      exists k :: 0 <= k < |ps| && Index(ps)[id] == ps[k] && ps[k].incidentId == id &&
        forall j :: k < j < |ps| ==> ps[j].incidentId != id
    decreases |ps|
  {
    if ps != [] {
      var n := |ps| - 1;
      var init := ps[..n];
      IndexKeepsLast(init, id);
      if ps[n].incidentId == id {
        assert Index(ps)[id] == ps[n];
      } else if id in Index(init) {
        var k :| 0 <= k < |init| && Index(init)[id] == init[k] && init[k].incidentId == id &&
          forall j :: k < j < |init| ==> init[j].incidentId != id;
        assert ps[k] == init[k];
        forall j | k < j < |ps|
          ensures ps[j].incidentId != id
        {
          if j < n {
            assert ps[j] == init[j];
          }
        }
      }
    }
  }

  /** Every processed incident comes from an input record that passes both
      gates, and carries that record's uuid. */
  lemma {:induction false} ProcessedOrigin(recs: seq<map<string, Value>>, centerCode: string, agency: string, env: Env,
                                           p: ProcessedIncident)
    requires forall x :: x in recs ==> NormalizerDefined(x, env)
    requires p in Processed(recs, centerCode, agency, env)
    ensures exists x :: x in recs && Emits(x, env) && p.incidentId == Get(x, "uuid")
    decreases |recs|
  {
    var init := recs[..|recs| - 1];
    var last := recs[|recs| - 1];
    assert forall x :: x in init ==> x in recs;
    if p in Processed(init, centerCode, agency, env) {
      ProcessedOrigin(init, centerCode, agency, env, p);
      var x :| x in init && Emits(x, env) && p.incidentId == Get(x, "uuid");
      assert x in recs;
    } else {
      assert last in recs;
    }
  }

  /** Every survivor of a sequence of pages comes from one data page. */
  lemma {:induction false} SurvivorsOrigin(pages: seq<Value>, centerCode: string, agency: string, env: Env,
                                           p: ProcessedIncident)
    requires forall k :: 0 <= k < |pages| ==> PageDefined(pages[k], env)
    requires p in Survivors(pages, centerCode, agency, env)
    ensures exists k :: 0 <= k < |pages| && DataPage(pages[k]) && p in PageSurvivors(pages[k], centerCode, agency, env)
    decreases |pages|
  {
    var init := pages[..|pages| - 1];
    if p in Survivors(init, centerCode, agency, env) {
      SurvivorsOrigin(init, centerCode, agency, env, p);
      var k :| 0 <= k < |init| && DataPage(init[k]) && p in PageSurvivors(init[k], centerCode, agency, env);
      assert pages[k] == init[k];
    } else {
      assert p in PageSurvivors(pages[|pages| - 1], centerCode, agency, env);
    }
  }

  /** Every incident a data page yields comes from an eligible record of
      that page, and carries its uuid. */
  lemma PageOrigin(page: Value, centerCode: string, agency: string, env: Env, p: ProcessedIncident)
    requires PageDefined(page, env) && DataPage(page)
    requires p in PageSurvivors(page, centerCode, agency, env)
    ensures exists item :: item in page.fields["data"].items && Eligible(item, env) && Get(item.fields, "uuid") == p.incidentId
  {
    var filtered := FilterIncidents(page.fields["data"].items, env);
    ProcessedOrigin(filtered, centerCode, agency, env, p);
    var x :| x in filtered && Emits(x, env) && p.incidentId == Get(x, "uuid");
    assert Eligible(Obj(x), env);
  }

  /** Every id `process_center_data` returns in `current_uuids` is the uuid of
      a record on one of the response's data pages that passed the filter and
      both gates of `process_incident`. */
  lemma CurrentIdsEligible(response: Value, centerCode: string, agency: string, env: Env, id: Value)
    requires ResponseDefined(response, env)
    requires id in Ids(CenterSurvivors(response, centerCode, agency, env))
    ensures exists item :: Offered(response, item) && Eligible(item, env) && Get(item.fields, "uuid") == id
  {
    var ps := CenterSurvivors(response, centerCode, agency, env);
    IdsMember(ps, id);
    var p :| p in ps && p.incidentId == id;
    SurvivorsOrigin(response.items, centerCode, agency, env, p);
    var k :| 0 <= k < |response.items| && DataPage(response.items[k]) &&
             p in PageSurvivors(response.items[k], centerCode, agency, env);
    PageOrigin(response.items[k], centerCode, agency, env, p);
    var item :| item in response.items[k].fields["data"].items && Eligible(item, env) && Get(item.fields, "uuid") == id;
    assert Offered(response, item);
  }

  /** Every record that `process_incident` turns into an incident has its
      uuid among the ids of the processed incidents. */
  lemma {:induction false} ProcessedComplete(recs: seq<map<string, Value>>, centerCode: string, agency: string, env: Env,
                                             x: map<string, Value>)
    requires forall y :: y in recs ==> NormalizerDefined(y, env)
    requires x in recs && Emits(x, env)
    ensures Get(x, "uuid") in Ids(Processed(recs, centerCode, agency, env))
    decreases |recs|
  {
    var n := |recs| - 1;
    var init := recs[..n];
    var s := Processed(init, centerCode, agency, env);
    var step := Outcome(ProcessIncident(recs[n], centerCode, agency, env));
    ProcessedStep(recs, n, centerCode, agency, env);
    assert recs[..n + 1] == recs;
    IdsAppend(s, step);
    var j :| 0 <= j < |recs| && recs[j] == x;
    if j == n {
      EmittedId(x, centerCode, agency, env);
    } else {
      assert init[j] == x;
      assert forall y :: y in init ==> y in recs;
      ProcessedComplete(init, centerCode, agency, env, x);
    }
  }

  /** A record `process_incident` keeps contributes exactly its uuid. */
  lemma EmittedId(x: map<string, Value>, centerCode: string, agency: string, env: Env)
    requires NormalizerDefined(x, env) && Emits(x, env)
    ensures Ids(Outcome(ProcessIncident(x, centerCode, agency, env))) == {Get(x, "uuid")}
  {
    var step := Outcome(ProcessIncident(x, centerCode, agency, env));
    assert step[..0] == [];
  }

  /** The ids a data page yields are among the ids of every sequence of
      pages holding it. */
  lemma {:induction false} SurvivorsComplete(pages: seq<Value>, centerCode: string, agency: string, env: Env,
                                             k: nat, id: Value)
    requires forall j :: 0 <= j < |pages| ==> PageDefined(pages[j], env)
    requires k < |pages| && id in Ids(PageSurvivors(pages[k], centerCode, agency, env))
    ensures id in Ids(Survivors(pages, centerCode, agency, env))
    decreases |pages|
  {
    var n := |pages| - 1;
    var init := pages[..n];
    var before := Survivors(init, centerCode, agency, env);
    var here := PageSurvivors(pages[n], centerCode, agency, env);
    SurvivorsStep(pages, n, centerCode, agency, env);
    assert pages[..n + 1] == pages;
    if k < n {
      assert init[k] == pages[k];
      SurvivorsComplete(init, centerCode, agency, env, k, id);
      assert id in Ids(before);
    } else {
      assert k == n;
    }
    IdsAppend(before, here);
  }

  /** The converse of `CurrentIdsEligible`: the uuid of every record on a
      data page of the response that passes the filter and both gates of
      `process_incident` is in `current_uuids`. */
  lemma CurrentIdsComplete(response: Value, centerCode: string, agency: string, env: Env, item: Value)
    requires ResponseDefined(response, env)
    requires Offered(response, item) && Eligible(item, env)
    ensures Get(item.fields, "uuid") in Ids(CenterSurvivors(response, centerCode, agency, env))
  {
    var k :| 0 <= k < |response.items| && DataPage(response.items[k]) && item in response.items[k].fields["data"].items;
    var page := response.items[k];
    var items := page.fields["data"].items;
    assert PageDefined(page, env);
    var j :| 0 <= j < |items| && items[j] == item;
    assert ItemDefined(items[j], env);
    var x := item.fields;
    var filtered := FilterIncidents(items, env);
    assert x in filtered;
    ProcessedComplete(filtered, centerCode, agency, env, x);
    SurvivorsComplete(response.items, centerCode, agency, env, k, Get(x, "uuid"));
  }

  /** From a valid state with no empty unit ids, `main`'s loop emits one unit
      record per visited id, in order: each names its incident, carries the
      non-empty unit the saved mapping holds for it at the end of the loop,
      and the status code of its incident's fire status. */
  lemma {:induction false} UnitRecordsAgree(a: Allocation, order: seq<Value>, incidentDict: map<Value, ProcessedIncident>,
                                            agency: string)
    requires Valid(a) && Nonblank(a)
    requires forall k :: 0 <= k < |order| ==> order[k] in incidentDict
    ensures var rs := UnitRecords(a, order, incidentDict, agency);
      var final := AssignAll(a, order).mapping;
      && |rs| == |order|
      && forall k :: 0 <= k < |order| ==>
           && order[k] in final
           && rs[k].incidentId == order[k]
           && rs[k].unitId == final[order[k]] != ""
           && rs[k].agency == agency
           && rs[k].statusCode == GetStatusCode(incidentDict[order[k]].fireStatus)
    decreases |order|
  {
    if order != [] {
      var n := |order| - 1;
      var init := order[..n];
      var id := order[n];
      UnitRecordsAgree(a, init, incidentDict, agency);
      var mid := AssignAll(a, init);
      AssignAllCovers(a, init);
      AssignStepPreservesValid(mid, id);
      AssignStepOutcome(mid, id);
      assert AssignAll(a, order) == AssignStep(mid, id);
      var rs := UnitRecords(a, order, incidentDict, agency);
      assert rs[..n] == UnitRecords(a, init, incidentDict, agency);
      forall k | 0 <= k < n
        ensures order[k] in AssignAll(a, order).mapping
        ensures rs[k].unitId == AssignAll(a, order).mapping[order[k]]
      {
        assert order[k] == init[k] && init[k] in mid.mapping;
        assert rs[k] == rs[..n][k];
      }
    }
  }
}
