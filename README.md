# NWIM incident pipeline: a Dafny model of its core

NWIM polls wildland-fire dispatch centers for incident records and turns
them into two feeds: a list of processed incidents per center and a list of
"unit" records. Each unit record ties a current incident to a stable unit
identifier named `FixedUnit1`, `FixedUnit2`, ... This project models the
part of `NWIM.py` that decides what is in those feeds and which unit each
incident holds:

- the **record filter**: ten excluded incident types, the coordinate check,
  and the rule that drops prescribed fires older than 90 days;
- the **normalizer** `process_incident`: the uuid and recency gates, decoding
  of the embedded `fiscal_data`/`fire_status` records, the longitude sign
  fix, line-break stripping, the type-description table and the clear time;
  also `get_status_code`;
- the **unit-identifier allocator**: `get_next_unit_id` (FIFO pool first,
  then the least free `FixedUnit{i}`), the allocate-or-release rule that
  `process_center_data` applies to each surviving incident, and the
  re-assignment loop of `main` that builds the unit records;
- the **batch driver** `process_center_data`, over the state the run shares
  across centers: the unit mapping, the pool of released units and the
  per-center incident lists.

Layout, one module per file:

- `values.dfy` (`Values`): JSON values, Python truthiness, hashability, `dict.get`.
- `host.dfy` (`Host`): what the program calls but the model does not contain.
  These are `float()`, `strptime`, `json.loads` and the two date cutoffs, all
  passed in as one `Env` parameter.
- `unit_names.dfy` (`UnitNames`): the `FixedUnit{i}` names. It proves they
  are injective and proves the pigeonhole bound that makes the mint loop stop.
- `allocator.dfy` (`Allocator`): the allocator as functions on
  `Allocation(mapping, pool)`. It holds the invariant `Valid` and the lemmas
  that each step preserves it.
- `filter.dfy` (`Filter`), `normalizer.dfy` (`Normalizer`): the pure per-record code.
- `center_processor.dfy` (`CenterProcessor`): specification functions for
  one center's batch. It also holds the class `RunState`, whose methods change
  the mapping, pool and incident lists in place as the source does. Each
  method is proved against those functions.
- `scenarios.dfy` (`Scenarios`): two end-to-end runs of one page holding an
  aircraft record and a wildfire record.

Python exceptions that the code does not catch become preconditions, named
`…Defined`. For example, `FilterDefined` requires a `type` key
(`incident['type']` raises without one). It also requires a parseable date on
a prescribed fire, because the second `strptime` in `is_old_prescribed_fire`
is outside any `try`. Caught errors are modelled as the value the code falls
back to. A date neither format parses makes `is_recent_incident` return
false, and a `fire_status` string that does not decode becomes `{}`.

Behaviour of the code that a reader might not expect, modelled as written:

- `clearDatetime` is the `out` field whenever that field is not None. So
  `out: false` yields `clearDatetime = false`, not null, and a mapped incident
  with `out: false` releases its unit although the fire is not out.
  `Scenarios.ContainedWildfire` shows the clear time, and
  `Scenarios.ContainedWildfireReleasesUnit` shows the release.
- An unmapped incident is allocated a unit even when its clear time is set.
  Only incidents that already hold a unit release it.
- `float()` accepts "nan" and "inf", so the coordinate check does not imply
  finite coordinates. The model leaves that to `Env.isFloat`.
- `float()` of a JSON integer too large for a double raises `OverflowError`,
  which `is_valid_lat_long` does not catch. Such a coordinate aborts the
  batch instead of rejecting the record; `Env.numFits` says which numbers
  fit, and `Filter.CoordinateOverflowRaises` shows the error path.
- `main` re-assigns a unit to every current incident without one. This
  includes one whose unit was released earlier in the same batch, and that
  incident usually gets its own unit straight back from the pool.
  `AssignUnits` and `UnitRecordsAgree` model this as written.

## Model

| member | source | states |
|---|---|---|
| UnitNames.Decimal | NWIM.py:161 | the numeral the f-string writes is non-empty, all digits, and has no leading zero |
| UnitNames.DecimalRoundTrip | NWIM.py:161 | reading that numeral back yields the index, so names carry their index |
| UnitNames.UnitIndexRoundTrip | NWIM.py:163 | the index can be recovered from any minted name |
| UnitNames.FixedUnitInjective | NWIM.py:159-163 | different indices give different unit names |
| UnitNames.MintBound | NWIM.py:159-162 | if FixedUnit1..FixedUnit(k) are all in use then at least k units are in use, so the scan ends by index \|used\|+1 |
| Allocator.LeastFreeIndex | NWIM.py:159-163 | the index the scan stops at: its name is unused and every smaller index's name is in use |
| Allocator.MintUnitId | NWIM.py:159-163 | the while loop returns the name of the least index whose name is not a mapping value |
| Allocator.NextUnitChoice | NWIM.py:156-163 | a non-empty pool yields its head and keeps the rest in order; an empty pool yields the least-indexed free name and stays empty |
| Allocator.NextUnitFresh | NWIM.py:156-163 | under the invariant the unit handed out is held by no incident and is no longer queued; when no empty id is held or queued, the unit handed out is not empty |
| Allocator.UpdateUnitsOutcome | NWIM.py:190-197 | unmapped incident: mapped to the next unit, cleared or not; mapped and cleared: key removed and its unit becomes the last pool entry after the old pool; mapped and not cleared: nothing changes; when allocating, the pool becomes what is left after the draw; every other incident keeps its unit |
| Allocator.ReleasePreservesValid | NWIM.py:194-197 | giving a unit back keeps the mapping injective, the pool duplicate-free and disjoint from the mapping |
| Allocator.BindPreservesValid | NWIM.py:191-192 | binding the next unit to an incident keeps the same invariant |
| Allocator.UpdateUnitsPreservesValid | NWIM.py:190-197 | the per-incident rule preserves the invariant and the absence of empty unit ids |
| Allocator.UpdateUnitsIdempotent | NWIM.py:190-197 | seeing an uncleared incident again changes nothing, and the rule only ever takes units from the front of the pool |
| Allocator.ReleaseThenAllocateReuses | NWIM.py:191-197 | with an otherwise empty pool, the unit a cleared incident gives back goes to the next unmapped incident |
| Allocator.AssignStepOutcome | NWIM.py:317-321 | the re-assignment step gives the incident the next unit unless it holds a non-empty one, and touches no other binding |
| Allocator.AssignStepPreservesValid | NWIM.py:317-321 | that step preserves the invariant and the absence of empty ids |
| Allocator.AssignAllCovers | NWIM.py:317-321 | after the loop every visited incident holds a unit, no incident lost a non-empty unit, and the invariant still holds |
| Filter.ExcludedTypeRejected | NWIM.py:175 | a record of any of the ten excluded types is filtered out |
| Filter.BadCoordinateRejected | NWIM.py:33-40 | a record whose latitude or longitude is missing, null, a list, a dict or an unconvertible string is filtered out |
| Filter.CoordinateOverflowRaises | NWIM.py:33-38 | a kept-type record whose latitude, or whose longitude after a converted latitude, overflows `float` makes the filter raise rather than reject it |
| Filter.PrescribedFireBoundary | NWIM.py:144-154 | a prescribed fire with valid coordinates is kept exactly when its date is not before now minus 90 days |
| Normalizer.SignLongitude | NWIM.py:87-89 | a non-empty result starts with '-'; only a '-' is ever prepended; a value already signed and the empty string are unchanged |
| Normalizer.SignLongitudeIdempotent | NWIM.py:87-89 | applying the sign fix twice equals applying it once |
| Normalizer.ReplaceChar | NWIM.py:93 | `replace` of one character keeps the length and rewrites exactly the positions holding that character |
| Normalizer.StripLineBreaks | NWIM.py:92-96 | the result has the input's length, contains no '\n' or '\r', and every other character is unchanged |
| Normalizer.TypeDescriptionTable | NWIM.py:108-113 | "Wildfire Contained" exactly when contain and not control and not out; "Wildfire Controlled" exactly when contain and control and not out; otherwise the raw type |
| Normalizer.ProcessIncident | NWIM.py:62-142 | an incident is produced exactly when the uuid is truthy and the date is recent. It carries the uuid, center and agency and the decoded fire status. Its clear time is that status's `out`, its type description is the table's choice for that status, its longitude is the sign-fixed `longitude`, and its narrative and fiscal comments are `webComment` and `fiscal_comments` with line breaks turned into spaces, so they hold none |
| Normalizer.UnparseableDateDropped | NWIM.py:42-53 | a date matching neither format drops the record instead of raising |
| Normalizer.RecencyBoundary | NWIM.py:49-51 | a record with a truthy uuid is kept exactly when its date is strictly after now minus the age limit |
| Normalizer.StatusVersusClearTime | NWIM.py:55-60 | "Avail" implies a non-null clear time, while a clear time of false still reports "OnScene" |
| CenterProcessor.FilterIncidents | NWIM.py:173-178 | the comprehension keeps exactly the page's records that pass the filter, and those can be processed without raising |
| CenterProcessor.ProcessedOrigin | NWIM.py:183-186 | every processed incident comes from a filtered record that passed both gates and carries its uuid |
| CenterProcessor.IdsMember | NWIM.py:186 | every id in `current_uuids` is the id of some processed incident |
| CenterProcessor.IndexKeepsLast | NWIM.py:186-188 | `incident_dict` has keys exactly the ids in `current_uuids`, and for a repeated id holds the last incident carrying it |
| CenterProcessor.SurvivorsOrigin | NWIM.py:168-171 | every survivor comes from a page that has a list under "data" |
| CenterProcessor.PageOrigin | NWIM.py:169-188 | every incident of a data page comes from a record on that page that passed the filter and both gates |
| CenterProcessor.CurrentIdsEligible | NWIM.py:165-199 | every returned id is the uuid of a record on a data page whose type is not excluded, whose coordinates convert, which is not a stale prescribed fire, and which has a truthy uuid and a recent date |
| CenterProcessor.ProcessedComplete | NWIM.py:183-186 | every record `process_incident` keeps has its uuid among the ids of the processed incidents |
| CenterProcessor.SurvivorsComplete | NWIM.py:168-186 | the ids a data page yields are among the ids of the whole response |
| CenterProcessor.CurrentIdsComplete | NWIM.py:165-199 | conversely, the uuid of every record on a data page that passes the filter and both gates is in the returned `current_uuids` |
| CenterProcessor.ApplyAllAppend | NWIM.py:183-197 | applying the unit rule to two batches in turn is applying it to their concatenation |
| CenterProcessor.IdsAppend | NWIM.py:186 | the ids of two batches are the union of their ids |
| CenterProcessor.IndexAppend | NWIM.py:188 | the index of two batches is the first's index overridden by the second's |
| CenterProcessor.CollectedStep | NWIM.py:186-188 | processing one more batch adds its ids to `current_uuids` and its entries to `incident_dict` |
| CenterProcessor.ApplyAllPreservesValid | NWIM.py:165-199 | a whole batch preserves the allocator invariant and the absence of empty unit ids |
| CenterProcessor.AssignAllValid | NWIM.py:317-321 | the re-assignment loop preserves the invariant |
| CenterProcessor.UnitRecordsAgree | NWIM.py:317-329 | one unit record per visited id, in order. Each names its incident and the agency, carries the non-empty unit the saved mapping holds for it, and has its incident's status code |
| CenterProcessor.RunState.constructor | NWIM.py:294-299 | the run starts from the loaded mapping, an empty pool and no incident lists; the invariant holds exactly when the loaded mapping is injective |
| CenterProcessor.RunState.GetNextUnitId | NWIM.py:156-163 | the pop or the mint loop returns the unit `NextUnit` chooses, leaves the pool it describes, and does not touch the mapping |
| CenterProcessor.RunState.UpdateUnitMapping | NWIM.py:190-197 | the in-place insert, append and `del` leave exactly the state `UpdateUnits` describes |
| CenterProcessor.RunState.ProcessRecord | NWIM.py:184-197 | one record: its incident, if any, joins the id set, the center's list and the index, then the unit rule runs for it |
| CenterProcessor.RunState.ProcessFiltered | NWIM.py:183-197 | the loop over a page's filtered records leaves the state, ids, index and center list that the processed incidents determine |
| CenterProcessor.RunState.ProcessPage | NWIM.py:169-197 | a data page creates the center's entry if missing and appends its incidents; any other page changes nothing |
| CenterProcessor.RunState.ProcessCenterData | NWIM.py:165-199 | the unit state is the rule applied to every survivor in order. The ids and index are those of the survivors, and the center's list grows by the survivors only when some page has data. The invariant is preserved |
| CenterProcessor.RunState.AssignUnits | NWIM.py:317-329 | the loop leaves the state `AssignAll` describes, builds the records `UnitRecords` describes, and preserves the invariant |
| Scenarios.AircraftDropped | NWIM.py:175 | an aircraft record with valid coordinates is filtered out |
| Scenarios.WildfireProcessed | NWIM.py:62-142 | a recent wildfire record becomes an incident with longitude "-112.5", its fire status carried over, and clear time equal to `out` |
| Scenarios.MixedPageSurvivors | NWIM.py:169-188 | of a page holding an aircraft record then a wildfire record, only the wildfire's incident survives |
| Scenarios.ContainedWildfire | NWIM.py:99-113 | a contained, uncontrolled, not-out wildfire is described "Wildfire Contained", has status "OnScene" and clear time false |
| Scenarios.ContainedWildfireReleasesUnit | NWIM.py:194-197 | the contained wildfire, still "OnScene", has clear time false, which is not None, so a unit it held is released to the tail of the pool |
| Scenarios.WildfireOutReleasesUnit | NWIM.py:194-197 | once out, the same wildfire still survives with clear time true and status "Avail", and its unit goes to the tail of the pool |

## Left out

- HTTP (`fetch_data`, `send_to_dc_api`) is network I/O. A center's response is an input to `ProcessCenterData`.
- The file and log I/O (`load_config`, `log_message`, `save_to_txt`, `save_to_json`, `load_unit_mapping`, `save_unit_mapping`) is left out. The loaded mapping is the constructor's argument, and the final mapping is the object's state.
- The rest of `main` is sequencing only: configuration checks, the falsy-response skip, the per-center loop, the change log and the upload. It does not change the state modelled here beyond what `ProcessCenterData` and `AssignUnits` do.
- `json.loads`, `float()`, `strptime` and `relativedelta` are library code. They are the `Env` parameters, and every property holds for any behaviour of them.
- CenterProcessor.RunState.ProcessCenterData: the model reads the clock once (fixed cutoffs), while the source calls `datetime.now()` per record. Two records could in principle straddle a cutoff that moves during one batch.
- Python treats `True`, `1` and `1.0` as one key in a set or dict. The model keeps `Bool` and `Num` keys apart.
- The mapping saved to JSON turns non-string uuids into string keys when it is loaded again. Round trips through the file are not modelled.
- Values in the loaded mapping are taken to be strings, and NaN and infinities are not `Value`s.
- `AssignUnits` visits the ids in an arbitrary order given as a sequence, because Python leaves set iteration order unspecified. Dict insertion order and CSV/JSON field order affect only output formatting.
- Exceptions the source does not catch are preconditions (`…Defined`). The model does not describe the exception a bad record would raise or the run it would abort.
