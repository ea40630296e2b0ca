/** The record filter of `process_center_data` (NWIM.py line 175-177): type
    exclusion, the coordinate check and the stale prescribed-fire rule, each
    evaluated only when the ones before it let the record through. */
module Filter {
  import opened Values
  import opened Host

  /** The ten incident types that are never reported. */
  const ExcludedTypes: set<string> := {
    "Miscellaneous", "Resource Order", "Aircraft", "False Alarm",
    "Classroom Training", "Preparedness/Preposition", "N/A",
    "Resource Program (internal)", "Emergency Stabilization", "Nonstatistical Fire"
  }

  const PrescribedFire := "Prescribed Fire"

  /** `incident['type'] in {...}`: only a string can equal one of the names. */
  predicate TypeExcluded(t: Value)
  {
    t.Str? && t.s in ExcludedTypes
  }

  /** `float(v)` does not raise: booleans convert, numbers convert unless an
      integer is too large for a double, strings convert when Python's float
      grammar accepts them, None, lists and dicts raise TypeError. */
  predicate IsFloatValue(v: Value, env: Env)
  {
    match v
    case Bool(_) => true
    case Num(x) => env.numFits(x)
    case Str(s) => env.isFloat(s)
    case _ => false
  }

  /** `float(v)` raises OverflowError, which `is_valid_lat_long` does not catch. */
  predicate FloatOverflows(v: Value, env: Env)
  {
    v.Num? && !env.numFits(v.x)
  }

  /** `is_valid_lat_long` does not raise: the latitude does not overflow, and
      neither does the longitude when the latitude converted. */
  predicate LatLongDefined(rec: map<string, Value>, env: Env)
  {
    && !FloatOverflows(Get(rec, "latitude"), env)
    && (IsFloatValue(Get(rec, "latitude"), env) ==> !FloatOverflows(Get(rec, "longitude"), env))
  }

  /** `is_valid_lat_long`: both coordinates convert with `float`; a missing
      key reads as None. */
  predicate IsValidLatLong(rec: map<string, Value>, env: Env)
  {
    IsFloatValue(Get(rec, "latitude"), env) && IsFloatValue(Get(rec, "longitude"), env)
  }

  /** `date` holds a string one of the two formats parses. */
  predicate DateParses(date: Value, env: Env)
  {
    date.Str? && env.parseDate(date.s).Some?
  }

  /** `is_old_prescribed_fire` does not raise: for a prescribed fire the date
      must parse, because the second `strptime` is outside any `try`. */
  predicate StaleCheckDefined(rec: map<string, Value>, env: Env)
  {
    Get(rec, "type") == Str(PrescribedFire) ==> DateParses(Get(rec, "date"), env)
  }

  /** `is_old_prescribed_fire`: a prescribed fire dated strictly before
      now - 90 days. */
  predicate IsOldPrescribedFire(rec: map<string, Value>, env: Env)
    requires StaleCheckDefined(rec, env)
  {
    if Get(rec, "type") == Str(PrescribedFire) then
      env.parseDate(Get(rec, "date").s).value < env.staleCutoff
    else
      false
  }

  /** The filter expression does not raise on `rec`: `incident['type']`
      needs the key and a hashable value, the coordinate check is reached
      only by records of a kept type, and the stale check only by records
      that pass the first two tests. */
  predicate FilterDefined(rec: map<string, Value>, env: Env)
  {
    && "type" in rec
    && Hashable(rec["type"])
    && (!TypeExcluded(rec["type"]) ==> LatLongDefined(rec, env))
    && (!TypeExcluded(rec["type"]) && IsValidLatLong(rec, env) ==> StaleCheckDefined(rec, env))
  }

  /** The filter keeps a record exactly when its type is not excluded, its
      coordinates convert, and it is not a stale prescribed fire. */
  predicate Admitted(rec: map<string, Value>, env: Env)
    requires FilterDefined(rec, env)
  {
    !TypeExcluded(rec["type"]) && IsValidLatLong(rec, env) && !IsOldPrescribedFire(rec, env)
  }

  /** An excluded type is rejected whatever else the record holds. */
  lemma ExcludedTypeRejected(rec: map<string, Value>, env: Env)
    requires FilterDefined(rec, env)
    requires Get(rec, "type").Str? && Get(rec, "type").s in ExcludedTypes
    ensures !Admitted(rec, env)
  {
  }

  /** A missing, null, list, dict or unparseable coordinate rejects the record. */
  lemma BadCoordinateRejected(rec: map<string, Value>, env: Env)
    requires FilterDefined(rec, env)
    requires !IsFloatValue(Get(rec, "latitude"), env) || !IsFloatValue(Get(rec, "longitude"), env)
    ensures !Admitted(rec, env)
  {
  }

  /** A coordinate `float` cannot hold makes the filter raise instead of
      rejecting the record: the latitude always, the longitude when the
      latitude converted. */
  lemma CoordinateOverflowRaises(rec: map<string, Value>, env: Env)
    requires "type" in rec && !TypeExcluded(rec["type"])
    requires FloatOverflows(Get(rec, "latitude"), env) ||
             (IsFloatValue(Get(rec, "latitude"), env) && FloatOverflows(Get(rec, "longitude"), env))
    ensures !FilterDefined(rec, env)
  {
  }

  /** The 90-day boundary is strict: a prescribed fire dated exactly at the
      cutoff is kept, one dated any earlier is dropped. */
  lemma PrescribedFireBoundary(rec: map<string, Value>, env: Env, t: int)
    requires FilterDefined(rec, env)
    requires Get(rec, "type") == Str(PrescribedFire) && IsValidLatLong(rec, env)
    requires Get(rec, "date").Str? && env.parseDate(Get(rec, "date").s) == Some(t)
    ensures Admitted(rec, env) <==> t >= env.staleCutoff
  {
  }
}
