/** Behaviour of the Python runtime and libraries the pipeline calls but whose
    code is not part of this model. Each one is a parameter, so every property
    proved holds whatever these functions do. */
module Host {
  import opened Values

  datatype Env = Env(
    /** `float(s)` returns without raising for the string `s`. */
    isFloat: string -> bool,
    /** `float(n)` does not raise OverflowError for the decoded number `n`;
        false only for a JSON integer too large for a double. */
    numFits: real -> bool,
    /** `datetime.strptime` with "%Y-%m-%dT%H:%M:%S.%f", falling back to
        "%Y-%m-%dT%H:%M:%S"; a timestamp, or None when both raise ValueError. */
    parseDate: string -> Option<int>,
    /** `json.loads(s)`; None when it raises JSONDecodeError. */
    decodeJson: string -> Option<Value>,
    /** `datetime.now() - relativedelta(months=age_limit_months)`. */
    recentCutoff: int,
    /** `datetime.now() - relativedelta(days=90)`. */
    staleCutoff: int)
}
