/**
 The records the uptime monitor keeps about each endpoint (model.go).
 Timestamps and durations are whole numbers of nanoseconds.
 */
module Model {

  datatype Option<T> = None | Some(value: T)

  /** One measurement of one endpoint; mirrors the TestResult struct,
      plus the ErrorMsg field that the probe code assigns. */
  datatype TestResult = TestResult(
    name: string,
    url: string,
    statusCode: int,
    tested: nat,
    success: bool,
    duration: nat,
    durationMS: int,
    errorMsg: string)

  /** The TestMap type: endpoint name to its latest result. */
  type TestMap = map<string, TestResult>

  /** The entries of `m` whose keys are in `ks`. */
  function Restrict<K, V>(m: map<K, V>, ks: set<K>): (r: map<K, V>)
    ensures r.Keys == m.Keys * ks
    ensures forall k :: k in r ==> r[k] == m[k]
  {
    map k | k in m && k in ks :: m[k]
  }
}
