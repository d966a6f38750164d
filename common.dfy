/** Shared failure-compatible wrappers and string helpers used by every module of the model. */
module Common {

  /** Go's `*T`: None is nil. */
  datatype Option<+T> = None | Some(value: T) {
    /** `getField` of the Go code: the pointed-to value, or the zero value for nil. */
    function GetOr(zero: T): T {
      match this
      case Some(v) => v
      case None => zero
    }
  }

  /** A Go `(T, error)` pair: either a value or an error message. */
  datatype Result<+T> = Ok(value: T) | Err(error: string) {
    predicate IsFailure() { Err? }
    function PropagateFailure<U>(): Result<U>
      requires Err?
    {
      Err(error)
    }
    function Extract(): T
      requires Ok?
    {
      value
    }
  }

  /** A Go `error` alone: nil or an error message. */
  datatype Outcome = Pass | Fail(error: string)

  /** HTTP status codes the handlers return. */
  const StatusOK: int := 200
  const StatusBadRequest: int := 400
  const StatusUnauthorized: int := 401
  const StatusForbidden: int := 403
  const StatusInternalServerError: int := 500

  /** `s` occurs in `t` starting at index `i`. */
  predicate OccursAt(t: string, s: string, i: int)
  {
    0 <= i && i + |s| <= |t| && t[i..i + |s|] == s
  }

  /** `strings.Contains(t, s)`. */
  predicate Contains(t: string, s: string)
  {
    exists i :: 0 <= i <= |t| && OccursAt(t, s, i)
  }

  /** `strings.HasPrefix(t, p)`. */
  predicate HasPrefix(t: string, p: string)
  {
    |p| <= |t| && t[..|p|] == p
  }

  /** `strings.TrimSuffix(s, suffix)`: drops one trailing occurrence of suffix, if any. */
  function TrimSuffix(s: string, suffix: string): (r: string)
    ensures |suffix| <= |s| && s[|s| - |suffix|..] == suffix ==> r + suffix == s
    ensures !(|suffix| <= |s| && s[|s| - |suffix|..] == suffix) ==> r == s
  {
    if |suffix| <= |s| && s[|s| - |suffix|..] == suffix then s[..|s| - |suffix|] else s
  }

  /** Decimal rendering of a natural number, as `strconv.Itoa` prints it. */
  function NatToString(n: nat): (r: string)
    ensures |r| >= 1
    decreases n
  {
    var d := [(n % 10) as char + '0'];
    if n < 10 then d else NatToString(n / 10) + d
  }

  /** `strconv.Itoa` for any integer. */
  function IntToString(n: int): string
  {
    if n < 0 then "-" + NatToString(-n) else NatToString(n)
  }

  /** `net.JoinHostPort`: brackets a host that contains a colon (an IPv6 literal). */
  function JoinHostPort(host: string, port: int): string
  {
    var h := if ':' in host then "[" + host + "]" else host;
    h + ":" + IntToString(port)
  }

  /** `%q` of a string that holds no quote, backslash or unprintable character. */
  function Quote(s: string): string
  {
    "\"" + s + "\""
  }
}
