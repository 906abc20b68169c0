/** Small value types and sequence helpers shared by every module of the model. */
module Base {

  datatype Option<T> = None | Some(value: T)

  datatype Result<T, E> = Ok(value: T) | Err(error: E)

  function Min(a: nat, b: nat): nat
  {
    if a <= b then a else b
  }

  function Max(a: nat, b: nat): nat
  {
    if a <= b then b else a
  }

  /** `Result::ok`: a failed reading becomes `None`, a successful one `Some`. */
  function ToOption<T, E>(r: Result<T, E>): (o: Option<T>)
    ensures o.None? <==> r.Err?
    ensures r.Ok? ==> o == Some(r.value)
  {
    match r
    case Ok(v) => Some(v)
    case Err(_) => None
  }

  /** `VecDeque::get`: the element at `i`, or `None` past the end. */
  function Get<T>(s: seq<T>, i: nat): (o: Option<T>)
    ensures o.None? <==> i >= |s|
    ensures i < |s| ==> o == Some(s[i])
  {
    if i < |s| then Some(s[i]) else None
  }

  /**
   * What repeated `pop_back` leaves while the length exceeds `n`:
   * the first `min(|s|, n)` elements, in their original positions.
   */
  function Truncated<T>(s: seq<T>, n: nat): (r: seq<T>)
    ensures |r| == Min(|s|, n) <= n
    ensures forall i :: 0 <= i < |r| ==> r[i] == s[i]
    ensures |s| <= n ==> r == s
  {
    if |s| <= n then s else s[..n]
  }

  lemma TruncatedIdempotent<T>(s: seq<T>, n: nat)
    ensures Truncated(Truncated(s, n), n) == Truncated(s, n)
  {
  }

  /**
   * `Instant::elapsed` in whole milliseconds (`as_millis`) for an instant
   * taken at `since` and a clock that now reads `now`; the subtraction
   * saturates at zero, as Rust's does.
   */
  function ElapsedMillis(now: nat, since: nat): (d: nat)
    ensures since <= now ==> since + d == now
    ensures now < since ==> d == 0
  {
    if since <= now then now - since else 0
  }

  /** `Duration::as_secs`: whole seconds, the remainder truncated. */
  function WholeSeconds(millis: nat): nat
  {
    millis / 1000
  }
}
