/**
 * What the drivers receive from the outside world: wall-clock instants and the outcome
 * of opening a file or an HTTP response body and reading it once into a buffer.
 */
module Io {
  import opened GoStrings

  /** A `time.Time`, as nanoseconds since the zero time (1 January of year 1, UTC). */
  type Time = int

  /** The zero `time.Time`; a driver that was never refreshed reports it. */
  const ZeroTime: Time := 0

  const NanosPerSecond: int := 1_000_000_000

  /** `now.Sub(t)`: a `time.Duration` in nanoseconds, saturating at the range of `int64`. */
  function Sub(now: Time, t: Time): (d: int)
    ensures MinInt64 <= d <= MaxInt64
    ensures MinInt64 <= now - t <= MaxInt64 ==> d == now - t
    ensures now - t > MaxInt64 ==> d == MaxInt64
    ensures now - t < MinInt64 ==> d == MinInt64
  {
    if now - t > MaxInt64 then MaxInt64
    else if now - t < MinInt64 then MinInt64
    else now - t
  }

  /** `time.Since(t).Seconds()` evaluated at instant `now` (floating-point rounding is not modelled). */
  function SecondsSince(now: Time, t: Time): (r: real)
    ensures r * NanosPerSecond as real == Sub(now, t) as real
  {
    Sub(now, t) as real / NanosPerSecond as real
  }

  /** Whether a `Read` call returned no error, `io.EOF`, or another error. */
  datatype ReadError = NoError | EndOfFile | OtherError

  /**
   * One attempt to fetch content: either the source could not be reached (the file could
   * not be opened, the HTTP request failed), or one `Read` into the buffer returned
   * `data` (the first n bytes of the buffer) together with `err`. Content is a byte
   * string: each character of `data` stands for one byte.
   */
  datatype ReadOutcome = Unreachable | Read(data: string, err: ReadError)

  /** A single `Read` never delivers more bytes (characters of `data`) than the buffer holds. */
  predicate FitsBuffer(r: ReadOutcome, size: nat)
  {
    r.Read? ==> |r.data| <= size
  }

  /** The contents of a `size`-byte buffer after a read of `data` into it: the rest stays zero. */
  function ZeroPadded(data: string, size: nat): (buf: string)
    requires |data| <= size
    ensures |buf| == size
    ensures buf[..|data|] == data
    ensures forall i :: |data| <= i < size ==> buf[i] == '\0'
  {
    data + seq(size - |data|, _ => '\0')
  }
}
