/** Collecting one bounded response body. */
module BinaryBody {
  import opened Results
  import opened ByteStrings

  const INITIAL_BODY_RESERVE_LIMIT: nat := 1024 * 1024
  const UNKNOWN_BODY_INITIAL_RESERVE: nat := 64 * 1024

  /** What reading the next chunk yields; the body ends with the sequence. */
  datatype Read = Chunk(bytes: Bytes) | Failed | Canceled

  datatype Outcome = Body(bytes: Bytes) | TooLarge | ReadError | TaskCanceled

  function Min(a: nat, b: nat): nat { if a < b then a else b }

  function Max(a: nat, b: nat): nat { if a < b then b else a }

  /** All bytes of the chunks before the first other event. */
  function Received(input: seq<Read>): Bytes {
    if input == [] || !input[0].Chunk? then [] else input[0].bytes + Received(input[1..])
  }

  /** How the input ends: `None` after the last chunk, else the event that stopped it. */
  function Stopped(input: seq<Read>): Option<Read> {
    if input == [] then None else if !input[0].Chunk? then Some(input[0]) else Stopped(input[1..])
  }

  /** The simple form: refuse an announced or received size above the limit, otherwise return everything. */
  function Expected(announced: Option<nat>, input: seq<Read>, max: nat): Outcome {
    if announced.Some? && announced.value > max then TooLarge
    else if |Received(input)| > max then TooLarge
    else
      match Stopped(input)
      case None => Body(Received(input))
      case Some(event) => if event.Canceled? then TaskCanceled else ReadError
  }

  function BoundedInitialCapacity(announced: Option<nat>, max: nat): (r: nat)
    ensures r <= max && r <= INITIAL_BODY_RESERVE_LIMIT && (announced.Some? ==> r <= announced.value)
  {
    Min(Min(if announced.Some? then announced.value else 0, max), INITIAL_BODY_RESERVE_LIMIT)
  }

  /** The capacity asked for when `required` bytes no longer fit. */
  function Grown(capacity: nat, required: nat, max: nat): (r: nat)
    requires required <= max <= U64_MAX
    ensures required <= r <= max
  {
    var doubled := Min(Min(2 * Max(capacity, UNKNOWN_BODY_INITIAL_RESERVE), U64_MAX), max);
    Min(Max(required, doubled), max)
  }

  /** Whatever follows, an oversized front is refused. */
  lemma FrontCounts(front: Bytes, input: seq<Read>)
    requires input != [] && input[0].Chunk?
    ensures front + Received(input) == front + input[0].bytes + Received(input[1..])
    ensures Stopped(input) == Stopped(input[1..])
  {}

  /** The body loop of `download_once`. `capacity` is what the buffer has reserved at the end. */
  method Collect(announced: Option<nat>, input: seq<Read>, max: nat) returns (r: Outcome, capacity: nat)
    requires max <= U64_MAX
    ensures r == Expected(announced, input, max)
    ensures capacity <= max
    ensures r.Body? ==> |r.bytes| <= capacity
  {
    capacity := 0;
    if announced.Some? && announced.value > max { return TooLarge, 0; }
    capacity := BoundedInitialCapacity(announced, max);
    var body: Bytes, total, i := [], 0, 0;
    while i < |input|
      invariant 0 <= i <= |input| && total == |body| <= capacity <= max
      invariant body + Received(input[i..]) == Received(input) && Stopped(input[i..]) == Stopped(input)
    {
      match input[i]
      case Canceled => return TaskCanceled, capacity;
      case Failed => return ReadError, capacity;
      case Chunk(bytes) =>
        assert input[i..][1..] == input[i + 1..];
        FrontCounts(body, input[i..]);
        if total + |bytes| > U64_MAX { return TooLarge, capacity; }
        total := total + |bytes|;
        if total > max { return TooLarge, capacity; }
        if total > capacity { capacity := Grown(capacity, total, max); }
        body := body + bytes;
      i := i + 1;
    }
    assert input[i..] == [];
    r := Body(body);
  }
}
