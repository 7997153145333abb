/** The dump download that survives lost connections: resumableBody, its reconnects and
    their backoff. */
module Download {
  const MAX_RETRIES: nat := 10
  const BASE_DELAY: nat := 5
  const MAX_DELAY: nat := 120
  const BACKOFF_FACTOR: nat := 2

  // ------------------------------------------------------------------- world

  /** The content every version of the file has, by ETag: one ETag, one content. */
  type World = string -> string

  /** How one request is answered. */
  datatype Response = Partial(body: string) | Full(body: string) | PreconditionFailed | RangeNotSatisfiable | Refused

  datatype Mood = Honour | IgnoreRange | Refuse

  /** RFC 9110 sections 13.1.1 and 14.2: If-Match fails unless the ETag is current, and a range
      that starts at or after the end is not satisfiable. The server may also ignore the
      range, or fail. */
  function Serve(world: World, current: string, mood: Mood, etag: string, offset: nat): Response {
    if mood.Refuse? then Refused
    else if current != etag then PreconditionFailed
    else if mood.IgnoreRange? then Full(world(current))
    else if offset >= |world(current)| then RangeNotSatisfiable
    else Partial(world(current)[offset..])
  }

  // -------------------------------------------------------------------- body

  /** The body on version `etag` of the file: what the open connection still has to deliver,
      how much was returned, and the reconnects since something last was. */
  datatype Body = Body(
    etag: string, offset: nat, retries: nat, rest: string, open: bool, returned: string, requests: nat)

  function Start(world: World, etag: string): Body { Body(etag, 0, 0, world(etag), true, "", 0) }

  datatype Failure = NoFailure | EndOfFile | Dropped

  datatype Outcome = Fine | Eof | LostConnection | DumpChanged | GaveUp | Cancelled | Failed

  /** One Read: how many bytes the connection gives, how it ends, whether the backoff is
      waited out, and who answers the reconnect. */
  datatype Turn = Turn(n: nat, failure: Failure, waited: bool, current: string, mood: Mood)

  /** A connection delivers no more than it has, ends with end-of-file only after its last
      byte, and gives nothing but errors once closed. */
  predicate Possible(b: Body, t: Turn) {
    && t.n <= |b.rest| && (t.failure.EndOfFile? ==> t.n == |b.rest|)
    && (!b.open ==> t.n == 0 && t.failure.Dropped?)
  }

  function Reconnect(world: World, b: Body, t: Turn): (Body, Outcome) {
    var again := b.(retries := b.retries + 1);
    if again.retries > MAX_RETRIES then (again, GaveUp)
    else if !t.waited then (again, Cancelled)
    else
      var asked := again.(requests := b.requests + 1);
      match Serve(world, t.current, t.mood, b.etag, b.offset)
      case Partial(body) => (asked.(rest := body, open := true), Fine)
      case PreconditionFailed => (asked, DumpChanged)
      case RangeNotSatisfiable => (asked, DumpChanged)
      case Full(_) => (asked, Failed)
      case Refused => (asked, Failed)
  }

  /** What the connection gives, before looking at how it ends. */
  function Got(b: Body, n: nat): Body
    requires n <= |b.rest|
  {
    b.(offset := b.offset + n, rest := b.rest[n..], returned := b.returned + b.rest[..n],
       retries := if n > 0 then 0 else b.retries, requests := if n > 0 then 0 else b.requests)
  }

  function Read(world: World, b: Body, t: Turn): (Body, Outcome) {
    if !Possible(b, t) then (b, Fine)
    else
      var got := Got(b, t.n);
      match t.failure
      case NoFailure => (got, Fine)
      case EndOfFile => (got, Eof)
      case Dropped =>
        var lost := got.(open := false);
        if b.etag == "" then (lost, LostConnection) else Reconnect(world, lost, t)
  }

  function Run(world: World, b: Body, turns: seq<Turn>): Body {
    if turns == [] then b else Read(world, Run(world, b, turns[..|turns| - 1]), turns[|turns| - 1]).0
  }

  /** The bytes returned are the beginning of the version, and an open connection has the rest. */
  predicate InStep(world: World, b: Body) {
    && b.offset == |b.returned| <= |world(b.etag)|
    && b.returned == world(b.etag)[..b.offset]
    && (b.open ==> b.rest == world(b.etag)[b.offset..])
    && b.requests <= b.retries && b.requests <= MAX_RETRIES
  }

  lemma Delivered(file: string, offset: nat, n: nat, returned: string, rest: string)
    requires offset <= |file| && returned == file[..offset] && rest == file[offset..] && n <= |rest|
    ensures offset + n <= |file| && returned + rest[..n] == file[..offset + n] && rest[n..] == file[offset + n..]
  {
  }

  lemma GotInStep(world: World, b: Body, n: nat)
    requires InStep(world, b) && n <= |b.rest| && (!b.open ==> n == 0)
    ensures InStep(world, Got(b, n))
    ensures b.open && n == |b.rest| ==> Got(b, n).returned == world(b.etag)
  {
    if b.open {
      Delivered(world(b.etag), b.offset, n, b.returned, b.rest);
    } else {
      assert b.returned + b.rest[..0] == b.returned;
    }
  }

  lemma ReconnectInStep(world: World, b: Body, t: Turn)
    requires InStep(world, b) && !b.open
    ensures InStep(world, Reconnect(world, b, t).0) && Reconnect(world, b, t).0.etag == b.etag
  {
  }

  lemma ReadInStep(world: World, b: Body, t: Turn)
    requires InStep(world, b)
    ensures InStep(world, Read(world, b, t).0) && Read(world, b, t).0.etag == b.etag
    ensures Read(world, b, t).1 == Eof ==> Read(world, b, t).0.returned == world(b.etag)
  {
    if Possible(b, t) {
      GotInStep(world, b, t.n);
      if t.failure.Dropped? && b.etag != "" { ReconnectInStep(world, Got(b, t.n).(open := false), t); }
    }
  }

  lemma {:induction false} RunInStep(world: World, etag: string, turns: seq<Turn>)
    ensures InStep(world, Run(world, Start(world, etag), turns))
    ensures Run(world, Start(world, etag), turns).etag == etag
  {
    if turns == [] {
      assert world(etag)[0..] == world(etag) && world(etag)[..0] == "";
    } else {
      var n := |turns| - 1;
      RunInStep(world, etag, turns[..n]);
      ReadInStep(world, Run(world, Start(world, etag), turns[..n]), turns[n]);
    }
  }

  /** Under any schedule of short reads, lost connections, reconnects, refusals and changes of
      the file on the server, the bytes returned so far are exactly the beginning of the
      version the ETag names; end-of-file comes only after all of it; and at most ten
      reconnects in a row bring nothing. */
  lemma ResumedBytes(world: World, etag: string, turns: seq<Turn>, next: Turn)
    ensures var b := Run(world, Start(world, etag), turns);
            && b.returned <= world(etag) && b.offset == |b.returned| && b.requests <= MAX_RETRIES
            && (Read(world, b, next).1 == Eof ==> Read(world, b, next).0.returned == world(etag))
  {
    RunInStep(world, etag, turns);
    ReadInStep(world, Run(world, Start(world, etag), turns), next);
  }

  /** A resumed download reports a changed dump exactly when the current version is another
      one, or when the connection was lost only after the last byte: there is nothing left
      to ask for then, and the server's answer to the empty range is taken for a change. */
  lemma DumpChangedIff(world: World, b: Body, t: Turn)
    requires InStep(world, b) && Possible(b, t) && t.failure.Dropped? && b.etag != ""
    requires t.waited && !t.mood.Refuse? && (t.n > 0 || b.retries < MAX_RETRIES)
    ensures Read(world, b, t).1 == DumpChanged <==>
            t.current != b.etag || (t.mood.Honour? && b.offset + t.n == |world(b.etag)|)
  {
    GotInStep(world, b, t.n);
  }

  /** A lost connection is made good exactly when there are retries left (at most ten in a row bring
      nothing), the backoff is waited out, the file is still the same version, the server sends the
      range, and some of it is left; then the new connection has all the rest of it. */
  lemma ResumesIff(world: World, b: Body, t: Turn)
    requires InStep(world, b) && Possible(b, t) && t.failure.Dropped? && b.etag != ""
    ensures var got, outcome := Read(world, b, t).0, Read(world, b, t).1;
            && (outcome == Fine <==>
                  && (t.n > 0 || b.retries < 10) && t.waited
                  && t.current == b.etag && t.mood.Honour? && b.offset + t.n < |world(b.etag)|)
            && (outcome == Fine ==>
                  got.open && got.offset == b.offset + t.n && got.rest == world(b.etag)[got.offset..])
            && (outcome == GaveUp <==> t.n == 0 && b.retries >= 10)
  {
    GotInStep(world, b, t.n);
  }

  /** And from any open connection reading to its end completes the download. */
  lemma ReadsToTheEnd(world: World, b: Body, t: Turn)
    requires InStep(world, b) && b.open && t.n == |b.rest| && t.failure.EndOfFile?
    ensures Read(world, b, t).1 == Eof && Read(world, b, t).0.returned == world(b.etag)
  {
    GotInStep(world, b, t.n);
  }

  // ----------------------------------------------------------------- backoff

  function Pow2(k: nat): nat { if k == 0 then 1 else 2 * Pow2(k - 1) }

  lemma {:induction false} Pow2Grows(i: nat, k: nat)
    requires i <= k
    ensures Pow2(i) <= Pow2(k)
  {
    if i < k { Pow2Grows(i, k - 1); }
  }

  /** dumpResumeRetryDelay, in seconds: doubling from five, capped at two minutes. */
  method RetryDelay(retries: int) returns (delay: nat)
    ensures retries <= 1 ==> delay == BASE_DELAY
    ensures retries > 1 ==>
              var doubled := BASE_DELAY * Pow2(retries - 1);
              delay == if doubled <= MAX_DELAY then doubled else MAX_DELAY
  {
    delay := BASE_DELAY;
    var i := 1;
    while i < retries
      invariant 1 <= i && (if retries > 1 then i <= retries else i == 1)
      invariant delay == BASE_DELAY * Pow2(i - 1) <= MAX_DELAY
    {
      delay := delay * BACKOFF_FACTOR;
      if delay > MAX_DELAY {
        Pow2Grows(i, retries - 1);
        return MAX_DELAY;
      }
      i := i + 1;
    }
  }

  // -------------------------------------------------------------- the object

  /** resumableBody, reading from a connection and talking to a server as the turns say. */
  class ResumableBody {
    const etag: string
    var offset: nat
    var retries: nat
    var rest: string
    var open: bool
    ghost var returned: string
    ghost var requests: nat

    constructor (world: World, etag: string)
      ensures Value() == Start(world, etag)
    {
      this.etag := etag;
      offset, retries, rest, open := 0, 0, world(etag), true;
      returned, requests := "", 0;
    }

    ghost function Value(): Body
      reads this
    {
      Body(etag, offset, retries, rest, open, returned, requests)
    }

    /** Read. What it hands out is counted even when the connection is lost with it. */
    method ReadSome(world: World, t: Turn) returns (bytes: string, outcome: Outcome)
      requires Possible(Value(), t)
      modifies this
      ensures (Value(), outcome) == Read(world, old(Value()), t)
      ensures returned == old(returned) + bytes
      ensures old(InStep(world, Value())) ==> InStep(world, Value()) && returned <= world(etag)
    {
      ghost var before := Value();
      bytes := Take(t.n);
      outcome := if t.failure.EndOfFile? then Eof else Fine;
      if t.failure.Dropped? {
        open := false;
        if etag == "" {
          outcome := LostConnection;
        } else {
          outcome := Resume(world, t);
        }
      }
      if InStep(world, before) { ReadInStep(world, before, t); }
    }

    /** The bytes the connection gives. Getting any resets the count of retries. */
    method Take(n: nat) returns (bytes: string)
      requires n <= |rest|
      modifies this
      ensures Value() == Got(old(Value()), n)
      ensures returned == old(returned) + bytes
    {
      bytes := rest[..n];
      rest, offset := rest[n..], offset + |bytes|;
      returned := returned + bytes;
      if n > 0 { retries, requests := 0, 0; }
    }

    /** reconnect: wait, ask for the rest of the same version, and judge the answer. */
    method Resume(world: World, t: Turn) returns (outcome: Outcome)
      requires !open
      modifies this
      ensures (Value(), outcome) == Reconnect(world, old(Value()), t)
      ensures returned == old(returned)
    {
      retries := retries + 1;
      if retries > MAX_RETRIES { return GaveUp; }
      var delay := RetryDelay(retries);
      if !t.waited { return Cancelled; }
      requests := requests + 1;
      var response := Serve(world, t.current, t.mood, etag, offset);
      match response {
        case Partial(body) =>
          rest, open := body, true;
          outcome := Fine;
        case PreconditionFailed => outcome := DumpChanged;
        case RangeNotSatisfiable => outcome := DumpChanged;
        case Full(_) => outcome := Failed;
        case Refused => outcome := Failed;
      }
    }
  }
}
