/**
 The body buffering loop of `src/service.rs` (`buffer_body`).

 A body is a finite sequence of frames. The loop keeps the data frames, skips
 trailers, stops at a transport error and stops at the first data frame that
 would push the buffer over the cap.
 */
module BodyBuffer {
  import opened Octets
  import opened Wrappers

  datatype Frame = Data(bytes: Octets) | Trailers | Broken

  datatype BufferFailure = TooLarge | ReadError

  type Buffered = Result<Option<Octets>, BufferFailure>

  /** The concatenated data frames: what the client sent. */
  function Content(frames: seq<Frame>): Octets
  {
    if frames == [] then []
    else if frames[0].Data? then frames[0].bytes + Content(frames[1..])
    else Content(frames[1..])
  }

  /** An empty body is `None`, like the frozen buffer of the source. */
  function Frozen(content: Octets): Option<Octets>
  {
    if content == [] then None else Some(content)
  }

  /** The forwarded body of a buffered request. */
  function Rebuilt(buffered: Option<Octets>): Octets
  {
    if buffered.Some? then buffered.value else []
  }

  /** Frame `k` is where the read stops with a transport error. */
  ghost predicate BreaksAt(frames: seq<Frame>, k: nat)
  {
    k < |frames| && frames[k].Broken?
  }

  /** Frame `k` carries the data that crosses the cap. */
  ghost predicate CrossesAt(frames: seq<Frame>, cap: nat, k: nat)
  {
    k < |frames| && frames[k].Data? && |Content(frames[..k])| + |frames[k].bytes| > cap
  }

  ghost predicate StopsAt(frames: seq<Frame>, cap: nat, k: nat)
  {
    BreaksAt(frames, k) || CrossesAt(frames, cap, k)
  }

  /** The buffering outcome, read off the frames alone. */
  ghost predicate IsOutcome(frames: seq<Frame>, cap: nat, r: Buffered)
  {
    match r
    case Ok(buffered) =>
      && (forall k: nat | k < |frames| :: !StopsAt(frames, cap, k))
      && buffered == Frozen(Content(frames))
    case Err(failure) =>
      exists k: nat ::
        && StopsAt(frames, cap, k)
        && (forall j: nat | j < k :: !StopsAt(frames, cap, j))
        && failure == if BreaksAt(frames, k) then ReadError else TooLarge
  }

  /** The recursive form the pipeline specification uses. */
  function Buffer(frames: seq<Frame>, cap: nat): (r: Buffered)
  {
    BufferFrom([], frames, cap)
  }

  function BufferFrom(held: Octets, frames: seq<Frame>, cap: nat): Buffered
    decreases frames
  {
    if frames == [] then Ok(Frozen(held))
    else match frames[0]
      case Broken => Err(ReadError)
      case Trailers => BufferFrom(held, frames[1..], cap)
      case Data(bytes) =>
        if |held| + |bytes| > cap then Err(TooLarge)
        else BufferFrom(held + bytes, frames[1..], cap)
  }

  /** The loop itself. */
  method BufferBody(frames: seq<Frame>, cap: nat) returns (r: Buffered)
    ensures r == Buffer(frames, cap)
  {
    var held: Octets := [];
    var next := 0;
    while next < |frames|
      invariant 0 <= next <= |frames|
      invariant |held| <= cap
      invariant BufferFrom(held, frames[next..], cap) == Buffer(frames, cap)
    {
      var frame := frames[next];
      if frame.Broken? {
        return Err(ReadError);
      }
      if frame.Data? {
        if |held| + |frame.bytes| > cap {
          return Err(TooLarge);
        }
        held := held + frame.bytes;
      }
      assert frames[next..][1..] == frames[next + 1..];
      next := next + 1;
    }
    r := Ok(Frozen(held));
  }

  lemma {:induction false} ContentAppend(a: seq<Frame>, b: seq<Frame>)
    ensures Content(a + b) == Content(a) + Content(b)
  {
    if a == [] {
      assert a + b == b;
    } else {
      assert (a + b)[0] == a[0] && (a + b)[1..] == a[1..] + b;
      ContentAppend(a[1..], b);
    }
  }

  lemma ContentStep(frames: seq<Frame>, k: nat)
    requires k < |frames|
    ensures Content(frames[..k + 1]) ==
            Content(frames[..k]) + if frames[k].Data? then frames[k].bytes else []
  {
    assert frames[..k + 1] == frames[..k] + [frames[k]];
    ContentAppend(frames[..k], [frames[k]]);
  }

  /** The recursion started in the middle computes the outcome of the whole body. */
  lemma {:induction false} BufferFromIsOutcome(frames: seq<Frame>, cap: nat, k: nat)
    requires k <= |frames|
    requires forall j: nat | j < k :: !StopsAt(frames, cap, j)
    ensures IsOutcome(frames, cap, BufferFrom(Content(frames[..k]), frames[k..], cap))
    decreases |frames| - k
  {
    if k == |frames| {
      assert frames[..k] == frames;
    } else {
      ContentStep(frames, k);
      assert frames[k..][0] == frames[k] && frames[k..][1..] == frames[k + 1..];
      if StopsAt(frames, cap, k) {
      } else {
        if !frames[k].Data? {
          assert Content(frames[..k]) + [] == Content(frames[..k]);
        }
        BufferFromIsOutcome(frames, cap, k + 1);
      }
    }
  }

  /** The buffering loop returns the outcome the frames determine. */
  lemma BufferMeetsSpec(frames: seq<Frame>, cap: nat)
    ensures IsOutcome(frames, cap, Buffer(frames, cap))
  {
    BufferFromIsOutcome(frames, cap, 0);
  }

  /** At most one outcome meets the specification, so the specification is the function. */
  lemma OutcomeIsUnique(frames: seq<Frame>, cap: nat, r: Buffered, s: Buffered)
    requires IsOutcome(frames, cap, r) && IsOutcome(frames, cap, s)
    ensures r == s
  {
    if r.Err? && s.Err? {
      var k: nat :| StopsAt(frames, cap, k)
        && (forall j: nat | j < k :: !StopsAt(frames, cap, j))
        && r.error == if BreaksAt(frames, k) then ReadError else TooLarge;
      var l: nat :| StopsAt(frames, cap, l)
        && (forall j: nat | j < l :: !StopsAt(frames, cap, j))
        && s.error == if BreaksAt(frames, l) then ReadError else TooLarge;
      assert k <= l && l <= k;
    }
  }

  /** A buffered body is the client's content, and it fits the cap. */
  lemma BufferedIsContent(frames: seq<Frame>, cap: nat)
    ensures Buffer(frames, cap).Ok? ==>
              && Rebuilt(Buffer(frames, cap).value) == Content(frames)
              && |Content(frames)| <= cap
              && (forall k: nat | k < |frames| :: !frames[k].Broken?)
  {
    BufferMeetsSpec(frames, cap);
    if Buffer(frames, cap).Ok? {
      FitsWhenNothingStops(frames, cap, |frames|);
      assert frames[..|frames|] == frames;
      forall k: nat | k < |frames| ensures !frames[k].Broken? {
        assert !StopsAt(frames, cap, k);
      }
    }
  }

  lemma {:induction false} FitsWhenNothingStops(frames: seq<Frame>, cap: nat, k: nat)
    requires k <= |frames|
    requires forall j: nat | j < |frames| :: !StopsAt(frames, cap, j)
    ensures |Content(frames[..k])| <= cap
  {
    if k > 0 {
      FitsWhenNothingStops(frames, cap, k - 1);
      ContentStep(frames, k - 1);
      assert !StopsAt(frames, cap, k - 1);
    }
  }

  /** Only the content decides: a body without errors buffers exactly when it fits. */
  lemma BufferWithoutErrors(frames: seq<Frame>, cap: nat)
    requires forall k: nat | k < |frames| :: !frames[k].Broken?
    ensures Buffer(frames, cap) ==
            if |Content(frames)| <= cap then Ok(Frozen(Content(frames))) else Err(TooLarge)
  {
    BufferMeetsSpec(frames, cap);
    BufferedIsContent(frames, cap);
    if |Content(frames)| <= cap && Buffer(frames, cap).Err? {
      var k: nat :| StopsAt(frames, cap, k);
      ContentStep(frames, k);
      assert frames == frames[..k + 1] + frames[k + 1..];
      ContentAppend(frames[..k + 1], frames[k + 1..]);
    }
  }

  /** A body without content: no error and no data, whatever frames it is made of. */
  ghost predicate EmptyBody(frames: seq<Frame>)
  {
    (forall k: nat | k < |frames| :: !frames[k].Broken?) && Content(frames) == []
  }

  /** Chunking is invisible: equal contents buffer equally however they are framed. */
  lemma ChunkingIsInvisible(a: seq<Frame>, b: seq<Frame>, cap: nat)
    requires forall k: nat | k < |a| :: !a[k].Broken?
    requires forall k: nat | k < |b| :: !b[k].Broken?
    requires Content(a) == Content(b)
    ensures Buffer(a, cap) == Buffer(b, cap)
  {
    BufferWithoutErrors(a, cap);
    BufferWithoutErrors(b, cap);
  }

  /** Trailers change nothing, wherever they arrive and whatever else fails. */
  lemma {:induction false} TrailersChangeNothing(held: Octets, a: seq<Frame>, b: seq<Frame>, cap: nat)
    ensures BufferFrom(held, a + [Trailers] + b, cap) == BufferFrom(held, a + b, cap)
    decreases a
  {
    if a == [] {
      assert [] + [Trailers] + b == [Trailers] + b;
      assert ([Trailers] + b)[1..] == b;
      assert a + b == b;
    } else {
      assert (a + [Trailers] + b)[1..] == a[1..] + [Trailers] + b;
      assert (a + b)[1..] == a[1..] + b;
      TrailersChangeNothing(if a[0].Data? then held + a[0].bytes else held, a[1..], b, cap);
    }
  }
}
