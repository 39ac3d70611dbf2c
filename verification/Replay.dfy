// The capture of a request body (src/proxy/server.rs): what may be sent again.

module Replay {
  import opened Wrappers

  type Byte = bv8

  const MAX_REPLAY_BYTES: nat := 32 * 1024 * 1024

  function Concat(chunks: seq<seq<Byte>>): seq<Byte> {
    if chunks == [] then [] else Concat(chunks[..|chunks| - 1]) + chunks[|chunks| - 1]
  }

  lemma {:induction false} ConcatSplit(chunks: seq<seq<Byte>>, k: nat)
    requires k <= |chunks|
    ensures Concat(chunks[..k]) <= Concat(chunks)
  {
    if k == |chunks| {
      assert chunks[..k] == chunks;
    } else {
      var n := |chunks| - 1;
      ConcatSplit(chunks[..n], k);
      assert chunks[..n][..k] == chunks[..k];
    }
  }

  // What the client sends: collected up front when the body is rewritten, or
  // streamed while it is being forwarded.
  datatype Body =
    | Collected(bytes: seq<Byte>)
    | Streamed(chunks: seq<seq<Byte>>, contentLength: Option<nat>)

  function Whole(b: Body): seq<Byte> {
    match b
    case Collected(bytes) => bytes
    case Streamed(chunks, _) => Concat(chunks)
  }

  // The HTTP/1 decoder delivers exactly the announced length (section 6 of RFC 9112).
  predicate Framed(b: Body) {
    b.Streamed? && b.contentLength.Some? ==> b.contentLength.value == |Concat(b.chunks)|
  }

  // Whether the capture can be replayed once `k` chunks were read.
  predicate Replayable(b: Body, k: nat) {
    match b
    case Collected(_) => true
    case Streamed(chunks, length) =>
      var seen := |Concat(chunks[..if k < |chunks| then k else |chunks|])|;
      length == Some(seen) && seen <= MAX_REPLAY_BYTES
  }

  // A chunk is read as it passes, and nothing is replayed before the end.
  lemma ReplayableIsComplete(b: Body, k: nat)
    requires Framed(b) && b.Streamed? && Replayable(b, k)
    ensures Concat(b.chunks[..if k < |b.chunks| then k else |b.chunks|]) == Whole(b)
  {
    ConcatSplit(b.chunks, if k < |b.chunks| then k else |b.chunks|);
  }

  class ReplayCapture {
    var bytes: seq<Byte>
    var expected: Option<nat>
    var seen: nat
    var overflow: bool
    ghost var pushed: seq<Byte>   // everything that passed, in order

    ghost predicate Valid()
      reads this
    {
      && seen == |pushed|
      && (if overflow then bytes == [] && |pushed| > MAX_REPLAY_BYTES else bytes == pushed)
    }

    // Filled by pushes only: it overflowed exactly when too much passed.
    ghost predicate Incremental()
      reads this
    {
      Valid() && (overflow <==> |pushed| > MAX_REPLAY_BYTES)
    }

    constructor Empty(expected: Option<nat>)
      ensures Incremental() && pushed == [] && this.expected == expected
    {
      bytes, seen, overflow, pushed := [], 0, false, [];
      this.expected := expected;
    }

    constructor Complete(body: seq<Byte>)
      ensures Valid() && pushed == body && !overflow && expected == Some(|body|)
    {
      bytes, seen, overflow, pushed := body, |body|, false, body;
      expected := Some(|body|);
    }

    method Push(chunk: seq<Byte>)
      requires Incremental()
      modifies this
      ensures Incremental() && pushed == old(pushed) + chunk && expected == old(expected)
    {
      seen := seen + |chunk|;
      if !overflow && |bytes| + |chunk| <= MAX_REPLAY_BYTES {
        bytes := bytes + chunk;
      } else {
        overflow := true;
        bytes := [];
      }
      pushed := pushed + chunk;
    }

    // The captured bytes, if the announced length has passed and none were given up.
    function Replay(): (r: Option<seq<Byte>>)
      requires Valid()
      reads this
      ensures r.Some? <==> !overflow && expected == Some(|pushed|)
      ensures r.Some? ==> r.value == pushed
    {
      if !overflow && expected == Some(seen) then Some(bytes) else None
    }
  }

  // Reads further chunks of a streamed body into its capture.
  method PullTo(capture: ReplayCapture, b: Body, from: nat, to: nat) returns (pulled: nat)
    requires b.Streamed? ==>
      capture.Incremental() && from <= |b.chunks| && capture.pushed == Concat(b.chunks[..from])
    requires b.Collected? ==> capture.Valid()
    modifies capture
    ensures capture.expected == old(capture.expected)
    ensures b.Collected? ==>
      capture.Valid() && capture.pushed == old(capture.pushed) && capture.overflow == old(capture.overflow)
      && pulled == from
    ensures b.Streamed? ==>
      capture.Incremental() && from <= pulled <= |b.chunks| && capture.pushed == Concat(b.chunks[..pulled])
      && (from <= to ==> pulled == if to < |b.chunks| then to else |b.chunks|)
  {
    pulled := from;
    if b.Streamed? {
      while pulled < to && pulled < |b.chunks|
        invariant capture.Incremental() && from <= pulled <= |b.chunks|
        invariant pulled <= to || pulled == from
        invariant capture.pushed == Concat(b.chunks[..pulled]) && capture.expected == old(capture.expected)
      {
        assert b.chunks[..pulled + 1][..pulled] == b.chunks[..pulled];
        capture.Push(b.chunks[pulled]);
        pulled := pulled + 1;
      }
    }
  }

  // Collecting refuses a body that does not fit, and keeps one that does.
  method CollectBody(frames: seq<seq<Byte>>) returns (r: Result<seq<Byte>>)
    ensures r.Ok? <==> |Concat(frames)| <= MAX_REPLAY_BYTES
    ensures r.Ok? ==> r.value == Concat(frames)
  {
    var bytes: seq<Byte> := [];
    for i := 0 to |frames|
      invariant bytes == Concat(frames[..i]) && |bytes| <= MAX_REPLAY_BYTES
    {
      assert frames[..i + 1][..i] == frames[..i];
      ConcatSplit(frames, i + 1);
      if |bytes| + |frames[i]| > MAX_REPLAY_BYTES {
        return Err;
      }
      bytes := bytes + frames[i];
    }
    assert frames[..|frames|] == frames;
    r := Ok(bytes);
  }
}
