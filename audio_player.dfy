/** The test client's audio player thread: byte chunks arrive from a queue,
    only whole 2-byte int16 samples are written to the output device, the
    odd byte is kept for the next chunk, and the `None` sentinel ends the
    loop with a final, zero-padded flush. */
module AudioPlayer {
  import opened Wrappers

  /** Bytes per int16 sample. */
  const SAMPLE_WIDTH: nat := 2

  /** The largest whole-sample count of bytes in a buffer of `n` bytes. */
  function PlayableSize(n: nat): (r: nat)
    ensures r <= n && r % SAMPLE_WIDTH == 0
    ensures n - r < SAMPLE_WIDTH
  {
    (n / SAMPLE_WIDTH) * SAMPLE_WIDTH
  }

  /** The final buffer with one zero byte appended when its length is odd. */
  function Padded(b: seq<bv8>): (r: seq<bv8>)
    ensures |r| % SAMPLE_WIDTH == 0
    ensures |r| == |b| + |b| % SAMPLE_WIDTH
    ensures r[..|b|] == b
    ensures |r| > |b| ==> r[|b|] == 0
  {
    if |b| % SAMPLE_WIDTH != 0 then b + [0] else b
  }

  /** How many queue items the loop takes: up to and excluding the first
      `None`, or all of them when there is none. */
  function Consumed(items: seq<Option<seq<bv8>>>): (n: nat)
    ensures n <= |items|
    ensures n < |items| ==> items[n].None?
    ensures forall k :: 0 <= k < n ==> items[k].Some?
  {
    if items == [] || items[0].None? then 0 else 1 + Consumed(items[1..])
  }

  /** The loop meets the sentinel. */
  predicate HasSentinel(items: seq<Option<seq<bv8>>>) {
    Consumed(items) < |items|
  }

  /** All bytes of the chunks taken before the sentinel, in order. */
  function Received(items: seq<Option<seq<bv8>>>): seq<bv8> {
    if items == [] || items[0].None? then [] else items[0].value + Received(items[1..])
  }

  /** What the thread hands to the device in total, stated without the
      buffer: with the sentinel, everything received padded to a whole
      sample; without it, everything received up to the last whole sample. */
  function ExpectedAttempted(items: seq<Option<seq<bv8>>>): (r: seq<bv8>)
    ensures |r| % SAMPLE_WIDTH == 0
    ensures HasSentinel(items) ==> |r| == |Received(items)| + |Received(items)| % SAMPLE_WIDTH
    ensures !HasSentinel(items) ==> |Received(items)| - |r| < SAMPLE_WIDTH
    ensures |r| <= |Received(items)| ==> r == Received(items)[..|r|]
    ensures |r| > |Received(items)| ==> r == Received(items) + [0]
  {
    var rx := Received(items);
    if HasSentinel(items) then Padded(rx) else rx[..PlayableSize(|rx|)]
  }

  /** A whole-sample prefix that leaves less than one sample is the
      playable prefix. */
  lemma AlignedPrefixIsPlayable(rx: seq<bv8>, x: seq<bv8>, rest: seq<bv8>)
    requires x + rest == rx && |x| % SAMPLE_WIDTH == 0 && |rest| < SAMPLE_WIDTH
    ensures x == rx[..PlayableSize(|rx|)]
  {
    var p := PlayableSize(|rx|);
    assert |x| == p;
    assert rx[..|x|] == x;
  }

  /** Items before a sentinel-free prefix are processed one after another:
      the count of what follows adds up. */
  lemma {:induction false} ConsumedAppend(a: seq<Option<seq<bv8>>>, b: seq<Option<seq<bv8>>>)
    requires Consumed(a) == |a|
    ensures Consumed(a + b) == |a| + Consumed(b)
  {
    if a == [] {
      assert a + b == b;
    } else {
      var ab := a + b;
      assert ab[0] == a[0] && a[0].Some?;
      assert ab[1..] == a[1..] + b;
      ConsumedAppend(a[1..], b);
    }
  }

  /** ... and so do the bytes received. */
  lemma {:induction false} ReceivedAppend(a: seq<Option<seq<bv8>>>, b: seq<Option<seq<bv8>>>)
    requires Consumed(a) == |a|
    ensures Received(a + b) == Received(a) + Received(b)
  {
    if a == [] {
      assert a + b == b;
    } else {
      var ab := a + b;
      var head := a[0];
      assert ab[0] == head && head.Some?;
      assert ab[1..] == a[1..] + b;
      ReceivedAppend(a[1..], b);
      calc {
        Received(ab);
        head.value + Received(ab[1..]);
        head.value + (Received(a[1..]) + Received(b));
        (head.value + Received(a[1..])) + Received(b);
      }
    }
  }

  /** Once the sentinel is in the queue, nothing put after it changes what
      is consumed or received. */
  lemma {:induction false} SentinelStops(items: seq<Option<seq<bv8>>>, later: seq<Option<seq<bv8>>>)
    requires HasSentinel(items)
    ensures Consumed(items + later) == Consumed(items)
    ensures Received(items + later) == Received(items)
  {
    if items[0].Some? {
      assert (items + later)[1..] == items[1..] + later;
      SentinelStops(items[1..], later);
    }
  }

  lemma SplitAligned(b: seq<bv8>, k: nat)
    requires k == PlayableSize(|b|)
    ensures b[..k] + b[k..] == b && |b[k..]| < SAMPLE_WIDTH && |b[..k]| % SAMPLE_WIDTH == 0
  {
  }

  /** Moving bytes from the buffer to the device keeps attempts followed by
      the buffer equal to everything received. */
  lemma Conserve(attempted: seq<bv8>, buffer: seq<bv8>, chunk: seq<bv8>,
                 written: seq<bv8>, rest: seq<bv8>, received: seq<bv8>)
    requires attempted + buffer == received && written + rest == buffer + chunk
    ensures (attempted + written) + rest == received + chunk
  {
    calc {
      (attempted + written) + rest;
      attempted + (written + rest);
      attempted + (buffer + chunk);
      (attempted + buffer) + chunk;
    }
  }

  /** Flushing the padded remainder completes the padded input. */
  lemma FlushConserves(attempted: seq<bv8>, buffer: seq<bv8>, received: seq<bv8>)
    requires attempted + buffer == received
    requires |attempted| % SAMPLE_WIDTH == 0 && |buffer| < SAMPLE_WIDTH
    ensures attempted + Padded(buffer) == Padded(received)
  {
    if |buffer| == 1 {
      assert Padded(received) == received + [0];
      assert attempted + (buffer + [0]) == (attempted + buffer) + [0];
    } else if |buffer| == 0 {
      assert attempted == received;
    }
  }

  /** Where the loop stops at the sentinel, the prefix before it is all
      that is consumed and received. */
  lemma StopsAtSentinel(items: seq<Option<seq<bv8>>>, i: nat)
    requires i < |items| && items[i].None? && Consumed(items[..i]) == i
    ensures Consumed(items) == i && Received(items) == Received(items[..i])
  {
    ReceivedAppend(items[..i], items[i..]);
    ConsumedAppend(items[..i], items[i..]);
    assert items == items[..i] + items[i..];
  }

  /** One more chunk before any sentinel extends what is received. */
  lemma ReceivedStep(items: seq<Option<seq<bv8>>>, i: nat)
    requires i < |items| && items[i].Some? && Consumed(items[..i]) == i
    ensures Consumed(items[..i + 1]) == i + 1
    ensures Received(items[..i + 1]) == Received(items[..i]) + items[i].value
  {
    ReceivedAppend(items[..i], [items[i]]);
    ConsumedAppend(items[..i], [items[i]]);
    assert items[..i + 1] == items[..i] + [items[i]];
    assert Received([items[i]]) == items[i].value + Received([]);
  }

  /** The player thread's state. `buffer` is the real `audio_buffer`; the
      ghost fields record everything received, everything handed to the
      device's write (the attempts) and what the device accepted. */
  class SamplePlayer {
    var buffer: seq<bv8>
    var finished: bool
    ghost var received: seq<bv8>
    ghost var attempted: seq<bv8>
    ghost var played: seq<bv8>

    /** Conservation, alignment and the bounded remainder. */
    ghost predicate Valid()
      reads this
    {
      && |attempted| % SAMPLE_WIDTH == 0
      && |played| % SAMPLE_WIDTH == 0
      && |played| <= |attempted|
      && (!finished ==> attempted + buffer == received && |buffer| < SAMPLE_WIDTH)
      && (finished ==> attempted == Padded(received))
    }

    constructor ()
      ensures Valid() && !finished
      ensures buffer == [] && received == [] && attempted == [] && played == []
    {
      buffer := [];
      finished := false;
      received, attempted, played := [], [], [];
    }

    /** One chunk from the queue. `deviceOk` is whether the device write
        succeeds; a failed write is reported and the bytes are dropped all
        the same. `written` is what was handed to the device. */
    method Feed(chunk: seq<bv8>, deviceOk: bool) returns (written: seq<bv8>)
      requires Valid() && !finished
      modifies this
      ensures Valid() && !finished
      ensures received == old(received) + chunk
      ensures written + buffer == old(buffer) + chunk
      ensures |written| % SAMPLE_WIDTH == 0 && |buffer| < SAMPLE_WIDTH
      ensures |old(buffer) + chunk| < SAMPLE_WIDTH ==> written == [] && buffer == old(buffer) + chunk
      ensures attempted == old(attempted) + written
      ensures played == old(played) + (if deviceOk then written else [])
    {
      var extended := buffer + chunk;
      var playableSize := PlayableSize(|extended|);
      SplitAligned(extended, playableSize);
      received := received + chunk;
      written := [];
      if playableSize > 0 {
        written := extended[..playableSize];
        Conserve(attempted, buffer, chunk, written, extended[playableSize..], old(received));
        attempted := attempted + written;
        if deviceOk {
          played := played + written;
        }
        buffer := extended[playableSize..];
      } else {
        Conserve(attempted, buffer, chunk, [], extended, old(received));
        assert attempted + [] == attempted;
        buffer := extended;
      }
    }

    /** The sentinel: write what is left, padded to a whole sample, unless
        nothing is left. `flushed` is what was handed to the device. */
    method Finish(deviceOk: bool) returns (flushed: seq<bv8>)
      requires Valid() && !finished
      modifies this
      ensures Valid() && finished
      ensures received == old(received)
      ensures flushed == Padded(old(buffer)) && |flushed| <= SAMPLE_WIDTH
      ensures buffer == Padded(old(buffer))
      ensures old(buffer) == [] ==> flushed == []
      ensures attempted == old(attempted) + flushed
      ensures played == old(played) + (if deviceOk then flushed else [])
    {
      FlushConserves(attempted, buffer, received);
      flushed := [];
      if |buffer| > 0 {
        if |buffer| % 2 != 0 {
          buffer := buffer + [0];
        }
        flushed := buffer;
        attempted := attempted + flushed;
        if deviceOk {
          played := played + flushed;
        }
      } else {
        assert attempted + [] == attempted;
      }
      finished := true;
    }
  }

  /** The writes one after another. */
  function Concat(writes: seq<seq<bv8>>): seq<bv8> {
    if writes == [] then [] else Concat(writes[..|writes| - 1]) + writes[|writes| - 1]
  }

  /** Only the writes the device accepted, one after another. */
  function AcceptedConcat(writes: seq<seq<bv8>>, accepted: seq<bool>): seq<bv8>
    requires |writes| <= |accepted|
  {
    if writes == [] then []
    else AcceptedConcat(writes[..|writes| - 1], accepted)
         + (if accepted[|writes| - 1] then writes[|writes| - 1] else [])
  }

  /** When the device accepts every write, it plays everything written. */
  lemma {:induction false} AllAcceptedConcat(writes: seq<seq<bv8>>, accepted: seq<bool>)
    requires |writes| <= |accepted|
    requires forall k :: 0 <= k < |writes| ==> accepted[k]
    ensures AcceptedConcat(writes, accepted) == Concat(writes)
  {
    if writes != [] {
      AllAcceptedConcat(writes[..|writes| - 1], accepted);
    }
  }

  /** Appending one write to the record extends both concatenations. */
  lemma WritesStep(writes: seq<seq<bv8>>, w: seq<bv8>, accepted: seq<bool>)
    requires |writes| < |accepted|
    ensures Concat(writes + [w]) == Concat(writes) + w
    ensures AcceptedConcat(writes + [w], accepted)
            == AcceptedConcat(writes, accepted) + (if accepted[|writes|] then w else [])
  {
    assert (writes + [w])[..|writes|] == writes;
  }

  /** The loop of the thread body: feed chunks until the sentinel or the
      end of the items. `writes[k]` is what was handed to the device for
      item `k`. */
  method FeedUntilSentinel(player: SamplePlayer, items: seq<Option<seq<bv8>>>, accepted: seq<bool>)
    returns (i: nat, writes: seq<seq<bv8>>)
    requires |accepted| == |items|
    requires player.Valid() && !player.finished
    requires player.received == [] && player.attempted == [] && player.played == []
    modifies player
    ensures player.Valid() && !player.finished
    ensures i <= |items| && (i < |items| ==> items[i].None?)
    ensures Consumed(items[..i]) == i && player.received == Received(items[..i])
    ensures |writes| == i
    ensures forall k :: 0 <= k < |writes| ==> |writes[k]| % SAMPLE_WIDTH == 0
    ensures Concat(writes) == player.attempted
    ensures player.played == AcceptedConcat(writes, accepted)
  {
    writes := [];
    i := 0;
    while i < |items| && items[i].Some?
      invariant 0 <= i <= |items|
      invariant player.Valid() && !player.finished
      invariant Consumed(items[..i]) == i
      invariant player.received == Received(items[..i])
      invariant |writes| == i
      invariant forall k :: 0 <= k < |writes| ==> |writes[k]| % SAMPLE_WIDTH == 0
      invariant Concat(writes) == player.attempted
      invariant player.played == AcceptedConcat(writes, accepted)
    {
      ReceivedStep(items, i);
      var written := player.Feed(items[i].value, accepted[i]);
      WritesStep(writes, written, accepted);
      writes := writes + [written];
      i := i + 1;
    }
  }

  /** The thread body: take items until the sentinel, feeding each chunk,
      then flush. `accepted[i]` is the device's outcome for the write made
      while handling item `i`, and `writes` records every write in order.
      Without a sentinel the real thread blocks on the empty queue; here it
      has then consumed every item and not finished. */
  method PlayAll(items: seq<Option<seq<bv8>>>, accepted: seq<bool>)
    returns (player: SamplePlayer, consumed: nat, writes: seq<seq<bv8>>)
    requires |accepted| == |items|
    ensures fresh(player) && player.Valid()
    ensures consumed == Consumed(items)
    ensures player.finished <==> HasSentinel(items)
    ensures player.received == Received(items)
    ensures player.attempted == ExpectedAttempted(items)
    ensures |writes| == consumed + (if HasSentinel(items) then 1 else 0)
    ensures forall k :: 0 <= k < |writes| ==> |writes[k]| % SAMPLE_WIDTH == 0
    ensures Concat(writes) == player.attempted
    ensures player.played == AcceptedConcat(writes, accepted)
    ensures (forall k :: 0 <= k < |accepted| ==> accepted[k]) ==> player.played == player.attempted
  {
    player := new SamplePlayer();
    var i;
    i, writes := FeedUntilSentinel(player, items, accepted);
    consumed := i;
    if i < |items| {
      StopsAtSentinel(items, i);
      var flushed := player.Finish(accepted[i]);
      WritesStep(writes, flushed, accepted);
      writes := writes + [flushed];
    } else {
      assert items[..i] == items;
      AlignedPrefixIsPlayable(player.received, player.attempted, player.buffer);
    }
    if forall k :: 0 <= k < |accepted| ==> accepted[k] {
      AllAcceptedConcat(writes, accepted);
    }
  }
}
