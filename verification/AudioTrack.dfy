/** Immutable PCM blocks shared by the controller and the player
    (crates/audio2face3d-gui/src/core/audio_track.rs). */
module AudioTracks {
  import opened Common

  const MAX_AUDIO_BLOCKS: nat := 65_536

  /** A block is never changed after it is built, so a shared handle is the value itself. */
  datatype AudioBlock = AudioBlock(start: nat, samples: seq<real>) {
    function End(): nat { start + |samples| }

    predicate Contains(index: nat) { start <= index < End() }
  }

  datatype TrackError = BadCursor | TooManyBlocks | Noncontiguous

  /** The blocks lie end to end, the first one at `first`. */
  predicate ContiguousFrom(blocks: seq<AudioBlock>, first: nat) {
    |blocks| == 0
    || (var init := blocks[..|blocks| - 1];
        ContiguousFrom(init, first) && blocks[|blocks| - 1].start == EndFrom(init, first))
  }

  predicate Contiguous(blocks: seq<AudioBlock>) { ContiguousFrom(blocks, 0) }

  function EndFrom(blocks: seq<AudioBlock>, first: nat): nat {
    if |blocks| == 0 then first else blocks[|blocks| - 1].End()
  }

  function SampleCount(blocks: seq<AudioBlock>): nat { EndFrom(blocks, 0) }

  /** The one sample sequence the blocks stand for. */
  function Flat(blocks: seq<AudioBlock>): seq<real> {
    if |blocks| == 0 then [] else Flat(blocks[..|blocks| - 1]) + blocks[|blocks| - 1].samples
  }

  lemma {:induction false} FlatLength(blocks: seq<AudioBlock>)
    requires Contiguous(blocks)
    ensures |Flat(blocks)| == SampleCount(blocks)
  {
    if |blocks| > 0 {
      FlatLength(blocks[..|blocks| - 1]);
    }
  }

  lemma {:induction false} FlatAppend(left: seq<AudioBlock>, right: seq<AudioBlock>)
    ensures Flat(left + right) == Flat(left) + Flat(right)
  {
    var n := |right|;
    if n == 0 {
      assert left + right == left;
    } else {
      FlatAppend(left, right[..n - 1]);
      assert (left + right)[..|left| + n - 1] == left + right[..n - 1];
    }
  }

  /** Cutting a track at any block gives two contiguous parts. */
  lemma {:induction false} CutTrack(blocks: seq<AudioBlock>, k: nat)
    requires Contiguous(blocks) && k <= |blocks|
    ensures Contiguous(blocks[..k])
    ensures ContiguousFrom(blocks[k..], SampleCount(blocks[..k]))
    ensures EndFrom(blocks[k..], SampleCount(blocks[..k])) == SampleCount(blocks)
    ensures SampleCount(blocks[..k]) <= SampleCount(blocks)
  {
    var n := |blocks|;
    if k == n {
      assert blocks[..k] == blocks;
    } else {
      var init := blocks[..n - 1];
      CutTrack(init, k);
      assert init[..k] == blocks[..k];
      assert blocks[k..][..n - k - 1] == init[k..];
    }
  }

  lemma {:induction false} ContiguousPrefix(blocks: seq<AudioBlock>, first: nat, k: nat)
    requires k <= |blocks|
    ensures ContiguousFrom(blocks, first) ==> ContiguousFrom(blocks[..k], first)
  {
    if k == |blocks| {
      assert blocks[..k] == blocks;
    } else {
      ContiguousPrefix(blocks[..|blocks| - 1], first, k);
      assert blocks[..|blocks| - 1][..k] == blocks[..k];
    }
  }

  lemma {:induction false} JoinTrack(left: seq<AudioBlock>, right: seq<AudioBlock>)
    requires Contiguous(left) && ContiguousFrom(right, SampleCount(left))
    ensures Contiguous(left + right)
    ensures SampleCount(left + right) == EndFrom(right, SampleCount(left))
  {
    var n := |right|;
    if n == 0 {
      assert left + right == left;
    } else {
      JoinTrack(left, right[..n - 1]);
      assert (left + right)[..|left| + n - 1] == left + right[..n - 1];
    }
  }

  /** Sample `k` of block `i` sits at its absolute position in the flat sequence. */
  lemma {:induction false} BlockInFlat(blocks: seq<AudioBlock>, i: nat, k: nat)
    requires Contiguous(blocks) && i < |blocks| && k < |blocks[i].samples|
    ensures blocks[i].start + k < |Flat(blocks)|
    ensures Flat(blocks)[blocks[i].start + k] == blocks[i].samples[k]
  {
    var init := blocks[..|blocks| - 1];
    FlatLength(blocks);
    FlatLength(init);
    if i < |init| {
      BlockInFlat(init, i, k);
    }
  }

  /** The partition point of `block.start <= index`: how many leading blocks start at or before `index`. */
  function StartedBlocks(blocks: seq<AudioBlock>, index: nat): (n: nat)
    ensures n <= |blocks|
    ensures n > 0 ==> blocks[n - 1].start <= index
    ensures forall i | n <= i < |blocks| :: blocks[i].start > index
  {
    if |blocks| == 0 then 0
    else if blocks[|blocks| - 1].start <= index then |blocks|
    else StartedBlocks(blocks[..|blocks| - 1], index)
  }

  /** On a contiguous track that block holds the index, even when some blocks are empty. */
  lemma {:induction false} LastStartedContains(blocks: seq<AudioBlock>, index: nat)
    requires Contiguous(blocks) && index < SampleCount(blocks)
    ensures var n := StartedBlocks(blocks, index); n > 0 && blocks[n - 1].Contains(index)
  {
    if blocks[|blocks| - 1].start > index {
      LastStartedContains(blocks[..|blocks| - 1], index);
    }
  }

  lemma {:induction false} NothingStarted(blocks: seq<AudioBlock>, index: nat)
    requires Contiguous(blocks) && StartedBlocks(blocks, index) == 0
    ensures blocks == []
  {
    if |blocks| > 0 {
      NothingStarted(blocks[..|blocks| - 1], index);
    }
  }

  class AudioTrack {
    var blocks: seq<AudioBlock>
    var samples: nat

    ghost predicate Valid()
      reads this
    {
      Contiguous(blocks) && samples == SampleCount(blocks)
    }

    constructor ()
      ensures Valid() && blocks == []
    {
      blocks, samples := [], 0;
    }

    /** Clone: a second owner of the same block handles. */
    constructor Clone(other: AudioTrack)
      requires other.Valid()
      ensures Valid() && blocks == other.blocks
    {
      blocks, samples := other.blocks, other.samples;
    }

    /** The lookup of the render loop. A cursor of any value, stale or out of range, is only a hint. */
    method SampleAt(index: nat, cursor: nat) returns (sample: Option<real>, next: nat)
      requires Valid()
      ensures sample == if index < |Flat(blocks)| then Some(Flat(blocks)[index]) else None
      ensures index >= |Flat(blocks)| ==> next == cursor
      ensures index < |Flat(blocks)| ==> next < |blocks| && blocks[next].Contains(index)
    {
      FlatLength(blocks);
      next := cursor;
      if index >= samples {
        return None, next;
      }
      if !(next < |blocks| && blocks[next].Contains(index)) {
        if next + 1 < |blocks| && blocks[next + 1].Contains(index) {
          next := next + 1;
        } else {
          LastStartedContains(blocks, index);
          var started := StartedBlocks(blocks, index);
          next := if started > 0 then started - 1 else 0;
        }
      }
      var block := blocks[next];
      BlockInFlat(blocks, next, index - block.start);
      sample := Some(block.samples[index - block.start]);
    }

    method Get(index: nat) returns (sample: Option<real>)
      requires Valid()
      ensures sample == if index < |Flat(blocks)| then Some(Flat(blocks)[index]) else None
    {
      var started := StartedBlocks(blocks, index);
      if started == 0 {
        NothingStarted(blocks, index);
        return None;
      }
      var cursor;
      sample, cursor := SampleAt(index, started - 1);
    }

    method Push(chunk: seq<real>)
      requires Valid()
      modifies this
      ensures Valid()
      ensures Flat(blocks) == old(Flat(blocks)) + chunk
      ensures blocks == old(blocks) + if chunk == [] then [] else [AudioBlock(old(samples), chunk)]
      ensures samples == old(samples) + |chunk|
    {
      if chunk == [] {
        return;
      }
      var block := AudioBlock(samples, chunk);
      assert Flat([block]) == chunk;
      JoinTrack(blocks, [block]);
      FlatAppend(blocks, [block]);
      samples := samples + |chunk|;
      blocks := blocks + [block];
    }

    method SharedFrom(first: nat) returns (r: Result<seq<AudioBlock>, TrackError>)
      ensures r == if first <= |blocks| then Ok(blocks[first..]) else Err(BadCursor)
    {
      return if first <= |blocks| then Ok(blocks[first..]) else Err(BadCursor);
    }

    /** Accepts exactly the blocks that continue this track within the block limit. */
    method AppendShared(more: seq<AudioBlock>) returns (r: Result<(), TrackError>)
      requires Valid()
      modifies this
      ensures Valid()
      ensures r.Ok? <==> |old(blocks)| + |more| <= MAX_AUDIO_BLOCKS && ContiguousFrom(more, old(samples))
      ensures blocks == old(blocks) + if r.Ok? then more else []
      ensures Flat(blocks) == old(Flat(blocks)) + if r.Ok? then Flat(more) else []
    {
      var end := samples;
      if |blocks| + |more| > MAX_AUDIO_BLOCKS {
        return Err(TooManyBlocks);
      }
      for i := 0 to |more|
        invariant blocks == old(blocks) && samples == old(samples)
        invariant ContiguousFrom(more[..i], samples) && end == EndFrom(more[..i], samples)
      {
        assert more[..i + 1][..i] == more[..i];
        if more[i].start != end {
          ContiguousPrefix(more, samples, i + 1);
          return Err(Noncontiguous);
        }
        end := end + |more[i].samples|;
      }
      assert more[..|more|] == more;
      JoinTrack(blocks, more);
      FlatAppend(blocks, more);
      blocks := blocks + more;
      samples := end;
      return Ok(());
    }
  }
}
