/** Captured audio and the choice of input device.

    Samples are opaque: the model reasons only about how many there are and
    in which order they come. A captured block is the `indata` buffer that the
    audio subsystem hands to the stream callback; a recording is the ordered
    list of those blocks, joined end to end when the recording stops.
 */
module Recording {
  import opened Wrappers

  /** One audio frame of the mono input stream. */
  type Sample

  /** The fixed sample rate and channel count of the input stream and of the WAV file. */
  const SampleRate: nat := 44100
  const Channels: nat := 1

  /** Total number of samples in a list of blocks. */
  function TotalSamples(blocks: seq<seq<Sample>>): nat {
    if blocks == [] then 0 else |blocks[0]| + TotalSamples(blocks[1..])
  }

  /** `np.concatenate(blocks, axis=0)`: the blocks joined in order. */
  function Concat(blocks: seq<seq<Sample>>): seq<Sample> {
    if blocks == [] then [] else blocks[0] + Concat(blocks[1..])
  }

  /** The joined recording holds exactly as many samples as all blocks together. */
  lemma {:induction false} ConcatLength(blocks: seq<seq<Sample>>)
    ensures |Concat(blocks)| == TotalSamples(blocks)
    decreases |blocks|
  {
    if blocks != [] {
      ConcatLength(blocks[1..]);
    }
  }

  /** Appending one block to the list appends its samples to the recording. */
  lemma {:induction false} ConcatAppend(blocks: seq<seq<Sample>>, block: seq<Sample>)
    ensures Concat(blocks + [block]) == Concat(blocks) + block
    decreases |blocks|
  {
    if blocks != [] {
      assert (blocks + [block])[1..] == blocks[1..] + [block];
      ConcatAppend(blocks[1..], block);
    }
  }

  /** Sample `j` of block `k` sits in the recording right after all samples of
      the earlier blocks: order is preserved and nothing is dropped. */
  lemma {:induction false} ConcatAt(blocks: seq<seq<Sample>>, k: nat, j: nat)
    requires k < |blocks| && j < |blocks[k]|
    ensures TotalSamples(blocks[..k]) + j < |Concat(blocks)|
    ensures Concat(blocks)[TotalSamples(blocks[..k]) + j] == blocks[k][j]
    decreases k
  {
    ConcatLength(blocks);
    if k == 0 {
      assert blocks[..0] == [];
    } else {
      var rest := blocks[1..];
      assert blocks[..k][1..] == rest[..k - 1];
      assert TotalSamples(blocks[..k]) == |blocks[0]| + TotalSamples(rest[..k - 1]);
      ConcatAt(rest, k - 1, j);
    }
  }

  /** Blocks of equal size `n` give a recording of `|blocks| * n` samples. */
  lemma {:induction false} UniformBlocks(blocks: seq<seq<Sample>>, n: nat)
    requires forall k :: 0 <= k < |blocks| ==> |blocks[k]| == n
    ensures TotalSamples(blocks) == |blocks| * n
    decreases |blocks|
  {
    if blocks != [] {
      UniformBlocks(blocks[1..], n);
      assert |blocks| * n == n + (|blocks| - 1) * n;
    }
  }

  /** Some device in the list reports at least one input channel. */
  ghost predicate HasInputDevice(maxInputChannels: seq<int>) {
    exists i :: 0 <= i < |maxInputChannels| && maxInputChannels[i] > 0
  }

  /** `i` is the least index whose device reports an input channel. */
  ghost predicate IsFirstInputDevice(maxInputChannels: seq<int>, i: nat) {
    && i < |maxInputChannels|
    && maxInputChannels[i] > 0
    && forall j :: 0 <= j < i ==> maxInputChannels[j] <= 0
  }

  /** The device search of start_recording: the first device (in the order the
      audio subsystem lists them) whose `max_input_channels` is positive. By
      `FirstInputDeviceUnique` the contract leaves exactly one possible result. */
  method FindInputDevice(maxInputChannels: seq<int>) returns (id: Option<nat>)
    ensures id.Some? <==> HasInputDevice(maxInputChannels)
    ensures id.Some? ==> IsFirstInputDevice(maxInputChannels, id.value)
  {
    id := None;
    var i := 0;
    while i < |maxInputChannels|
      invariant 0 <= i <= |maxInputChannels|
      invariant forall j :: 0 <= j < i ==> maxInputChannels[j] <= 0
    {
      if maxInputChannels[i] > 0 {
        id := Some(i);
        break;
      }
      i := i + 1;
    }
  }

  /** There is only one first input device. */
  lemma FirstInputDeviceUnique(maxInputChannels: seq<int>, i: nat, j: nat)
    requires IsFirstInputDevice(maxInputChannels, i)
    requires IsFirstInputDevice(maxInputChannels, j)
    ensures i == j
  {
  }
}
