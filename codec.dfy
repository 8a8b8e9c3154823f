/**
 * The solenoid wire codec of Data/Rig.py: eight pin states packed into one
 * byte (bit i set exactly when pin i is on), the per-group polarity
 * inversion, and the three tagged frames a device write consists of.
 */
module SolenoidCodec {

  type byte = x: int | 0 <= x < 256

  /** One `serialPort.write` call: the bytes handed to the port. */
  type Frame = seq<byte>

  /** Python's `1 << n` on a non-negative shift. */
  function Pow2(n: nat): (r: nat)
    ensures r >= 1
  {
    if n == 0 then 1 else 2 * Pow2(n - 1)
  }

  /** Bit i of x, counting from the least significant bit. */
  predicate TestBit(x: nat, i: nat) {
    if i == 0 then x % 2 == 1 else TestBit(x / 2, i - 1)
  }

  /** The number whose bit i is set exactly when bits[i] holds. */
  function Pack(bits: seq<bool>): (r: nat)
    ensures r < Pow2(|bits|)
  {
    if bits == [] then 0 else (if bits[0] then 1 else 0) + 2 * Pack(bits[1..])
  }

  /** The first n bits of x, least significant first: the inverse of Pack. */
  function Unpack(x: nat, n: nat): (bits: seq<bool>)
    ensures |bits| == n
  {
    if n == 0 then [] else [x % 2 == 1] + Unpack(x / 2, n - 1)
  }

  lemma {:induction false} PackBit(bits: seq<bool>, i: nat)
    requires i < |bits|
    ensures TestBit(Pack(bits), i) == bits[i]
  {
    if i > 0 {
      PackBit(bits[1..], i - 1);
    }
  }

  lemma {:induction false} PackAllOff(bits: seq<bool>)
    requires forall i :: 0 <= i < |bits| ==> !bits[i]
    ensures Pack(bits) == 0
  {
    if bits != [] {
      PackAllOff(bits[1..]);
    }
  }

  /** Appending a pin adds its weight: the step the packing loop takes. */
  lemma {:induction false} PackAppend(bits: seq<bool>, b: bool)
    ensures Pack(bits + [b]) == Pack(bits) + (if b then Pow2(|bits|) else 0)
  {
    if bits != [] {
      assert (bits + [b])[1..] == bits[1..] + [b];
      PackAppend(bits[1..], b);
    }
  }

  lemma {:induction false} UnpackPack(bits: seq<bool>)
    ensures Unpack(Pack(bits), |bits|) == bits
  {
    if bits != [] {
      UnpackPack(bits[1..]);
    }
  }

  lemma {:induction false} PackUnpack(x: nat, n: nat)
    requires x < Pow2(n)
    ensures Pack(Unpack(x, n)) == x
  {
    if n > 0 {
      PackUnpack(x / 2, n - 1);
    }
  }

  /**
   * ConvertPinStatesToBytes: the one byte whose bit i is set exactly when
   * state[i] is true, for the first eight pins.
   */
  method ConvertPinStatesToBytes(state: seq<bool>) returns (b: byte)
    requires |state| >= 8
    ensures b == Pack(state[..8])
    ensures forall i :: 0 <= i < 8 ==> (TestBit(b, i) <==> state[i])
  {
    var number := 0;
    for i := 0 to 8
      invariant number == Pack(state[..i])
    {
      assert state[..i + 1] == state[..i] + [state[i]];
      PackAppend(state[..i], state[i]);
      if state[i] {
        number := number + Pow2(i);
      }
    }
    assert state[..8] == state[..8][..8];
    b := number;
    forall i | 0 <= i < 8
      ensures TestBit(b, i) <==> state[i]
    {
      PackBit(state[..8], i);
    }
  }

  /** The level each of a device's 24 pins is driven to: its logical state XOR the polarity of its group of eight. */
  function Polarize(slots: seq<bool>, polarities: seq<bool>): (wire: seq<bool>)
    requires |slots| == 24 && |polarities| == 3
  {
    seq(24, i requires 0 <= i < 24 => slots[i] != polarities[i / 8])
  }

  const TagA: byte := 65  // 'A'
  const TagB: byte := 66  // 'B'
  const TagC: byte := 67  // 'C'

  /** The three frames a device write sends: 'A', 'B', 'C', each followed by its group's packed wire byte. */
  function StateFrames(slots: seq<bool>, polarities: seq<bool>): (frames: seq<Frame>)
    requires |slots| == 24 && |polarities| == 3
  {
    var wire := Polarize(slots, polarities);
    [[TagA, Pack(wire[0..8])], [TagB, Pack(wire[8..16])], [TagC, Pack(wire[16..24])]]
  }

  /** Reading frames back: unpack each group byte and undo its polarity. */
  function DecodeFrames(frames: seq<Frame>, polarities: seq<bool>): (slots: seq<bool>)
    requires |frames| == 3 && |polarities| == 3
    requires forall g :: 0 <= g < 3 ==> |frames[g]| == 2
  {
    var wire := Unpack(frames[0][1], 8) + Unpack(frames[1][1], 8) + Unpack(frames[2][1], 8);
    seq(24, i requires 0 <= i < 24 => wire[i] != polarities[i / 8])
  }

  /** Frame g carries tag 'A'+g and a byte whose bit j is slot 8g+j XOR the group's polarity. */
  lemma FrameBits(slots: seq<bool>, polarities: seq<bool>, g: nat, j: nat)
    requires |slots| == 24 && |polarities| == 3
    requires g < 3 && j < 8
    ensures |StateFrames(slots, polarities)[g]| == 2
    ensures StateFrames(slots, polarities)[g][0] == TagA + g
    ensures TestBit(StateFrames(slots, polarities)[g][1], j) == (slots[8 * g + j] != polarities[g])
  {
    var wire := Polarize(slots, polarities);
    var group := wire[8 * g .. 8 * g + 8];
    PackBit(group, j);
    if g == 0 {
      assert group == wire[0..8] && group[j] == wire[j];
    } else if g == 1 {
      assert group == wire[8..16] && group[j] == wire[8 + j];
    } else {
      assert group == wire[16..24] && group[j] == wire[16 + j];
    }
  }

  /** Decoding what was encoded, under the same polarities, gives back the 24 logical states. */
  lemma {:induction false} EncodeDecode(slots: seq<bool>, polarities: seq<bool>)
    requires |slots| == 24 && |polarities| == 3
    ensures DecodeFrames(StateFrames(slots, polarities), polarities) == slots
  {
    var wire := Polarize(slots, polarities);
    UnpackPack(wire[0..8]);
    UnpackPack(wire[8..16]);
    UnpackPack(wire[16..24]);
    assert wire[0..8] + wire[8..16] + wire[16..24] == wire;
  }
}
