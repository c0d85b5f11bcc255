/** Properties of the driver that involve more than one call: frames split
    over several polls, the Z edge detector across consecutive commits, and
    the directional tests. */
module WiiChuckProperties {
  import opened NunchukCodec
  import opened WiiChuckDriver

  /** A frame delivered in two bursts is committed exactly once, by the poll
      that completes it, and the result is as if it had arrived at once. */
  method SplitFrameCommitsOnce(c: WiiChuck, a: seq<bv8>, b: seq<bv8>)
    requires c.Valid() && c.cnt == 0
    requires |a| + |b| == FrameSize && b != []
    modifies c, c.status, c.angles
    ensures c.Valid() && c.cnt == 0
    ensures c.requestsIssued == old(c.requestsIssued) + 1
    ensures forall j :: 0 <= j < FrameSize ==> c.status[j] == DecodeByte((a + b)[j])
    ensures c.joyX == DecodeByte((a + b)[0]) && c.joyY == DecodeByte((a + b)[1])
    ensures forall i :: 0 <= i < 3 ==> c.angles[i] == AccelSample(c.status[..], i)
    ensures c.lastZ == old(c.buttonZ) && c.lastC == old(c.buttonC)
    ensures c.lastJoyX == old(c.ReadJoyX()) && c.lastJoyY == old(c.ReadJoyY())
  {
    ghost var s0 := c.status[..];
    c.Update(a);
    assert c.cnt == |a| && c.requestsIssued == old(c.requestsIssued);
    assert c.ReadJoyX() == old(c.ReadJoyX()) && c.ReadJoyY() == old(c.ReadJoyY());
    c.Update(b);
    AccumulateConcat(s0, 0, a, b);
    forall j | 0 <= j < FrameSize
      ensures c.status[j] == DecodeByte((a + b)[j])
    {
      AccumulateAt(s0, 0, a + b, j);
    }
  }

  /** After a commit, zPressed reports exactly a released-to-pressed change
      of the Z button. */
  method ZPressedAfterCommit(c: WiiChuck, frame: seq<bv8>) returns (edge: bool)
    requires c.Valid() && c.cnt == 0 && |frame| == FrameSize
    modifies c, c.status, c.angles
    ensures edge <==> ZButtonFromFrame(DecodeByte(frame[5])) && !old(c.buttonZ)
  {
    c.Update(frame);
    edge := c.ZPressed();
  }

  /** Holding Z down over two frames after it was released fires the edge
      detector on the first commit only. */
  method HeldZFiresOnce(c: WiiChuck, f1: seq<bv8>, f2: seq<bv8>) returns (first: bool, second: bool)
    requires c.Valid() && c.cnt == 0 && |f1| == FrameSize && |f2| == FrameSize
    requires !c.buttonZ
    requires ZButtonFromFrame(DecodeByte(f1[5])) && ZButtonFromFrame(DecodeByte(f2[5]))
    modifies c, c.status, c.angles
    ensures first && !second
  {
    c.Update(f1);
    first := c.ZPressed();
    c.Update(f2);
    second := c.ZPressed();
  }

  /** With a non-negative threshold the stick is never reported left and
      right, or up and down, at once. */
  lemma OppositeDirectionsExclusive(c: WiiChuck, thresh: int)
    requires thresh >= 0
    ensures !(c.IsJoyStickLeft(thresh) && c.IsJoyStickRight(thresh))
    ensures !(c.IsJoyStickUp(thresh) && c.IsJoyStickDown(thresh))
  {
  }

  /** With a negative threshold a centred stick is reported in all four
      directions, and the tri-state queries resolve the clash towards left
      and up. */
  lemma NegativeThresholdOverlaps(c: WiiChuck)
    requires c.joyX == c.zeroJoyX && c.joyY == c.zeroJoyY
    ensures c.IsJoyStickLeft(-1) && c.IsJoyStickRight(-1)
    ensures c.IsJoyStickUp(-1) && c.IsJoyStickDown(-1)
    ensures c.GetJoyPosLR(-1) == JoyPosLeft && c.GetJoyPosUD(-1) == JoyPosUp
  {
  }
}
