/** The Nunchuck driver object: the persistent polling state (status buffer,
    write position, last committed joystick, accelerometer and button
    values, joystick calibration) and the queries over it. The bus is not
    modelled: each poll is given the bytes the bus has available during
    that call, and the "request next sample" write after a commit is
    recorded in a ghost counter. */
module WiiChuckDriver {
  import opened NunchukCodec

  /** Accelerometer zero points, per axis. */
  const ZeroX: int := 510
  const ZeroY: int := 490
  const ZeroZ: int := 460

  /** Joystick centre used until the stick is calibrated. */
  const DefaultZeroJoyX: bv8 := 124
  const DefaultZeroJoyY: bv8 := 132

  /** Default threshold of the directional joystick queries. */
  const DefaultThreshold: int := 60

  /** The tri-state joystick position. Left and up share the value 1, right
      and down share -1. */
  newtype JoyPos = x: int | -1 <= x <= 1
  const JoyPosNeutral: JoyPos := 0
  const JoyPosLeft: JoyPos := 1
  const JoyPosUp: JoyPos := 1
  const JoyPosRight: JoyPos := -1
  const JoyPosDown: JoyPos := -1

  class WiiChuck {
    /** Write position in `status`. */
    var cnt: nat
    /** Decoded bytes of the frame being received. */
    const status: array<bv8>
    var zeroJoyX: bv8
    var zeroJoyY: bv8
    var lastJoyX: int
    var lastJoyY: int
    /** 10-bit accelerometer samples of the last committed frame. */
    const angles: array<int>
    var lastZ: bool
    var lastC: bool

    var joyX: bv8
    var joyY: bv8
    var buttonZ: bool
    var buttonC: bool

    /** Number of "send next sample" requests written to the device. */
    ghost var requestsIssued: nat
    /** The last committed frame, if `committed`. */
    ghost var frame: seq<bv8>
    ghost var committed: bool

    ghost predicate Valid()
      reads this, angles
    {
      status.Length == FrameSize && angles.Length == 3 && cnt <= FrameSize &&
      (forall i :: 0 <= i < 3 ==> 0 <= angles[i] < 1024) &&
      ReflectsFrame()
    }

    /** Once a frame has been committed, the joystick bytes and the buttons
        are those of that frame. */
    ghost predicate ReflectsFrame()
      reads this
    {
      |frame| == FrameSize &&
      (committed ==>
        joyX == frame[0] && joyY == frame[1] &&
        buttonZ == ZButtonFromFrame(frame[5]) && buttonC == CButtonFromFrame(frame[5]))
    }

    /** The object as a statically allocated instance starts: every field zero. */
    constructor ()
      ensures Valid() && fresh(status) && fresh(angles)
      ensures cnt == 0 && status[..] == [0, 0, 0, 0, 0, 0] && angles[..] == [0, 0, 0]
      ensures joyX == 0 && joyY == 0 && zeroJoyX == 0 && zeroJoyY == 0
      ensures lastJoyX == 0 && lastJoyY == 0
      ensures !buttonZ && !buttonC && !lastZ && !lastC && requestsIssued == 0 && !committed
    {
      cnt := 0;
      status := new bv8[FrameSize](_ => 0);
      angles := new int[3](_ => 0);
      zeroJoyX, zeroJoyY := 0, 0;
      lastJoyX, lastJoyY := 0, 0;
      lastZ, lastC := false, false;
      joyX, joyY := 0, 0;
      buttonZ, buttonC := false, false;
      requestsIssued := 0;
      frame, committed := [0, 0, 0, 0, 0, 0], false;
      new;
      assert status[..] == [0, 0, 0, 0, 0, 0];
      assert angles[..] == [0, 0, 0];
    }

    /** Initialisation after the bus handshake: one poll, then the
        accelerometer samples are cleared and the joystick centre is set to
        its defaults. */
    method Begin(bytes: seq<bv8>)
      requires Valid()
      requires |bytes| <= FrameSize
      modifies this, status, angles
      ensures Valid()
      ensures status[..] == Accumulate(old(status[..]), 0, bytes)
      ensures cnt == if |bytes| == FrameSize then 0 else |bytes|
      ensures angles[..] == [0, 0, 0]
      ensures zeroJoyX == DefaultZeroJoyX && zeroJoyY == DefaultZeroJoyY
      ensures |bytes| == FrameSize ==>
        joyX == status[0] && joyY == status[1] &&
        buttonZ == ZButtonFromFrame(status[5]) && buttonC == CButtonFromFrame(status[5]) &&
        lastZ == old(buttonZ) && lastC == old(buttonC) &&
        lastJoyX == old(ReadJoyX()) && lastJoyY == old(ReadJoyY()) &&
        frame == status[..] && committed &&
        requestsIssued == old(requestsIssued) + 1
      ensures |bytes| < FrameSize ==>
        joyX == old(joyX) && joyY == old(joyY) &&
        buttonZ == old(buttonZ) && buttonC == old(buttonC) &&
        lastZ == old(lastZ) && lastC == old(lastC) &&
        lastJoyX == old(lastJoyX) && lastJoyY == old(lastJoyY) &&
        frame == old(frame) && committed == old(committed) &&
        requestsIssued == old(requestsIssued)
    {
      cnt := 0;
      Update(bytes);
      ResetDefaults();
    }

    /** The last step of Begin: the accelerometer samples are cleared and
        the joystick centre is set to its defaults. */
    method ResetDefaults()
      requires Valid()
      modifies this`zeroJoyX, this`zeroJoyY, angles
      ensures Valid()
      ensures angles[..] == [0, 0, 0]
      ensures zeroJoyX == DefaultZeroJoyX && zeroJoyY == DefaultZeroJoyY
    {
      for i := 0 to 3
        invariant forall j :: 0 <= j < i ==> angles[j] == 0
        invariant forall j :: 0 <= j < 3 ==> 0 <= angles[j] < 1024
      {
        angles[i] := 0;
      }
      assert angles[..] == [0, 0, 0];
      zeroJoyX, zeroJoyY := DefaultZeroJoyX, DefaultZeroJoyY;
    }

    /** Takes the current joystick position as its centre. */
    method CalibrateJoy()
      requires Valid()
      modifies this`zeroJoyX, this`zeroJoyY
      ensures Valid()
      ensures zeroJoyX == joyX && zeroJoyY == joyY
      ensures ReadJoyX() == 0 && ReadJoyY() == 0
    {
      zeroJoyX := joyX;
      zeroJoyY := joyY;
    }

    /** One poll: the bytes the bus delivers during the call are decoded into
        `status` from the write position on; once a whole frame has been
        received it is committed to the joystick, accelerometer and button
        fields, the previous values are kept for edge detection, the write
        position returns to 0 and the next sample is requested. */
    method Update(bytes: seq<bv8>)
      requires Valid()
      requires cnt + |bytes| <= FrameSize
      modifies this, status, angles
      ensures Valid()
      ensures status[..] == Accumulate(old(status[..]), old(cnt), bytes)
      ensures forall j :: 0 <= j < FrameSize ==>
        status[j] == if old(cnt) <= j < old(cnt) + |bytes|
                     then DecodeByte(bytes[j - old(cnt)]) else old(status[j])
      ensures zeroJoyX == old(zeroJoyX) && zeroJoyY == old(zeroJoyY)
      ensures old(cnt) + |bytes| == FrameSize ==>
        cnt == 0 &&
        joyX == status[0] && joyY == status[1] &&
        (forall i :: 0 <= i < 3 ==> angles[i] == AccelSample(status[..], i)) &&
        buttonZ == ZButtonFromFrame(status[5]) && buttonC == CButtonFromFrame(status[5]) &&
        lastZ == old(buttonZ) && lastC == old(buttonC) &&
        lastJoyX == old(ReadJoyX()) && lastJoyY == old(ReadJoyY()) &&
        frame == status[..] && committed &&
        requestsIssued == old(requestsIssued) + 1
      ensures old(cnt) + |bytes| < FrameSize ==>
        cnt == old(cnt) + |bytes| &&
        joyX == old(joyX) && joyY == old(joyY) && angles[..] == old(angles[..]) &&
        buttonZ == old(buttonZ) && buttonC == old(buttonC) &&
        lastZ == old(lastZ) && lastC == old(lastC) &&
        lastJoyX == old(lastJoyX) && lastJoyY == old(lastJoyY) &&
        frame == old(frame) && committed == old(committed) &&
        requestsIssued == old(requestsIssued)
    {
      ReceiveBytes(bytes);
      if cnt > 5 {
        Commit();
      }
    }

    /** The receive loop of a poll, the first step of Update: each delivered
        byte is decoded into the slot at the write position, which then
        advances. */
    method ReceiveBytes(bytes: seq<bv8>)
      requires Valid()
      requires cnt + |bytes| <= FrameSize
      modifies this`cnt, status
      ensures Valid()
      ensures cnt == old(cnt) + |bytes|
      ensures status[..] == Accumulate(old(status[..]), old(cnt), bytes)
      ensures forall j :: 0 <= j < FrameSize ==>
        status[j] == if old(cnt) <= j < old(cnt) + |bytes|
                     then DecodeByte(bytes[j - old(cnt)]) else old(status[j])
    {
      var k := 0;
      while k < |bytes|
        invariant 0 <= k <= |bytes|
        invariant cnt == old(cnt) + k
        invariant Accumulate(status[..], cnt, bytes[k..]) == Accumulate(old(status[..]), old(cnt), bytes)
      {
        assert bytes[k..][1..] == bytes[k + 1..];
        status[cnt] := DecodeByte(bytes[k]);
        cnt := cnt + 1;
        k := k + 1;
      }
      forall j | 0 <= j < FrameSize
        ensures status[j] == if old(cnt) <= j < old(cnt) + |bytes|
                             then DecodeByte(bytes[j - old(cnt)]) else old(status[j])
      {
        AccumulateAt(old(status[..]), old(cnt), bytes, j);
      }
    }

    /** The commit of a complete frame, the second step of Update, taken only
        when the write position has reached the end of the frame: remember
        the previous buttons and joystick reading, unpack the frame, rewind
        the write position and request the next sample. */
    method Commit()
      requires Valid()
      requires cnt == FrameSize
      modifies this, angles
      ensures Valid()
      ensures cnt == 0
      ensures joyX == status[0] && joyY == status[1]
      ensures forall i :: 0 <= i < 3 ==> angles[i] == AccelSample(status[..], i)
      ensures buttonZ == ZButtonFromFrame(status[5]) && buttonC == CButtonFromFrame(status[5])
      ensures lastZ == old(buttonZ) && lastC == old(buttonC)
      ensures lastJoyX == old(ReadJoyX()) && lastJoyY == old(ReadJoyY())
      ensures zeroJoyX == old(zeroJoyX) && zeroJoyY == old(zeroJoyY)
      ensures frame == status[..] && committed
      ensures requestsIssued == old(requestsIssued) + 1
    {
      SnapshotLast();
      cnt := 0;
      LoadFrame();
      requestsIssued := requestsIssued + 1;
    }

    /** The first step of Commit: the current buttons and joystick reading
        become the previous ones. */
    method SnapshotLast()
      modifies this`lastZ, this`lastC, this`lastJoyX, this`lastJoyY
      ensures lastZ == buttonZ && lastC == buttonC
      ensures lastJoyX == ReadJoyX() && lastJoyY == ReadJoyY()
    {
      lastZ := buttonZ;
      lastC := buttonC;
      lastJoyX := ReadJoyX();
      lastJoyY := ReadJoyY();
    }

    /** The middle step of Commit: the joystick bytes, accelerometer
        samples and buttons are taken from the frame in `status`. */
    method LoadFrame()
      requires status.Length == FrameSize && angles.Length == 3
      modifies this`joyX, this`joyY, this`buttonZ, this`buttonC, this`frame, this`committed, angles
      ensures joyX == status[0] && joyY == status[1]
      ensures forall i :: 0 <= i < 3 ==> angles[i] == AccelSample(status[..], i)
      ensures forall i :: 0 <= i < 3 ==> 0 <= angles[i] < 1024
      ensures buttonZ == ZButtonFromFrame(status[5]) && buttonC == CButtonFromFrame(status[5])
      ensures frame == status[..] && committed && ReflectsFrame()
    {
      joyX := status[0];
      joyY := status[1];
      UnpackAngles();
      buttonZ := ZButtonFromFrame(status[5]);
      buttonC := CButtonFromFrame(status[5]);
      frame, committed := status[..], true;
    }

    /** The unpacking loop of Commit: rebuilds the three 10-bit
        accelerometer samples from the frame. */
    method UnpackAngles()
      requires status.Length == FrameSize && angles.Length == 3
      modifies angles
      ensures forall i :: 0 <= i < 3 ==> angles[i] == AccelSample(status[..], i)
      ensures forall i :: 0 <= i < 3 ==> 0 <= angles[i] < 1024
    {
      for i := 0 to 3
        invariant forall j :: 0 <= j < i ==> angles[j] == AccelSample(status[..], j)
      {
        angles[i] := AccelSample(status[..], i);
      }
    }

    /** Accelerometer X relative to its zero point. */
    function ReadAccelX(): (r: int)
      requires Valid()
      reads this, angles
      ensures -ZeroX <= r < 1024 - ZeroX
      ensures r == 0 <==> angles[0] == ZeroX
    {
      angles[0] - ZeroX
    }

    /** Accelerometer Y relative to its zero point. */
    function ReadAccelY(): (r: int)
      requires Valid()
      reads this, angles
      ensures -ZeroY <= r < 1024 - ZeroY
      ensures r == 0 <==> angles[1] == ZeroY
    {
      angles[1] - ZeroY
    }

    /** Accelerometer Z relative to its zero point. */
    function ReadAccelZ(): (r: int)
      requires Valid()
      reads this, angles
      ensures -ZeroZ <= r < 1024 - ZeroZ
      ensures r == 0 <==> angles[2] == ZeroZ
    {
      angles[2] - ZeroZ
    }

    /** Rising edge of the Z button between the last two commits. */
    function ZPressed(): (edge: bool)
      reads this
      ensures edge ==> IsZbuttonPressed()
      ensures ReflectsFrame() && committed ==>
        (edge <==> (frame[5] as int) % 2 == 0 && !lastZ)
    {
      buttonZ && !lastZ
    }

    /** C is held down in the last committed frame. */
    function IsCbuttonPressed(): (pressed: bool)
      reads this
      ensures ReflectsFrame() && committed ==> (pressed <==> (frame[5] as int / 2) % 2 == 0)
    {
      buttonC
    }

    /** Z is held down in the last committed frame. */
    function IsZbuttonPressed(): (pressed: bool)
      reads this
      ensures ReflectsFrame() && committed ==> (pressed <==> (frame[5] as int) % 2 == 0)
    {
      buttonZ
    }

    /** The stick is off centre in some direction by more than `thresh`. */
    function IsJoyPressed(thresh: int): (pressed: bool)
      reads this
      ensures pressed <==> GetJoyPosLR(thresh) != JoyPosNeutral || GetJoyPosUD(thresh) != JoyPosNeutral
    {
      IsJoyStickUp(thresh) || IsJoyStickDown(thresh) || IsJoyStickLeft(thresh) || IsJoyStickRight(thresh)
    }

    /** The stick is right of centre by more than `thresh`. */
    function IsJoyStickRight(thresh: int): (right: bool)
      reads this
      ensures right <==> joyX as int > zeroJoyX as int + thresh
      ensures thresh >= 255 ==> !right
    {
      ReadJoyX() > thresh
    }

    /** The stick is left of centre by more than `thresh`; for a
        non-negative threshold this excludes right. */
    function IsJoyStickLeft(thresh: int): (left: bool)
      reads this
      ensures left <==> joyX as int < zeroJoyX as int - thresh
      ensures thresh >= 255 ==> !left
      ensures thresh >= 0 && left ==> !IsJoyStickRight(thresh)
    {
      ReadJoyX() < -thresh
    }

    /** The stick is above centre by more than `thresh`; for a
        non-negative threshold this excludes down. */
    function IsJoyStickUp(thresh: int): (up: bool)
      reads this
      ensures up <==> joyY as int > zeroJoyY as int + thresh
      ensures thresh >= 255 ==> !up
      ensures thresh >= 0 && up ==> !IsJoyStickDown(thresh)
    {
      ReadJoyY() > thresh
    }

    /** The stick is below centre by more than `thresh`. */
    function IsJoyStickDown(thresh: int): (down: bool)
      reads this
      ensures down <==> joyY as int < zeroJoyY as int - thresh
      ensures thresh >= 255 ==> !down
    {
      ReadJoyY() < -thresh
    }

    /** Left/right digitisation of the stick; left wins when both tests hold. */
    function GetJoyPosLR(thresh: int): (p: JoyPos)
      reads this
      ensures p == JoyPosLeft <==> ReadJoyX() < -thresh
      ensures p == JoyPosRight <==> -thresh <= ReadJoyX() && thresh < ReadJoyX()
      ensures p == JoyPosNeutral <==> -thresh <= ReadJoyX() <= thresh
    {
      if IsJoyStickLeft(thresh) then JoyPosLeft
      else if IsJoyStickRight(thresh) then JoyPosRight
      else JoyPosNeutral
    }

    /** Up/down digitisation of the stick; up wins when both tests hold. */
    function GetJoyPosUD(thresh: int): (p: JoyPos)
      reads this
      ensures p == JoyPosUp <==> thresh < ReadJoyY()
      ensures p == JoyPosDown <==> ReadJoyY() <= thresh && ReadJoyY() < -thresh
      ensures p == JoyPosNeutral <==> -thresh <= ReadJoyY() <= thresh
    {
      if IsJoyStickUp(thresh) then JoyPosUp
      else if IsJoyStickDown(thresh) then JoyPosDown
      else JoyPosNeutral
    }

    /** Joystick X relative to the calibrated centre. */
    function ReadJoyX(): (r: int)
      reads this
      ensures -255 <= r <= 255
      ensures r == 0 <==> joyX == zeroJoyX
    {
      joyX as int - zeroJoyX as int
    }

    /** Joystick Y relative to the calibrated centre. */
    function ReadJoyY(): (r: int)
      reads this
      ensures -255 <= r <= 255
      ensures r == 0 <==> joyY == zeroJoyY
    {
      joyY as int - zeroJoyY as int
    }
  }
}
