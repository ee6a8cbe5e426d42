/**
 * The serial protocol: packets framed as `[ length command data... checksum ]`
 * where `length` counts the data bytes plus five. A byte-at-a-time state
 * machine receives request packets into the input packet; the output packet
 * collects answer data and is sent as one frame.
 *
 * Receiving a byte (ReceiveChar) is the parameter of `Port.Process`; sending
 * one (SendChar) appends it to `Port.sent`.
 */
module Serial {
  import opened CTypes

  /** SER_START, '['. */
  const StartByte: uint8 := 0x5B
  /** SER_END, ']'. */
  const EndByte: uint8 := 0x5D
  /** The size of a packet's data array. */
  const BufferSize: nat := 32

  type Buffer = s: seq<uint8> | |s| == BufferSize witness seq(BufferSize, _ => 0)

  datatype RxState = Start | Length | Command | Data | Checksum | Stop | Busy

  /**
   * What the receiver state machine reads and writes: its state, the fields of
   * the input packet, and the output packet's data index (reset on '[').
   */
  datatype Rx = Rx(
    state: RxState,
    length: uint8,
    command: uint8,
    data: Buffer,
    index: uint8,
    checksum: uint8,
    outIndex: uint8)

  /**
   * SER_Process for one received byte: the next receiver and whether the
   * packet-received event is raised. A data byte at an index past the buffer
   * is not stored.
   */
  function Step(r: Rx, b: uint8): (Rx, bool)
  {
    match r.state
    case Start =>
      if b == StartByte then (r.(state := Length, index := 0, outIndex := 0), false)
      else (r, false)
    case Length => (r.(length := b, state := Command), false)
    case Command => (r.(command := b, state := if r.length > 5 then Data else Checksum), false)
    case Data =>
      var data := if r.index < BufferSize then r.data[r.index := b] else r.data;
      var index := (r.index + 1) % 0x100;
      (r.(data := data, index := index, state := if r.length <= index + 5 then Checksum else Data), false)
    case Checksum => (r.(checksum := b, state := Stop), false)
    case Stop =>
      if b == EndByte then (r.(state := Busy), true)
      else (r.(state := Start), false)
    case Busy => (r, false)
  }

  /** The receiver after a sequence of bytes. */
  function Feed(r: Rx, bs: seq<uint8>): Rx
    decreases |bs|
  {
    if bs == [] then r else Feed(Step(r, bs[0]).0, bs[1..])
  }

  /** The bytes of one frame with the given command, data and checksum. */
  function Frame(command: uint8, payload: seq<uint8>, checksum: uint8): (f: seq<uint8>)
    requires |payload| <= BufferSize
    ensures |f| == |payload| + 5
    ensures f[0] == StartByte && f[|f| - 1] == EndByte
  {
    [StartByte, |payload| + 5, command] + payload + [checksum, EndByte]
  }

  /**
   * The two bytes SER_AddData16 appends for `d`: the high byte, then the
   * low byte; together they give `d` back.
   */
  function Data16(d: uint16): (bs: seq<uint8>)
    ensures |bs| == 2 && (bs[0] as int) * 0x100 + (bs[1] as int) == d
  {
    var high, low := d / 0x100, d % 0x100;
    assert high * 0x100 + low == d;
    [high, low]
  }

  /** SER_TestChecksum: a stub that accepts every packet. */
  function TestChecksum(r: Rx): (ok: bool)
    ensures ok
  {
    true
  }

  /** SER_BuildChecksum: a stub whose checksum is always 0. */
  function BuildChecksum(): (c: uint8)
    ensures c == 0
  {
    0
  }

  lemma FeedCons(r: Rx, b: uint8, rest: seq<uint8>)
    ensures Feed(r, [b] + rest) == Feed(Step(r, b).0, rest)
  {
    assert ([b] + rest)[1..] == rest;
  }

  lemma {:induction false} FeedAppend(r: Rx, a: seq<uint8>, b: seq<uint8>)
    ensures Feed(r, a + b) == Feed(Feed(r, a), b)
    decreases |a|
  {
    if a == [] {
      assert a + b == b;
    } else {
      assert a + b == [a[0]] + (a[1..] + b);
      FeedCons(r, a[0], a[1..] + b);
      FeedAppend(Step(r, a[0]).0, a[1..], b);
    }
  }

  /** In Start only '[' moves on, to Length, clearing both data indices. */
  lemma StartWaitsForOpen(r: Rx, b: uint8)
    requires r.state == Start
    ensures b == StartByte ==> Step(r, b).0 == r.(state := Length, index := 0, outIndex := 0)
    ensures b != StartByte ==> Step(r, b).0 == r
  {
  }

  /** In Stop a byte other than ']' drops the packet; ']' completes it and raises the event. */
  lemma StopNeedsClose(r: Rx, b: uint8)
    requires r.state == Stop
    ensures Step(r, b).1 <==> b == EndByte
    ensures Step(r, b).0.state == if b == EndByte then Busy else Start
  {
  }

  /** A completed packet is kept, whatever arrives, until it is marked handled. */
  lemma {:induction false} BusyIgnoresInput(r: Rx, bs: seq<uint8>)
    requires r.state == Busy
    ensures Feed(r, bs) == r
    decreases |bs|
  {
    if bs != [] {
      BusyIgnoresInput(Step(r, bs[0]).0, bs[1..]);
    }
  }

  /**
   * Data stores each byte at the next index and leaves for Checksum exactly
   * when `length <= index + 5`: fed the remaining `length - index - 5` bytes,
   * it has stored them all and waits for the checksum.
   */
  lemma {:induction false} FeedData(r: Rx, payload: seq<uint8>)
    requires r.state == Data && |payload| >= 1
    requires r.length == r.index + |payload| + 5 && r.index + |payload| <= BufferSize
    ensures Feed(r, payload).state == Checksum
    ensures Feed(r, payload).index == r.index + |payload|
    ensures Feed(r, payload).data == r.data[..r.index] + payload + r.data[r.index + |payload|..]
    ensures Feed(r, payload) == r.(state := Checksum, index := r.index + |payload|,
                                  data := Feed(r, payload).data)
    decreases |payload|
  {
    var r1 := Step(r, payload[0]).0;
    if |payload| == 1 {
      assert Feed(r, payload) == Feed(r1, []) == r1;
    } else {
      assert r1.state == Data && r1.index == r.index + 1;
      FeedData(r1, payload[1..]);
      assert r1.data == r.data[r.index := payload[0]];
    }
  }

  /**
   * Round trip: a frame built from a command, data of at most 32 bytes and a
   * checksum, fed to a receiver waiting in Start, leaves it Busy holding that
   * length, command, data and checksum.
   */
  lemma FrameRoundTrip(r: Rx, command: uint8, payload: seq<uint8>, checksum: uint8)
    requires r.state == Start && |payload| <= BufferSize
    ensures var r' := Feed(r, Frame(command, payload, checksum));
      && r'.state == Busy
      && r'.length == |payload| + 5
      && r'.command == command
      && r'.data[..|payload|] == payload
      && r'.index == |payload|
      && r'.checksum == checksum
      && r'.outIndex == 0
  {
    var tail: seq<uint8> := [checksum, EndByte];
    var r3 := FeedHeader(r, |payload| + 5, command, payload + tail);
    assert Frame(command, payload, checksum) == [StartByte, |payload| + 5, command] + (payload + tail);
    FeedAppend(r3, payload, tail);
    var r4 := Feed(r3, payload);
    if payload != [] {
      FeedData(r3, payload);
    }
    assert r4.state == Checksum && r4.index == |payload| && r4.data[..|payload|] == payload;
    FeedCons(r4, checksum, [EndByte]);
    FeedCons(Step(r4, checksum).0, EndByte, []);
  }

  /**
   * A frame whose length byte is at most 5 carries no data: '[', the length,
   * the command, the checksum and ']' leave the receiver Busy with that
   * length, command and checksum, and nothing stored.
   */
  lemma ShortFrameRoundTrip(r: Rx, length: uint8, command: uint8, checksum: uint8)
    requires r.state == Start && length <= 5
    ensures var r' := Feed(r, [StartByte, length, command, checksum, EndByte]);
      && r'.state == Busy
      && r'.length == length
      && r'.command == command
      && r'.data == r.data
      && r'.index == 0
      && r'.checksum == checksum
      && r'.outIndex == 0
  {
    var r3 := FeedHeader(r, length, command, [checksum, EndByte]);
    assert [StartByte, length, command, checksum, EndByte] == [StartByte, length, command] + [checksum, EndByte];
    FeedCons(r3, checksum, [EndByte]);
    FeedCons(Step(r3, checksum).0, EndByte, []);
  }

  /** The opening byte, the length byte and the command byte of a frame. */
  lemma FeedHeader(r: Rx, length: uint8, command: uint8, rest: seq<uint8>) returns (r3: Rx)
    requires r.state == Start
    ensures r3 == r.(state := if length > 5 then Data else Checksum, index := 0, outIndex := 0,
                     length := length, command := command)
    ensures Feed(r, [StartByte, length, command] + rest) == Feed(r3, rest)
  {
    r3 := r.(state := if length > 5 then Data else Checksum, index := 0, outIndex := 0,
             length := length, command := command);
    assert [StartByte, length, command] + rest == [StartByte] + ([length] + ([command] + rest));
    FeedCons(r, StartByte, [length] + ([command] + rest));
    var r1 := Step(r, StartByte).0;
    FeedCons(r1, length, [command] + rest);
    FeedCons(Step(r1, length).0, command, rest);
  }

  /**
   * A length byte above 37 announces more data than the buffer holds: after
   * 32 data bytes the receiver is still in Data, so the next data byte would
   * be written at index 32, past the 32-byte array.
   */
  lemma OverlongFrameOverruns(r: Rx, length: uint8, command: uint8, payload: seq<uint8>)
    requires r.state == Start && length > BufferSize + 5 && |payload| == BufferSize
    ensures Feed(r, [StartByte, length, command] + payload).state == Data
    ensures Feed(r, [StartByte, length, command] + payload).index == BufferSize
  {
    var r3 := FeedHeader(r, length, command, payload);
    DataKeepsGoing(r3, payload);
  }

  lemma {:induction false} DataKeepsGoing(r: Rx, payload: seq<uint8>)
    requires r.state == Data && r.index + |payload| + 5 < r.length
    ensures Feed(r, payload).state == Data && Feed(r, payload).index == r.index + |payload|
    decreases |payload|
  {
    if payload != [] {
      DataKeepsGoing(Step(r, payload[0]).0, payload[1..]);
    }
  }

  /** The serial module's static data: the receiver and both packets. */
  class Port {
    var state: RxState
    var inCommand: uint8
    const inData: array<uint8>
    var inIndex: uint8
    var inLength: uint8
    var inChecksum: uint8
    var outCommand: uint8
    const outData: array<uint8>
    var outIndex: uint8
    var outLength: uint8
    var outChecksum: uint8
    /** Every byte handed to SendChar so far. */
    var sent: seq<uint8>

    ghost predicate Valid()
      reads this
    {
      inData.Length == BufferSize && outData.Length == BufferSize && inData != outData
      && outIndex <= BufferSize
    }

    /** The receiver's part of the state. */
    ghost function View(): Rx
      requires Valid()
      reads this, inData
    {
      Rx(state, inLength, inCommand, inData[..], inIndex, inChecksum, outIndex)
    }

    /** The answer data added since the last packet was sent. */
    ghost function Payload(): (p: seq<uint8>)
      requires Valid()
      reads this, outData
      ensures |p| == outIndex
    {
      outData[..outIndex]
    }

    /** The static initialiser: state Start, both packets zero. */
    constructor ()
      ensures Valid() && fresh(inData) && fresh(outData)
      ensures state == Start && Payload() == [] && sent == []
      ensures View() == Rx(Start, 0, 0, seq(BufferSize, _ => 0), 0, 0, 0)
      ensures outData[..] == seq(BufferSize, _ => 0) && outCommand == 0 && outLength == 0 && outChecksum == 0
    {
      state := Start;
      inCommand, inIndex, inLength, inChecksum := 0, 0, 0, 0;
      outCommand, outIndex, outLength, outChecksum := 0, 0, 0, 0;
      inData := new uint8[BufferSize](_ => 0);
      outData := new uint8[BufferSize](_ => 0);
      sent := [];
    }

    /** SER_GetLength. */
    function GetLength(): uint8
      reads this
    {
      inLength
    }

    /** SER_GetCommand. */
    function GetCommand(): uint8
      reads this
    {
      inCommand
    }

    /** SER_GetData: data byte `i` of the input packet. */
    function GetData(i: nat): uint8
      requires Valid() && i < BufferSize
      reads this, inData
    {
      inData[i]
    }

    /** SER_SetHandled: the receiver accepts the next packet. */
    method SetHandled()
      requires Valid()
      modifies this
      ensures Valid() && View() == old(View()).(state := Start)
      ensures Payload() == old(Payload()) && sent == old(sent)
      ensures outCommand == old(outCommand) && outLength == old(outLength) && outChecksum == old(outChecksum)
    {
      state := Start;
    }

    /** SER_Process: consumes the received byte `b`; `signal` is EVNT_SetEvent(EVNT_SERIAL_CMD). */
    method Process(b: uint8) returns (signal: bool)
      requires Valid()
      modifies this, inData
      ensures Valid()
      ensures (View(), signal) == Step(old(View()), b)
      ensures outData[..] == old(outData[..]) && sent == old(sent)
      ensures outCommand == old(outCommand) && outLength == old(outLength) && outChecksum == old(outChecksum)
    {
      signal := false;
      match state
      case Start =>
        if b == StartByte {
          inIndex := 0;
          outIndex := 0;
          state := Length;
        } else {
          state := Start;
        }
      case Length =>
        inLength := b;
        state := Command;
      case Command =>
        inCommand := b;
        if inLength > 5 {
          state := Data;
        } else {
          state := Checksum;
        }
      case Data =>
        if inIndex < BufferSize {
          inData[inIndex] := b;
        }
        inIndex := (inIndex + 1) % 0x100;
        if inLength <= inIndex + 5 {
          state := Checksum;
        }
      case Checksum =>
        inChecksum := b;
        state := Stop;
      case Stop =>
        if b == EndByte {
          signal := true;
          state := Busy;
        } else {
          state := Start;
        }
      case Busy =>
    }

    /** SER_AddData8: appends one byte to the answer. */
    method AddData8(d: uint8)
      requires Valid() && outIndex < BufferSize
      modifies this, outData
      ensures Valid() && Payload() == old(Payload()) + [d]
      ensures View() == old(View()).(outIndex := old(outIndex) + 1) && sent == old(sent)
      ensures outCommand == old(outCommand) && outLength == old(outLength) && outChecksum == old(outChecksum)
    {
      outData[outIndex] := d;
      outIndex := outIndex + 1;
    }

    /** SER_AddData16: appends the high byte, then the low byte. */
    method AddData16(d: uint16)
      requires Valid() && outIndex + 2 <= BufferSize
      modifies this, outData
      ensures Valid() && Payload() == old(Payload()) + Data16(d)
      ensures View() == old(View()).(outIndex := old(outIndex) + 2) && sent == old(sent)
      ensures outCommand == old(outCommand) && outLength == old(outLength) && outChecksum == old(outChecksum)
    {
      outData[outIndex] := d / 0x100;
      outIndex := outIndex + 1;
      outData[outIndex] := d % 0x100;
      outIndex := outIndex + 1;
    }

    /**
     * SER_SendPacket: sends the answer as one frame whose length is the data
     * count plus five and whose checksum is BuildChecksum's, then empties it.
     */
    method SendPacket(command: uint8)
      requires Valid()
      modifies this
      ensures Valid()
      ensures sent == old(sent) + Frame(command, old(Payload()), BuildChecksum())
      ensures Payload() == [] && outLength == old(outIndex) + 5 && outCommand == command
      ensures outChecksum == BuildChecksum()
      ensures View() == old(View()).(outIndex := 0)
    {
      outLength := outIndex + 5;
      outCommand := command;
      outChecksum := BuildChecksum();
      sent := sent + [StartByte, outLength, outCommand];
      var i: uint8 := 0;
      while i < outIndex
        invariant 0 <= i <= outIndex
        invariant Valid() && View() == old(View()) && outData[..] == old(outData[..])
        invariant outLength == outIndex + 5 && outCommand == command && outChecksum == BuildChecksum()
        invariant sent == old(sent) + [StartByte, outLength, outCommand] + outData[..i]
      {
        sent := sent + [outData[i]];
        assert outData[..i + 1] == outData[..i] + [outData[i]];
        i := i + 1;
      }
      sent := sent + [outChecksum, EndByte];
      outIndex := 0;
    }
  }
}
