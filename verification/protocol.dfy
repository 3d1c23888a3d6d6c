/** Byte-level protocol of the SSD1306 controller as the I2C driver speaks it:
    every bus transaction starts with a control byte that tells the controller
    whether the remaining bytes are register commands or display data.
    This module is pure: it defines the frames the driver emits, the exact
    traffic of each driver operation, and the controller's reading of it. */
module Ssd1306Protocol {
  import opened KernelCommon

  /** One I2C transaction: the bytes handed to a single transport send. */
  type Frame = seq<bv8>

  /** Control byte: Co = 0, D/C# = 0, the rest of the transaction is commands. */
  const CONTROL_COMMAND: bv8 := 0x00
  /** Control byte: Co = 0, D/C# = 1, the rest of the transaction is display data. */
  const CONTROL_DATA: bv8 := 0x40

  // Geometry of the single supported panel: 128 columns by 8 pages of 8 rows.
  const COLUMNS: nat := 128
  const PAGES: nat := 8
  /** Bytes of display RAM, one bit per pixel: 128 * 64 / 8. */
  const PANEL_BYTES: nat := COLUMNS * PAGES

  const DISPLAY_OFF: bv8 := 0xAE
  const DISPLAY_ON: bv8 := 0xAF
  const SET_COLUMN_ADDRESS: bv8 := 0x21
  const SET_PAGE_ADDRESS: bv8 := 0x22

  /** The power-on register program, in the order it is sent: display off,
      clock divide, multiplex ratio, display offset, start line, charge pump,
      horizontal addressing, segment remap, COM scan direction, COM pins,
      contrast, resume from RAM, normal polarity. */
  const INIT_PROGRAM: seq<bv8> :=
    [0xAE, 0xD5, 0x80, 0xA8, 0x3F, 0xD3, 0x00, 0x40, 0x8D, 0x14,
     0x20, 0x00, 0xA1, 0xC8, 0xDA, 0x12, 0x81, 0xCF, 0xA4, 0xA6]

  /** Addressing window covering the whole panel: columns 0..127, pages 0..7. */
  const WINDOW_PROGRAM: seq<bv8> :=
    [SET_COLUMN_ADDRESS, 0x00, 0x7F, SET_PAGE_ADDRESS, 0x00, 0x07]

  // ---------------------------------------------------------------------
  // The controller's reading of a frame

  /** What the controller makes of one transaction. */
  datatype Transaction = Commands(ops: seq<bv8>) | Data(bytes: seq<bv8>)

  /** The controller looks only at the first byte to tell commands from data;
      control bytes other than the two the driver uses are not modelled. */
  function Parse(f: Frame): (t: Option<Transaction>)
  {
    if |f| == 0 then None
    else if f[0] == CONTROL_COMMAND then Some(Commands(f[1..]))
    else if f[0] == CONTROL_DATA then Some(Data(f[1..]))
    else None
  }

  // ---------------------------------------------------------------------
  // Frames the driver builds

  /** The two-byte transaction of one register command. */
  function CommandFrame(cmd: bv8): (f: Frame)
    ensures |f| == 2
    ensures Parse(f) == Some(Commands([cmd]))
  {
    [CONTROL_COMMAND, cmd]
  }

  /** A data burst: the data control byte followed by the whole payload. */
  function DataFrame(payload: seq<bv8>): (f: Frame)
    ensures |f| == |payload| + 1
    ensures Parse(f) == Some(Data(payload))
  {
    [CONTROL_DATA] + payload
  }

  /** The two-byte transaction of one display-data byte. */
  function DataByteFrame(d: bv8): (f: Frame)
    ensures f == DataFrame([d])
    ensures Parse(f) == Some(Data([d]))
  {
    [CONTROL_DATA, d]
  }

  /** One command frame per command byte, in order. */
  function CommandFrames(cmds: seq<bv8>): (fs: seq<Frame>)
    ensures |fs| == |cmds|
    ensures forall i :: 0 <= i < |cmds| ==> fs[i] == [CONTROL_COMMAND, cmds[i]]
  {
    seq(|cmds|, i requires 0 <= i < |cmds| => CommandFrame(cmds[i]))
  }

  function Zeros(n: nat): (z: seq<bv8>)
  {
    seq(n, _ => 0 as bv8)
  }

  /** The blank burst that clears the whole display RAM after power-on. */
  function BlankFrame(): (f: Frame)
    ensures |f| == PANEL_BYTES + 1 && f[0] == CONTROL_DATA
    ensures forall i :: 1 <= i < |f| ==> f[i] == 0
  {
    DataFrame(Zeros(PANEL_BYTES))
  }

  /** A buffer of the panel's size plus one, with the data control byte in
      front and zeros after it, is the blank burst. */
  lemma BlankFrameContents(s: seq<bv8>)
    requires |s| == PANEL_BYTES + 1 && s[0] == CONTROL_DATA
    requires forall i :: 1 <= i < |s| ==> s[i] == 0
    ensures s == BlankFrame()
  {
  }

  /** Bus traffic of the power-on sequence; the blank burst is sent only when
      its buffer could be allocated. */
  function InitTraffic(blankAllocated: bool): (log: seq<Frame>)
  {
    CommandFrames(INIT_PROGRAM) + CommandFrames(WINDOW_PROGRAM)
    + (if blankAllocated then [BlankFrame()] else [])
    + [CommandFrame(DISPLAY_ON)]
  }

  /** Bus traffic of a user write that gets past allocation and the copy:
      window reset, then one burst, whatever the sends return. */
  function WriteTraffic(payload: seq<bv8>): (log: seq<Frame>)
  {
    CommandFrames(WINDOW_PROGRAM) + [DataFrame(payload)]
  }

  // ---------------------------------------------------------------------
  // How the controller would read a whole log of issued frames

  function OpsOf(f: Frame): (ops: seq<bv8>)
  {
    match Parse(f)
    case Some(Commands(ops)) => ops
    case _ => []
  }

  function BytesOf(f: Frame): (bytes: seq<bv8>)
  {
    match Parse(f)
    case Some(Data(bytes)) => bytes
    case _ => []
  }

  /** One part of every frame of a log, frame after frame. */
  function Gather(log: seq<Frame>, part: Frame -> seq<bv8>): (s: seq<bv8>)
  {
    if log == [] then [] else Gather(log[..|log| - 1], part) + part(log[|log| - 1])
  }

  /** The command bytes the controller executes, across all frames of a log. */
  function CommandStream(log: seq<Frame>): (ops: seq<bv8>)
  {
    Gather(log, OpsOf)
  }

  /** The display-data bytes the controller stores, across all frames of a log. */
  function DataStream(log: seq<Frame>): (bytes: seq<bv8>)
  {
    Gather(log, BytesOf)
  }

  /** Every frame of the log is one the controller can read. */
  predicate WellFormed(log: seq<Frame>)
  {
    forall i :: 0 <= i < |log| ==> Parse(log[i]).Some?
  }

  // ---------------------------------------------------------------------
  // Lemmas

  /** The two control bytes differ, so no command frame is ever a data frame. */
  lemma MarkersDistinct(cmd: bv8, payload: seq<bv8>)
    ensures CONTROL_COMMAND != CONTROL_DATA
    ensures CommandFrame(cmd) != DataFrame(payload)
    ensures CommandFrame(cmd) != DataByteFrame(cmd)
  {
    assert CommandFrame(cmd)[0] != DataFrame(payload)[0];
    assert CommandFrame(cmd)[0] != DataByteFrame(cmd)[0];
  }

  /** Gathering over two logs in a row is gathering over their concatenation. */
  lemma {:induction false} GatherAppend(a: seq<Frame>, b: seq<Frame>, part: Frame -> seq<bv8>)
    ensures Gather(a + b, part) == Gather(a, part) + Gather(b, part)
    decreases |b|
  {
    if b == [] {
      assert a + b == a;
    } else {
      var n := |b| - 1;
      assert (a + b)[..|a + b| - 1] == a + b[..n];
      assert (a + b)[|a + b| - 1] == b[n];
      GatherAppend(a, b[..n], part);
    }
  }

  lemma CommandStreamAppend(a: seq<Frame>, b: seq<Frame>)
    ensures CommandStream(a + b) == CommandStream(a) + CommandStream(b)
  {
    GatherAppend(a, b, OpsOf);
  }

  lemma DataStreamAppend(a: seq<Frame>, b: seq<Frame>)
    ensures DataStream(a + b) == DataStream(a) + DataStream(b)
  {
    GatherAppend(a, b, BytesOf);
  }

  /** Both streams of a concatenated log are the concatenated streams. */
  lemma StreamsAppend(a: seq<Frame>, b: seq<Frame>)
    ensures CommandStream(a + b) == CommandStream(a) + CommandStream(b)
    ensures DataStream(a + b) == DataStream(a) + DataStream(b)
  {
    CommandStreamAppend(a, b);
    DataStreamAppend(a, b);
  }

  /** The last command's frame adds that command, and no display data, to
      what the frames of the commands before it present. */
  lemma CommandFramesLast(cmds: seq<bv8>)
    requires cmds != []
    ensures CommandStream(CommandFrames(cmds))
      == CommandStream(CommandFrames(cmds[..|cmds| - 1])) + [cmds[|cmds| - 1]]
    ensures DataStream(CommandFrames(cmds)) == DataStream(CommandFrames(cmds[..|cmds| - 1]))
  {
    var n := |cmds| - 1;
    var fs := CommandFrames(cmds);
    var last := fs[n];
    CommandFramesPrefix(cmds);
    assert last == CommandFrame(cmds[n]);
    assert OpsOf(last) == [cmds[n]];
    assert BytesOf(last) == [];
  }

  /** Issuing a command list frame by frame presents exactly that list to the
      controller, and no display data. */
  lemma {:induction false} CommandFramesStream(cmds: seq<bv8>)
    ensures CommandStream(CommandFrames(cmds)) == cmds
    ensures DataStream(CommandFrames(cmds)) == []
    decreases |cmds|
  {
    if cmds != [] {
      var n := |cmds| - 1;
      CommandFramesLast(cmds);
      CommandFramesStream(cmds[..n]);
      assert cmds == cmds[..n] + [cmds[n]];
    }
  }

  /** Every command frame is one the controller reads as a command. */
  lemma CommandFramesWellFormed(cmds: seq<bv8>)
    ensures WellFormed(CommandFrames(cmds))
  {
    var fs := CommandFrames(cmds);
    forall i | 0 <= i < |fs| ensures Parse(fs[i]).Some? {
      assert fs[i] == CommandFrame(cmds[i]);
    }
  }

  /** Dropping the last command drops the last frame. */
  lemma CommandFramesPrefix(cmds: seq<bv8>)
    requires cmds != []
    ensures CommandFrames(cmds)[..|cmds| - 1] == CommandFrames(cmds[..|cmds| - 1])
  {
  }

  lemma SingleFrameStream(f: Frame)
    ensures CommandStream([f]) == OpsOf(f)
    ensures DataStream([f]) == BytesOf(f)
  {
    assert [f][..0] == [];
    assert Gather([f], OpsOf) == Gather([], OpsOf) + OpsOf(f);
    assert Gather([f], BytesOf) == Gather([], BytesOf) + BytesOf(f);
  }

  /** A user write reprograms the full-panel window and then issues the
      caller's bytes, unchanged and in order, as display data. */
  lemma WriteTrafficMeaning(payload: seq<bv8>)
    ensures CommandStream(WriteTraffic(payload)) == WINDOW_PROGRAM
    ensures DataStream(WriteTraffic(payload)) == payload
    ensures WellFormed(WriteTraffic(payload))
  {
    CommandFramesStream(WINDOW_PROGRAM);
    CommandFramesWellFormed(WINDOW_PROGRAM);
    StreamsAppend(CommandFrames(WINDOW_PROGRAM), [DataFrame(payload)]);
    SingleFrameStream(DataFrame(payload));
  }

  /** The exact frames of a user write: six two-byte window commands, then a
      single frame of length count + 1 with the data marker in front. */
  lemma WriteTrafficFrames(payload: seq<bv8>)
    ensures |WriteTraffic(payload)| == 7
    ensures WriteTraffic(payload)[..6] ==
      [[0x00, 0x21], [0x00, 0x00], [0x00, 127], [0x00, 0x22], [0x00, 0x00], [0x00, 7]]
    ensures |WriteTraffic(payload)[6]| == |payload| + 1
    ensures WriteTraffic(payload)[6][0] == 0x40 && WriteTraffic(payload)[6][1..] == payload
  {
    var t := WriteTraffic(payload);
    assert t[6] == DataFrame(payload);
    assert t[6][1..] == payload;
  }

  /** A zero-length write is not rejected: after the window commands it
      sends the lone data control byte. */
  lemma EmptyWriteTraffic()
    ensures WriteTraffic([]) == CommandFrames(WINDOW_PROGRAM) + [[CONTROL_DATA]]
    ensures DataStream(WriteTraffic([])) == []
  {
    assert DataFrame([]) == [CONTROL_DATA];
    WriteTrafficMeaning([]);
  }

  /** Every frame of a concatenation of readable logs is readable. */
  lemma WellFormedAppend(a: seq<Frame>, b: seq<Frame>)
    requires WellFormed(a) && WellFormed(b)
    ensures WellFormed(a + b)
  {
    forall i | 0 <= i < |a + b| ensures Parse((a + b)[i]).Some? {
      if i < |a| { assert (a + b)[i] == a[i]; } else { assert (a + b)[i] == b[i - |a|]; }
    }
  }

  /** Command stream of a log made of two command programs, some frames that
      carry no commands, and one last command. */
  lemma ProgramCommandStream(p: seq<bv8>, q: seq<bv8>, blank: seq<Frame>, last: bv8)
    requires CommandStream(blank) == []
    ensures CommandStream(CommandFrames(p) + CommandFrames(q) + blank + [CommandFrame(last)]) == p + q + [last]
  {
    var a := CommandFrames(p);
    var b := CommandFrames(q);
    var d := [CommandFrame(last)];
    CommandFramesStream(p);
    CommandFramesStream(q);
    SingleFrameStream(CommandFrame(last));
    CommandStreamAppend(a, b);
    assert CommandStream(a + b) == p + q;
    CommandStreamAppend(a + b, blank);
    assert CommandStream(a + b + blank) == p + q;
    CommandStreamAppend(a + b + blank, d);
    assert CommandStream(d) == [last];
  }

  /** Data stream of the same shape of log: only the middle frames carry data. */
  lemma ProgramDataStream(p: seq<bv8>, q: seq<bv8>, blank: seq<Frame>, last: bv8)
    ensures DataStream(CommandFrames(p) + CommandFrames(q) + blank + [CommandFrame(last)]) == DataStream(blank)
  {
    var a := CommandFrames(p);
    var b := CommandFrames(q);
    var d := [CommandFrame(last)];
    CommandFramesStream(p);
    CommandFramesStream(q);
    SingleFrameStream(CommandFrame(last));
    DataStreamAppend(a, b);
    DataStreamAppend(a + b, blank);
    DataStreamAppend(a + b + blank, d);
  }

  /** Power-on issues the documented register program, the full-panel
      window and the display-on command, in that order, and (when the blank
      buffer was allocated) exactly one panel's worth of zero bytes. */
  lemma InitTrafficMeaning(blankAllocated: bool)
    ensures CommandStream(InitTraffic(blankAllocated)) == INIT_PROGRAM + WINDOW_PROGRAM + [DISPLAY_ON]
    ensures DataStream(InitTraffic(blankAllocated)) == if blankAllocated then Zeros(PANEL_BYTES) else []
  {
    var c: seq<Frame> := if blankAllocated then [BlankFrame()] else [];
    if blankAllocated {
      SingleFrameStream(BlankFrame());
    }
    ProgramCommandStream(INIT_PROGRAM, WINDOW_PROGRAM, c, DISPLAY_ON);
    ProgramDataStream(INIT_PROGRAM, WINDOW_PROGRAM, c, DISPLAY_ON);
  }

  lemma WellFormedAppend4(a: seq<Frame>, b: seq<Frame>, c: seq<Frame>, d: seq<Frame>)
    requires WellFormed(a) && WellFormed(b) && WellFormed(c) && WellFormed(d)
    ensures WellFormed(a + b + c + d)
  {
    WellFormedAppend(a, b);
    WellFormedAppend(a + b, c);
    WellFormedAppend(a + b + c, d);
  }

  /** A log of two command programs, some readable frames and one last
      command is readable. */
  lemma ProgramWellFormed(p: seq<bv8>, q: seq<bv8>, middle: seq<Frame>, last: bv8)
    requires WellFormed(middle)
    ensures WellFormed(CommandFrames(p) + CommandFrames(q) + middle + [CommandFrame(last)])
  {
    CommandFramesWellFormed(p);
    CommandFramesWellFormed(q);
    assert Parse(CommandFrame(last)).Some?;
    WellFormedAppend4(CommandFrames(p), CommandFrames(q), middle, [CommandFrame(last)]);
  }

  /** Every power-on frame is one the controller can read. */
  lemma InitTrafficWellFormed(blankAllocated: bool)
    ensures WellFormed(InitTraffic(blankAllocated))
  {
    var middle: seq<Frame> := if blankAllocated then [BlankFrame()] else [];
    assert WellFormed(middle) by {
      if blankAllocated {
        assert Parse(BlankFrame()) == Some(Data(Zeros(PANEL_BYTES)));
      }
    }
    ProgramWellFormed(INIT_PROGRAM, WINDOW_PROGRAM, middle, DISPLAY_ON);
  }

  /** Power-on traffic is 20 + 6 command frames, plus the blank burst when
      its buffer was allocated, plus display-on. */
  lemma InitTrafficLength(blankAllocated: bool)
    ensures |InitTraffic(blankAllocated)| == if blankAllocated then 28 else 27
  {
  }
}
