/** The SSD1306 I2C OLED driver: command/data transactions, the power-on
    sequence, the character-device write path and the probe/remove
    lifecycle. The I2C transport is an object that records every frame it is
    given and answers with a result chosen by an oracle; kernel allocation
    outcomes are parameters. */
module Ssd1306Driver {
  import opened KernelCommon
  import opened Ssd1306Protocol
  import opened KernelRegistry
  import opened SystemTrace

  const DEVICE_NAME: string := "ssd1306"
  const CLASS_NAME: string := "ssd_class"

  /** The registrations a successful probe holds, in the order it takes them. */
  function ProbeResources(dev: nat): (rs: seq<Resource>)
  {
    [ChrdevRegion(dev), CharDevice(dev), DeviceClass(CLASS_NAME), DeviceNode(dev, DEVICE_NAME)]
  }

  /** Remove gives the registrations back in this order. */
  function RemoveOrder(dev: nat): (rs: seq<Resource>)
  {
    [DeviceNode(dev, DEVICE_NAME), DeviceClass(CLASS_NAME), CharDevice(dev), ChrdevRegion(dev)]
  }

  /** Remove's release order is exactly probe's acquisition order reversed. */
  lemma RemoveReversesProbe(dev: nat)
    ensures RemoveOrder(dev) == Reverse(ProbeResources(dev))
  {
    var r := Reverse(ProbeResources(dev));
    assert r[0] == DeviceNode(dev, DEVICE_NAME) && r[1] == DeviceClass(CLASS_NAME);
    assert r[2] == CharDevice(dev) && r[3] == ChrdevRegion(dev);
  }

  /** What i2c_master_send returns for the n-th transaction of a client:
      the scripted outcome when there is one (a negative errno, say),
      otherwise the number of bytes sent. */
  function SendResult(outcomes: map<nat, int>, n: nat, frame: Frame): (r: int)
  {
    if n in outcomes then outcomes[n] else |frame|
  }

  /** The I2C client of the panel. `log` is every frame handed to
      i2c_master_send, in order; `outcomes` scripts what the transport
      answers, by position of the transaction in the log. Every frame is
      also recorded in the shared `trace`. */
  class Client {
    var log: seq<Frame>
    const outcomes: map<nat, int>
    const trace: Trace

    constructor (outcomes: map<nat, int>, trace: Trace)
      ensures log == [] && this.outcomes == outcomes && this.trace == trace
    {
      log := [];
      this.outcomes := outcomes;
      this.trace := trace;
    }

    /** i2c_master_send: one transaction carrying exactly `frame`. */
    method Send(frame: Frame) returns (r: int)
      modifies this, trace
      ensures log == old(log) + [frame]
      ensures trace.steps == old(trace.steps) + [Bus(frame)]
      ensures r == SendResult(outcomes, |old(log)|, frame)
    {
      r := SendResult(outcomes, |log|, frame);
      log := log + [frame];
      trace.steps := trace.steps + [Bus(frame)];
    }

    /** ssd1306_write_cmd: one command byte behind the command control byte. */
    method WriteCmd(cmd: bv8) returns (r: int)
      modifies this, trace
      ensures log == old(log) + [[CONTROL_COMMAND, cmd]]
      ensures trace.steps == old(trace.steps) + [Bus([CONTROL_COMMAND, cmd])]
      ensures r == SendResult(outcomes, |old(log)|, [CONTROL_COMMAND, cmd])
    {
      var buf: Frame := [CONTROL_COMMAND, cmd];
      r := Send(buf);
    }

    /** ssd1306_write_data: one display byte behind the data control byte. */
    method WriteData(d: bv8) returns (r: int)
      modifies this, trace
      ensures log == old(log) + [[CONTROL_DATA, d]]
      ensures trace.steps == old(trace.steps) + [Bus([CONTROL_DATA, d])]
      ensures r == SendResult(outcomes, |old(log)|, [CONTROL_DATA, d])
    {
      var buf: Frame := [CONTROL_DATA, d];
      r := Send(buf);
    }

    /** The six commands that put the write cursor back at column 0, page 0
        with the window spanning the whole panel; their results are dropped. */
    method ResetWindow()
      modifies this, trace
      ensures log == old(log) + CommandFrames(WINDOW_PROGRAM)
      ensures trace.steps == old(trace.steps) + BusSteps(CommandFrames(WINDOW_PROGRAM))
    {
      ghost var trace0 := trace.steps;
      var ignored := WriteCmd(SET_COLUMN_ADDRESS);
      ignored := WriteCmd(0x00);
      ignored := WriteCmd(127);
      ignored := WriteCmd(SET_PAGE_ADDRESS);
      ignored := WriteCmd(0x00);
      ignored := WriteCmd(7);
      WindowTraceChain(trace0);
    }

    /** The blank burst of ssd1306_init_display: a zeroed buffer of the
        panel's size plus one, with the data control byte in front, sent in
        one transaction when kzalloc succeeds and skipped when it fails. */
    method BlankBurst(zallocOk: bool)
      modifies this, trace
      ensures log == old(log) + if zallocOk then [BlankFrame()] else []
      ensures trace.steps == old(trace.steps) + BusSteps(if zallocOk then [BlankFrame()] else [])
    {
      if zallocOk {
        var clear := new bv8[PANEL_BYTES + 1](_ => 0);
        clear[0] := CONTROL_DATA;
        BlankFrameContents(clear[..]);
        var ignored := Send(clear[..]);
        BusStepsSingle(BlankFrame());
      }
    }

    /** The wake-up program of ssd1306_init_display, one command per
        transaction, results dropped. */
    method SendInitProgram()
      modifies this, trace
      ensures log == old(log) + CommandFrames(INIT_PROGRAM)
      ensures trace.steps == old(trace.steps) + BusSteps(CommandFrames(INIT_PROGRAM))
    {
      ghost var log0 := log;
      ghost var trace0 := trace.steps;
      var ignored := WriteCmd(0xAE);
      ignored := WriteCmd(0xD5);
      ignored := WriteCmd(0x80);
      ignored := WriteCmd(0xA8);
      ignored := WriteCmd(0x3F);
      ignored := WriteCmd(0xD3);
      ignored := WriteCmd(0x00);
      ignored := WriteCmd(0x40);
      ignored := WriteCmd(0x8D);
      ignored := WriteCmd(0x14);
      ignored := WriteCmd(0x20);
      ignored := WriteCmd(0x00);
      ignored := WriteCmd(0xA1);
      ignored := WriteCmd(0xC8);
      ignored := WriteCmd(0xDA);
      ignored := WriteCmd(0x12);
      ignored := WriteCmd(0x81);
      ignored := WriteCmd(0xCF);
      ignored := WriteCmd(0xA4);
      ignored := WriteCmd(0xA6);
      InitProgramChain(log0);
      InitProgramTraceChain(trace0);
      InitProgramStepsAgree();
      InitProgramFramesAgree();
    }

    /** ssd1306_init_display: the register program, the full window, a blank
        burst when kzalloc succeeds, then display on. Every send result is
        ignored and the function always reports success. */
    method InitDisplay(zallocOk: bool) returns (r: int)
      modifies this, trace
      ensures log == old(log) + InitTraffic(zallocOk)
      ensures trace.steps == old(trace.steps) + BusSteps(InitTraffic(zallocOk))
      ensures r == 0
    {
      ghost var log0, trace0 := log, trace.steps;
      ghost var blank: seq<Frame> := if zallocOk then [BlankFrame()] else [];
      SendInitProgram();
      ResetWindow();
      BlankBurst(zallocOk);
      var ignored := WriteCmd(DISPLAY_ON);
      assert log == log0 + CommandFrames(INIT_PROGRAM) + CommandFrames(WINDOW_PROGRAM) + blank
        + [CommandFrame(DISPLAY_ON)];
      assert trace.steps == trace0 + BusSteps(CommandFrames(INIT_PROGRAM))
        + BusSteps(CommandFrames(WINDOW_PROGRAM)) + BusSteps(blank) + [Bus(CommandFrame(DISPLAY_ON))];
      InitTraceAppend(zallocOk);
      r := 0;
    }
  }

  /** The power-on program's frames, written out in the order they are sent. */
  function InitProgramFrames(): (fs: seq<Frame>)
  {
    [[0x00, 0xAE], [0x00, 0xD5], [0x00, 0x80], [0x00, 0xA8], [0x00, 0x3F],
     [0x00, 0xD3], [0x00, 0x00], [0x00, 0x40], [0x00, 0x8D], [0x00, 0x14],
     [0x00, 0x20], [0x00, 0x00], [0x00, 0xA1], [0x00, 0xC8], [0x00, 0xDA],
     [0x00, 0x12], [0x00, 0x81], [0x00, 0xCF], [0x00, 0xA4], [0x00, 0xA6]]
  }

  /** The wake-up program sent one frame at a time is the whole program. */
  lemma InitProgramChain(l0: seq<Frame>)
    ensures
      l0 + [[0x00, 0xAE]] + [[0x00, 0xD5]] + [[0x00, 0x80]] + [[0x00, 0xA8]] + [[0x00, 0x3F]]
      + [[0x00, 0xD3]] + [[0x00, 0x00]] + [[0x00, 0x40]] + [[0x00, 0x8D]] + [[0x00, 0x14]]
      + [[0x00, 0x20]] + [[0x00, 0x00]] + [[0x00, 0xA1]] + [[0x00, 0xC8]] + [[0x00, 0xDA]]
      + [[0x00, 0x12]] + [[0x00, 0x81]] + [[0x00, 0xCF]] + [[0x00, 0xA4]] + [[0x00, 0xA6]]
      == l0 + InitProgramFrames()
  {
  }

  /** The written-out frames are the frames of the register program. */
  lemma InitProgramFramesAgree()
    ensures InitProgramFrames() == CommandFrames(INIT_PROGRAM)
  {
  }

  /** The same program, as recorded in the shared history. */
  lemma InitProgramTraceChain(t0: seq<Step>)
    ensures
      t0 + [Bus([0x00, 0xAE])] + [Bus([0x00, 0xD5])] + [Bus([0x00, 0x80])] + [Bus([0x00, 0xA8])]
      + [Bus([0x00, 0x3F])] + [Bus([0x00, 0xD3])] + [Bus([0x00, 0x00])] + [Bus([0x00, 0x40])]
      + [Bus([0x00, 0x8D])] + [Bus([0x00, 0x14])] + [Bus([0x00, 0x20])] + [Bus([0x00, 0x00])]
      + [Bus([0x00, 0xA1])] + [Bus([0x00, 0xC8])] + [Bus([0x00, 0xDA])] + [Bus([0x00, 0x12])]
      + [Bus([0x00, 0x81])] + [Bus([0x00, 0xCF])] + [Bus([0x00, 0xA4])] + [Bus([0x00, 0xA6])]
      == t0 + InitProgramSteps()
  {
  }

  /** The history entries of the power-on program, written out. */
  function InitProgramSteps(): (ss: seq<Step>)
  {
    [Bus([0x00, 0xAE]), Bus([0x00, 0xD5]), Bus([0x00, 0x80]), Bus([0x00, 0xA8]),
     Bus([0x00, 0x3F]), Bus([0x00, 0xD3]), Bus([0x00, 0x00]), Bus([0x00, 0x40]),
     Bus([0x00, 0x8D]), Bus([0x00, 0x14]), Bus([0x00, 0x20]), Bus([0x00, 0x00]),
     Bus([0x00, 0xA1]), Bus([0x00, 0xC8]), Bus([0x00, 0xDA]), Bus([0x00, 0x12]),
     Bus([0x00, 0x81]), Bus([0x00, 0xCF]), Bus([0x00, 0xA4]), Bus([0x00, 0xA6])]
  }

  lemma InitProgramStepsAgree()
    ensures InitProgramSteps() == BusSteps(InitProgramFrames())
  {
    BusStepsIndex(InitProgramFrames());
  }

  /** The window reset as recorded in the shared history. */
  lemma WindowTraceChain(t0: seq<Step>)
    ensures
      t0 + [Bus([0x00, 0x21])] + [Bus([0x00, 0x00])] + [Bus([0x00, 127])]
      + [Bus([0x00, 0x22])] + [Bus([0x00, 0x00])] + [Bus([0x00, 7])]
      == t0 + BusSteps(CommandFrames(WINDOW_PROGRAM))
  {
    BusStepsIndex(CommandFrames(WINDOW_PROGRAM));
    assert BusSteps(CommandFrames(WINDOW_PROGRAM)) ==
      [Bus([0x00, 0x21]), Bus([0x00, 0x00]), Bus([0x00, 127]),
       Bus([0x00, 0x22]), Bus([0x00, 0x00]), Bus([0x00, 7])];
  }

  /** The history entries of power-on are those of its four parts in turn. */
  lemma InitTraceAppend(zallocOk: bool)
    ensures BusSteps(InitTraffic(zallocOk)) ==
      BusSteps(CommandFrames(INIT_PROGRAM)) + BusSteps(CommandFrames(WINDOW_PROGRAM))
      + BusSteps(if zallocOk then [BlankFrame()] else []) + [Bus(CommandFrame(DISPLAY_ON))]
  {
    var a, b := CommandFrames(INIT_PROGRAM), CommandFrames(WINDOW_PROGRAM);
    var c: seq<Frame> := if zallocOk then [BlankFrame()] else [];
    var d := [CommandFrame(DISPLAY_ON)];
    BusStepsAppend(a + b + c, d);
    BusStepsAppend(a + b, c);
    BusStepsAppend(a, b);
    BusStepsSingle(CommandFrame(DISPLAY_ON));
  }

  /** copy_from_user into dst[at..at+n]: `user` is the user memory readable
      at the source address; the copy faults when it is shorter than n.
      Returns the number of bytes not copied. */
  method CopyFromUser(dst: array<bv8>, at: nat, user: seq<bv8>, n: nat) returns (left: nat)
    requires at + n <= dst.Length
    modifies dst
    ensures left == 0 <==> n <= |user|
    ensures left == 0 ==> dst[..] == old(dst[..at]) + user[..n] + old(dst[at + n..])
  {
    if n > |user| {
      return n - |user|;
    }
    forall i | at <= i < at + n {
      dst[i] := user[i - at];
    }
    assert dst[..] == old(dst[..at]) + user[..n] + old(dst[at + n..]);
    return 0;
  }

  /** struct ssd1306_data: the client and the registrations probe took. */
  class Ssd1306 {
    const client: Client
    var devNum: nat
    var held: seq<Resource>

    constructor (client: Client)
      ensures this.client == client && held == []
    {
      this.client := client;
      devNum := 0;
      held := [];
    }

    /** ssd1306_write: reset the window, then send the caller's `count` bytes
        as one frame behind the data control byte. `kmallocOk` is the outcome
        of allocating the count + 1 byte buffer. */
    method Write(user: seq<bv8>, count: nat, kmallocOk: bool) returns (r: int)
      modifies client, client.trace
      ensures !kmallocOk ==> r == -ENOMEM
      ensures kmallocOk && count > |user| ==> r == -EFAULT
      ensures !kmallocOk || count > |user| ==>
        client.log == old(client.log) && client.trace.steps == old(client.trace.steps)
      ensures kmallocOk && count <= |user| ==>
        client.log == old(client.log) + WriteTraffic(user[..count])
      ensures kmallocOk && count <= |user| ==>
        client.trace.steps == old(client.trace.steps) + BusSteps(WriteTraffic(user[..count]))
      ensures kmallocOk && count <= |user| ==>
        var sent := SendResult(client.outcomes, |old(client.log)| + |WINDOW_PROGRAM|, DataFrame(user[..count]));
        r == if sent < 0 then sent else count
    {
      if !kmallocOk {
        return -ENOMEM;
      }
      var kbuf := new bv8[count + 1];
      kbuf[0] := CONTROL_DATA;
      var left := CopyFromUser(kbuf, 1, user, count);
      if left != 0 {
        return -EFAULT;
      }
      assert kbuf[..] == DataFrame(user[..count]);

      client.ResetWindow();
      var ret := client.Send(kbuf[..]);
      BusStepsAppend(CommandFrames(WINDOW_PROGRAM), [DataFrame(user[..count])]);
      BusStepsSingle(DataFrame(user[..count]));
      if ret < 0 {
        return ret;
      }
      return count;
    }

    /** ssd1306_remove: display off (result ignored), then device, class,
        cdev and region are given back, in that order after the bus frame. */
    method Remove(kernel: Kernel)
      requires held == ProbeResources(devNum)
      requires kernel.trace == client.trace
      modifies this, client, kernel, client.trace
      ensures client.log == old(client.log) + [CommandFrame(DISPLAY_OFF)]
      ensures kernel.log == old(kernel.log) + Releases(Reverse(old(held)))
      ensures client.trace.steps ==
        old(client.trace.steps) + [Bus(CommandFrame(DISPLAY_OFF))] + RegSteps(Releases(Reverse(old(held))))
      ensures held == [] && devNum == old(devNum)
    {
      var ignored := client.WriteCmd(DISPLAY_OFF);
      kernel.Unregister(DeviceNode(devNum, DEVICE_NAME));
      kernel.Unregister(DeviceClass(CLASS_NAME));
      kernel.Unregister(CharDevice(devNum));
      kernel.Unregister(ChrdevRegion(devNum));
      RemoveReversesProbe(devNum);
      RemoveSteps(devNum);
      held := [];
    }
  }

  /** The history entries of probe's four registrations. */
  lemma ProbeSteps(dev: nat)
    ensures RegSteps(Acquires(ProbeResources(dev))) ==
      [Reg(Acquire(ChrdevRegion(dev))), Reg(Acquire(CharDevice(dev))),
       Reg(Acquire(DeviceClass(CLASS_NAME))), Reg(Acquire(DeviceNode(dev, DEVICE_NAME)))]
  {
  }

  /** The history entries of remove's four releases. */
  lemma RemoveSteps(dev: nat)
    ensures RegSteps(Releases(Reverse(ProbeResources(dev)))) ==
      [Reg(Release(DeviceNode(dev, DEVICE_NAME))), Reg(Release(DeviceClass(CLASS_NAME))),
       Reg(Release(CharDevice(dev))), Reg(Release(ChrdevRegion(dev)))]
  {
    RemoveReversesProbe(dev);
  }

  /** ssd1306_probe. `allocOk` is devm_kzalloc's outcome, `regionRet` and
      `dev` what alloc_chrdev_region returns and hands out, `cdevRet` what
      cdev_add returns and `zallocOk` the outcome of init's kzalloc.
      class_create and device_create are not checked by the driver and
      always succeed here. The four registrations are all made before the
      panel is powered on. */
  method Probe(client: Client, kernel: Kernel, allocOk: bool, regionRet: int, dev: nat,
               cdevRet: int, zallocOk: bool)
    returns (ret: int, data: Ssd1306?)
    requires kernel.trace == client.trace
    modifies client, kernel, client.trace
    ensures !allocOk ==> ret == -ENOMEM
    ensures allocOk && regionRet < 0 ==> ret == regionRet
    ensures allocOk && regionRet >= 0 && cdevRet < 0 ==> ret == cdevRet
    ensures ret == 0 <==> allocOk && regionRet >= 0 && cdevRet >= 0
    ensures ret != 0 ==> data == null && client.log == old(client.log)
    ensures ret != 0 && !(allocOk && regionRet >= 0) ==>
      kernel.log == old(kernel.log) && client.trace.steps == old(client.trace.steps)
    ensures ret != 0 && allocOk && regionRet >= 0 ==>
      kernel.log == old(kernel.log) + [Acquire(ChrdevRegion(dev)), Release(ChrdevRegion(dev))]
    ensures ret != 0 && allocOk && regionRet >= 0 ==>
      client.trace.steps == old(client.trace.steps)
        + [Reg(Acquire(ChrdevRegion(dev))), Reg(Release(ChrdevRegion(dev)))]
    ensures ret == 0 ==>
      && data != null && fresh(data) && data.client == client
      && data.devNum == dev && data.held == ProbeResources(dev)
      && kernel.log == old(kernel.log) + Acquires(ProbeResources(dev))
      && client.log == old(client.log) + InitTraffic(zallocOk)
    ensures ret == 0 ==>
      client.trace.steps ==
        old(client.trace.steps) + RegSteps(Acquires(ProbeResources(dev))) + BusSteps(InitTraffic(zallocOk))
  {
    if !allocOk {
      return -ENOMEM, null;
    }
    var d := new Ssd1306(client);

    if regionRet < 0 {
      return regionRet, null;
    }
    d.devNum := dev;
    kernel.Register(ChrdevRegion(dev));
    d.held := [ChrdevRegion(dev)];

    if cdevRet < 0 {
      kernel.Unregister(ChrdevRegion(dev));
      return cdevRet, null;
    }
    kernel.Register(CharDevice(dev));
    d.held := d.held + [CharDevice(dev)];

    kernel.Register(DeviceClass(CLASS_NAME));
    d.held := d.held + [DeviceClass(CLASS_NAME)];
    kernel.Register(DeviceNode(dev, DEVICE_NAME));
    d.held := d.held + [DeviceNode(dev, DEVICE_NAME)];
    ProbeSteps(dev);

    var ignored := client.InitDisplay(zallocOk);
    return 0, d;
  }

  /** A failed probe leaves the kernel holding what it held before. */
  lemma ProbeFailureHoldsNothing(before: seq<Event>, dev: nat)
    ensures Held(before + [Acquire(ChrdevRegion(dev)), Release(ChrdevRegion(dev))]) == Held(before)
  {
    ReplayAppend(multiset{}, before, [Acquire(ChrdevRegion(dev)), Release(ChrdevRegion(dev))]);
    AcquireReleaseCancel(Held(before), ChrdevRegion(dev), []);
    assert [Acquire(ChrdevRegion(dev)), Release(ChrdevRegion(dev))] + [] ==
      [Acquire(ChrdevRegion(dev)), Release(ChrdevRegion(dev))];
  }

  /** A successful probe adds exactly its four registrations. */
  lemma ProbeHoldsFour(before: seq<Event>, dev: nat)
    ensures Held(before + Acquires(ProbeResources(dev)))
      == Held(before) + multiset(ProbeResources(dev))
  {
    ReplayAppend(multiset{}, before, Acquires(ProbeResources(dev)));
    AcquiresAdd(Held(before), ProbeResources(dev));
  }

  /** Probe followed by remove gives back every registration probe took. */
  lemma ProbeThenRemoveHoldsNothing(before: seq<Event>, dev: nat)
    ensures Held(before + Acquires(ProbeResources(dev)) + Releases(Reverse(ProbeResources(dev))))
      == Held(before)
  {
    var rs := ProbeResources(dev);
    assert before + Acquires(rs) + Releases(Reverse(rs)) == before + (Acquires(rs) + Releases(Reverse(rs)));
    ReplayAppend(multiset{}, before, Acquires(rs) + Releases(Reverse(rs)));
    AcquireThenReleaseReversed(Held(before), rs);
  }

  /** One bind and unbind of the device: probe, and remove when probe
      succeeded. Whatever the allocation outcomes, the kernel ends up holding
      what it held before; a successful pair registers, powers the panel on,
      turns it off and unregisters, in that order. */
  method BindUnbind(client: Client, kernel: Kernel, allocOk: bool, regionRet: int, dev: nat,
                    cdevRet: int, zallocOk: bool)
    returns (ret: int)
    requires kernel.trace == client.trace
    modifies client, kernel, client.trace
    ensures Held(kernel.log) == Held(old(kernel.log))
    ensures ret == 0 ==>
      client.log == old(client.log) + InitTraffic(zallocOk) + [CommandFrame(DISPLAY_OFF)]
    ensures ret == 0 ==>
      client.trace.steps == old(client.trace.steps)
        + RegSteps(Acquires(ProbeResources(dev))) + BusSteps(InitTraffic(zallocOk))
        + [Bus(CommandFrame(DISPLAY_OFF))] + RegSteps(Releases(Reverse(ProbeResources(dev))))
    ensures ret != 0 ==> client.log == old(client.log)
    ensures ret != 0 && !(allocOk && regionRet >= 0) ==> client.trace.steps == old(client.trace.steps)
    ensures ret != 0 && allocOk && regionRet >= 0 ==>
      client.trace.steps == old(client.trace.steps)
        + [Reg(Acquire(ChrdevRegion(dev))), Reg(Release(ChrdevRegion(dev)))]
  {
    ghost var before := kernel.log;
    var data;
    ret, data := Probe(client, kernel, allocOk, regionRet, dev, cdevRet, zallocOk);
    if ret == 0 {
      data.Remove(kernel);
      ProbeThenRemoveHoldsNothing(before, dev);
    } else if allocOk && regionRet >= 0 {
      ProbeFailureHoldsNothing(before, dev);
    }
  }
}
