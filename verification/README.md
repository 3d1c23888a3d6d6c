# SSD1306 OLED and GPIO LED drivers, modelled in Dafny

This project models two small Linux kernel drivers.

- The SSD1306 I2C OLED driver speaks a control-byte protocol. Each I2C transaction starts with `0x00` (register commands follow) or `0x40` (display data follows).
  - Power-on sends a fixed 20-command register program, resets the addressing window to the whole 128 x 64 panel, clears display RAM with one 1025-byte burst and switches the display on.
  - A `write()` on `/dev/ssd1306` resets the window and sends the caller's bytes as one data burst.
  - Probe takes four kernel registrations in order: chrdev region, cdev, class and device node. Remove sends display-off and gives them back in reverse order.
- The GPIO LED platform driver drives one output line. A `write()` on `/dev/my_led` whose first byte is `'1'` or `'0'` sets the line high or low. Probe requests the line, initially low, and registers the misc device. Remove deregisters it.

Files:

- `common.dfy` (`KernelCommon`) holds the option type and the error numbers both drivers return.
- `protocol.dfy` (`Ssd1306Protocol`) is pure.
  - It defines the frames the driver builds and the exact traffic of power-on and of a write.
  - It also models the controller's reading of a frame log, as a command stream and a data stream.
- `registry.dfy` (`KernelRegistry`) records kernel registrations as an ordered log of acquire and release events.
  - What is held is the multiset obtained by replaying the log.
- `effects.dfy` (`SystemTrace`) holds the shared history of one system, a `Trace` object.
  - It records bus frames and kernel registration events in the one order in which they happen.
  - `Kernel` is the object the driver registers with. It keeps its own event log and also records each event in the trace.
- `ssd1306.dfy` (`Ssd1306Driver`) holds the imperative driver.
  - `Client` is the I2C client. Its `log` holds every frame handed to `i2c_master_send`, in order, and each frame is also recorded in the shared trace.
  - The trace is what orders bus traffic against registrations: probe registers before powering the panel on, and remove sends display-off before releasing anything.
  - `Ssd1306` is `struct ssd1306_data`. The write path fills a heap `array` in place.
  - `Probe` is a method.
- `led.dfy` (`GpioLed`) holds `LedDriver`, whose fields are the driver's two globals: the GPIO descriptor and the misc registration.

Environment outcomes are parameters:

- `i2c_master_send` results come from a map, the client's `outcomes`, indexed by the transaction's position in the log. A position not in the map sends all bytes.
- `kmalloc`, `kzalloc` and `devm_kzalloc` outcomes are booleans.
- `alloc_chrdev_region`, `cdev_add`, `devm_gpiod_get` and `misc_register` results are integers.
- User memory is the sequence of bytes readable at the user pointer. `copy_from_user` of `n` bytes faults exactly when fewer than `n` are readable.

## Model

| member | source | states |
|---|---|---|
| Ssd1306Protocol.CommandFrame | i2c_ssd1306_driver/ssd1306.c:23-26 | a command transaction is two bytes and the controller reads it as exactly that one command |
| Ssd1306Protocol.DataByteFrame | i2c_ssd1306_driver/ssd1306.c:29-32 | a single data byte goes out as the data burst of that one byte and is read as that byte of display data |
| Ssd1306Protocol.DataFrame | i2c_ssd1306_driver/ssd1306.c:109 | a burst is one byte longer than its payload and is read as exactly that payload of display data |
| Ssd1306Protocol.MarkersDistinct | i2c_ssd1306_driver/ssd1306.c:23-32 | the two control bytes differ, so no command frame equals a data frame |
| Ssd1306Protocol.CommandFrames | i2c_ssd1306_driver/ssd1306.c:38-57 | a command list goes out as one `[0x00, cmd]` frame per command, in order |
| Ssd1306Protocol.CommandFramesStream | i2c_ssd1306_driver/ssd1306.c:38-62 | frame-per-command sending issues, for the controller to read, the command list unchanged and no display data |
| Ssd1306Protocol.CommandFramesWellFormed | i2c_ssd1306_driver/ssd1306.c:23-26 | every command frame carries a control byte the controller understands |
| Ssd1306Protocol.GatherAppend | i2c_ssd1306_driver/ssd1306.c:25 | collecting one part of every frame over two logs in a row gives the concatenation of the two collections, for every way of taking the part |
| Ssd1306Protocol.StreamsAppend | i2c_ssd1306_driver/ssd1306.c:25 | the controller's command and data streams of consecutive transactions are the concatenated streams |
| Ssd1306Protocol.BlankFrame | i2c_ssd1306_driver/ssd1306.c:64-69 | the clearing burst is 1025 bytes: the data marker, then 1024 zeros |
| Ssd1306Protocol.BlankFrameContents | i2c_ssd1306_driver/ssd1306.c:65-67 | a zeroed 1025-byte buffer with `0x40` written at index 0 is exactly the clearing burst |
| Ssd1306Protocol.WriteTrafficMeaning | i2c_ssd1306_driver/ssd1306.c:98-109 | a write issues, for the controller to read as commands, the full-panel window program, and, as display data, the caller's bytes unchanged and in order; every frame is readable |
| Ssd1306Protocol.WriteTrafficFrames | i2c_ssd1306_driver/ssd1306.c:99-109 | a write's traffic is seven frames: `[0x00,0x21] [0x00,0x00] [0x00,127] [0x00,0x22] [0x00,0x00] [0x00,7]`, then a `count+1`-byte frame that is `0x40` followed by the caller's bytes |
| Ssd1306Protocol.EmptyWriteTraffic | i2c_ssd1306_driver/ssd1306.c:86-109 | a zero-length write is not rejected: it sends the window commands and then the lone byte `0x40`, carrying no display data |
| Ssd1306Protocol.InitTrafficMeaning | i2c_ssd1306_driver/ssd1306.c:38-74 | power-on issues, for the controller to read as commands, the 20-command program, the window program and `0xAF`, in that order, and, as display data, 1024 zero bytes exactly when the clear buffer was allocated |
| Ssd1306Protocol.InitTrafficWellFormed | i2c_ssd1306_driver/ssd1306.c:34-77 | every power-on frame carries a known control byte |
| Ssd1306Protocol.InitTrafficLength | i2c_ssd1306_driver/ssd1306.c:38-74 | power-on sends 28 transactions, or 27 when the clear buffer cannot be allocated |
| KernelRegistry.ReplayAppend | i2c_ssd1306_driver/ssd1306.c:146-178 | replaying two registration logs in a row equals replaying their concatenation |
| KernelRegistry.AcquireReleaseCancel | i2c_ssd1306_driver/ssd1306.c:146-166 | registering and at once unregistering a resource leaves the held registrations unchanged |
| KernelRegistry.AcquiresAdd | i2c_ssd1306_driver/ssd1306.c:146-156 | registering a list of resources adds exactly that multiset to what is held |
| KernelRegistry.AcquireThenReleaseReversed | i2c_ssd1306_driver/ssd1306.c:170-178 | registering a list and unregistering it in reverse order gives back exactly what was held before |
| SystemTrace.Kernel.Register | i2c_ssd1306_driver/ssd1306.c:146-156 | a registration appends one acquire event to the kernel log and to the shared trace |
| SystemTrace.Kernel.Unregister | i2c_ssd1306_driver/ssd1306.c:174-177 | an unregistration appends one release event to the kernel log and to the shared trace |
| SystemTrace.BusStepsAppend | i2c_ssd1306_driver/ssd1306.c:25 | recording two series of bus transactions in a row records their concatenation |
| Ssd1306Driver.ProbeSteps | i2c_ssd1306_driver/ssd1306.c:146-156 | probe's four registrations appear in the trace as acquires of region, cdev, class and device, in that order |
| Ssd1306Driver.RemoveSteps | i2c_ssd1306_driver/ssd1306.c:174-177 | remove's releases appear in the trace as device, class, cdev and region, in that order |
| Ssd1306Driver.RemoveReversesProbe | i2c_ssd1306_driver/ssd1306.c:170-178 | remove's order (device, class, cdev, region) is exactly probe's order (region, cdev, class, device) reversed |
| Ssd1306Driver.Client.Send | i2c_ssd1306_driver/ssd1306.c:25 | one transport send appends exactly the given frame to the bus log and to the shared trace, and returns the transport's answer for that transaction |
| Ssd1306Driver.Client.WriteCmd | i2c_ssd1306_driver/ssd1306.c:23-26 | sending a command appends exactly `[0x00, cmd]` to the bus log and the trace and returns the send's result |
| Ssd1306Driver.Client.WriteData | i2c_ssd1306_driver/ssd1306.c:29-32 | sending a data byte appends exactly `[0x40, d]` to the bus log and the trace and returns the send's result |
| Ssd1306Driver.Client.ResetWindow | i2c_ssd1306_driver/ssd1306.c:99-104 | the window reset appends, to the bus log and the trace alike, the six frames of `21 00 7F 22 00 07`, in order, whatever the sends return |
| Ssd1306Driver.Client.BlankBurst | i2c_ssd1306_driver/ssd1306.c:64-71 | the clearing burst is sent once, as the 1025-byte blank frame, when kzalloc succeeds, and not at all when it fails; the trace records the same |
| Ssd1306Driver.Client.SendInitProgram | i2c_ssd1306_driver/ssd1306.c:38-57 | the wake-up program appends its 20 command frames in source order, to the bus log and the trace alike |
| Ssd1306Driver.InitProgramFramesAgree | i2c_ssd1306_driver/ssd1306.c:38-57 | the 20 frames sent are the frames of the register program `AE D5 80 A8 3F D3 00 40 8D 14 20 00 A1 C8 DA 12 81 CF A4 A6` |
| Ssd1306Driver.Client.InitDisplay | i2c_ssd1306_driver/ssd1306.c:34-77 | power-on appends exactly the power-on traffic (program, window, optional blank burst, display-on) to the bus log, and the same frames and nothing else to the trace, and returns 0 whatever the transport answers |
| Ssd1306Driver.CopyFromUser | i2c_ssd1306_driver/ssd1306.c:93-96 | the copy fails exactly when fewer than `count` user bytes are readable; on success the destination holds the user bytes at the offset and is unchanged elsewhere |
| Ssd1306Driver.Ssd1306.Write | i2c_ssd1306_driver/ssd1306.c:80-119 | allocation failure gives `-ENOMEM` and a fault gives `-EFAULT`, both with no bus traffic; otherwise the write appends exactly the write traffic of the caller's `count` bytes and returns the burst's negative error, or else `count`; window results are ignored; the shared trace gets the same frames and nothing else |
| Ssd1306Driver.Ssd1306.Remove | i2c_ssd1306_driver/ssd1306.c:170-178 | in the shared trace, remove's display-off frame comes first and is followed by the release of exactly the held registrations in reverse order; nothing is held afterwards |
| Ssd1306Driver.Probe | i2c_ssd1306_driver/ssd1306.c:135-167 | each failure returns its own error code with no bus traffic and no driver data: `-ENOMEM` and a region failure register nothing, and a cdev failure gives the region back; success takes the four registrations in order and only then sends the power-on traffic, which the shared trace records in that order; the cdev failure records the region's acquire and release and no bus frame |
| Ssd1306Driver.ProbeFailureHoldsNothing | i2c_ssd1306_driver/ssd1306.c:151-166 | the cdev-failure unwind leaves the kernel holding what it held before probe |
| Ssd1306Driver.ProbeHoldsFour | i2c_ssd1306_driver/ssd1306.c:146-156 | a successful probe adds exactly its four registrations to what is held |
| Ssd1306Driver.ProbeThenRemoveHoldsNothing | i2c_ssd1306_driver/ssd1306.c:170-178 | probe followed by remove leaves nothing behind |
| Ssd1306Driver.BindUnbind | i2c_ssd1306_driver/ssd1306.c:135-178 | one bind, plus unbind when probe succeeds, leaks no registration under any outcome; the shared trace of a successful pair is: the four registrations, power-on, display-off, then the four releases in reverse; a failed probe sends nothing on the bus |
| GpioLed.Command | gpio_led_driver/led_driver.c:24-30 | exactly the bytes `'0'` and `'1'` are commands, and `'1'` is the only one that asks for level 1 |
| GpioLed.LedDriver.constructor | gpio_led_driver/led_driver.c:16 | before probe no line is held and no device is registered |
| GpioLed.LedDriver.SetValue | gpio_led_driver/led_driver.c:25 | setting the value drives a held line to that level and leaves a missing descriptor alone |
| GpioLed.LedDriver.Write | gpio_led_driver/led_driver.c:19-32 | an unreadable first byte gives `-EFAULT` with the level unchanged; otherwise `'1'` sets level 1, `'0'` sets level 0, any other byte changes nothing, only the first byte is read, and the result is `count` |
| GpioLed.LedDriver.Probe | gpio_led_driver/led_driver.c:48-65 | a failed GPIO request returns its error with nothing registered; otherwise the line is held low, and the misc device is registered exactly when `misc_register` returns 0, whose result probe returns |
| GpioLed.LedDriver.Remove | gpio_led_driver/led_driver.c:67-70 | remove deregisters the misc device and leaves the line as it was |

## Left out

- Logging (`dev_info`, `dev_err`, `printk`) has no effect on the model.
- `ssd1306_open` is not modelled. It only stores the driver data in the file, so `Ssd1306.Write` is a method of that data.
- Also not modelled: the `of_device_id` tables, the `module_*_driver` registration and the `MODULE_*` macros. They are declarations, not behaviour.
- Memory release is not modelled: `kfree`, and the devm release of `struct ssd1306_data` and of the GPIO descriptor when the device is unbound or probe fails. A dangling `led_gpio` after remove is therefore not represented.
- `Ssd1306Driver.Ssd1306.Write`: `count` is an unbounded `nat`. The `count + 1` overflow of `size_t` and the `ssize_t` range of the result are not modelled.
- `Ssd1306Driver.Client.Send`: the transport answer depends only on the transaction's position in the log. A real bus may also depend on timing and on the device.
- `Ssd1306Driver.Probe`: `class_create` and `device_create` always succeed, because the driver never checks their results.
- The controller's internal state (write cursor, wrap-around, display RAM) is not modelled. The model stops at the command and data streams the issued frames present to the controller.
- `Ssd1306Protocol.WriteTrafficMeaning` and `Ssd1306Protocol.InitTrafficMeaning` read the streams off every frame handed to `i2c_master_send`, whether or not that send succeeded. What a failed or partial transfer leaves in the controller is not modelled. Power-on ignores every send result, and a write ignores the six window results.
- Concurrency is not modelled: simultaneous writes, or a write racing with remove. The drivers take no locks.
- The drivers do not reject a write after remove or a repeated probe, and the model adds no such rejection. `Ssd1306Driver.Ssd1306.Remove` requires the state the kernel guarantees when it calls it: the device bound by a successful probe.
- `GpioLed.LedDriver.Probe` and `GpioLed.LedDriver.Remove` assume a single matching device. `led_gpio` and `led_miscdevice` are globals, so a second matching device tree node would reach `led_probe` with `/dev/my_led` already registered and overwrite `led_gpio`, possibly with an error pointer. The model excludes that: probe requires nothing registered and remove requires the registration probe made.
- `GpioLed.LedDriver.Write` copies one byte even when `count` is 0, exactly as the source does. Such a write returns 0 after possibly changing the level.
