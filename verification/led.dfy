/** The GPIO LED platform driver: a character written to /dev/my_led drives
    one output line. The driver's two globals, the GPIO descriptor and the
    misc device registration, are the fields of one object. */
module GpioLed {
  import opened KernelCommon

  /** ASCII '0' and '1', the only two commands the driver acts on. */
  const ASCII_ZERO: bv8 := 0x30
  const ASCII_ONE: bv8 := 0x31

  /** The global led_gpio: never requested, an error pointer left by a
      failed request, or an output line driven at some level. */
  datatype Gpio = Unrequested | Failed(err: int) | Line(level: bv1)

  /** The level a command byte asks for, if it is a command at all. */
  function Command(b: bv8): (level: Option<bv1>)
    ensures level.Some? <==> b == ASCII_ZERO || b == ASCII_ONE
    ensures level == Some(1) <==> b == ASCII_ONE
  {
    if b == ASCII_ONE then Some(1) else if b == ASCII_ZERO then Some(0) else None
  }

  class LedDriver {
    var gpio: Gpio
    /** led_miscdevice is registered, so /dev/my_led exists. */
    var registered: bool

    /** The device node only exists while the line is held. */
    ghost predicate Valid()
      reads this
    {
      registered ==> gpio.Line?
    }

    constructor ()
      ensures Valid() && gpio == Unrequested && !registered
    {
      gpio := Unrequested;
      registered := false;
    }

    /** gpiod_set_value: drives a held line; a descriptor that is missing or
        an error pointer is ignored. */
    method SetValue(v: bv1)
      modifies this
      ensures gpio == if old(gpio).Line? then Line(v) else old(gpio)
      ensures registered == old(registered)
    {
      if gpio.Line? {
        gpio := Line(v);
      }
    }

    /** led_write: copies exactly one byte from `user` (the user memory
        readable at the buffer address) whatever `count` is, acts on '1' and
        '0', ignores every other byte and reports all `count` bytes taken. */
    method Write(user: seq<bv8>, count: nat) returns (r: int)
      modifies this
      ensures registered == old(registered) && gpio.Line? == old(gpio).Line?
      ensures old(Valid()) ==> Valid()
      ensures |user| == 0 ==> r == -EFAULT && gpio == old(gpio)
      ensures |user| > 0 ==> r == count
      ensures |user| > 0 && user[0] == ASCII_ONE && old(gpio).Line? ==> gpio == Line(1)
      ensures |user| > 0 && user[0] == ASCII_ZERO && old(gpio).Line? ==> gpio == Line(0)
      ensures |user| > 0 && Command(user[0]).None? ==> gpio == old(gpio)
      ensures !old(gpio).Line? ==> gpio == old(gpio)
    {
      if |user| < 1 {
        return -EFAULT;
      }
      var kbuf := user[0];
      if kbuf == ASCII_ONE {
        SetValue(1);
      } else if kbuf == ASCII_ZERO {
        SetValue(0);
      }
      return count;
    }

    /** led_probe: request the line as an output driven low, then register
        the misc device. `gpioErr` is negative when devm_gpiod_get returns an
        error pointer (and is that error), `miscRet` is what misc_register
        returns. */
    method Probe(gpioErr: int, miscRet: int) returns (ret: int)
      requires Valid() && !registered
      modifies this
      ensures Valid()
      ensures gpioErr < 0 ==> ret == gpioErr && gpio == Failed(gpioErr) && !registered
      ensures gpioErr >= 0 ==> gpio == Line(0)
      ensures gpioErr >= 0 && miscRet != 0 ==> ret == miscRet && !registered
      ensures gpioErr >= 0 && miscRet == 0 ==> ret == 0 && registered
    {
      if gpioErr < 0 {
        gpio := Failed(gpioErr);
        return gpioErr;
      }
      gpio := Line(0);
      if miscRet != 0 {
        return miscRet;
      }
      registered := true;
      return 0;
    }

    /** led_remove: deregister the misc device probe registered. */
    method Remove()
      requires Valid() && registered
      modifies this
      ensures Valid() && !registered && gpio == old(gpio)
    {
      registered := false;
    }
  }
}
