/** The observable history of a driver: bus transactions and kernel
    registrations in the one order in which they happen. The I2C client and
    the kernel each keep their own log as well; the shared trace is what
    orders a bus frame against a registration. */
module SystemTrace {
  import opened Ssd1306Protocol
  import opened KernelRegistry

  datatype Step = Bus(frame: Frame) | Reg(e: Event)

  /** The history every device of one system appends to. */
  class Trace {
    var steps: seq<Step>

    constructor ()
      ensures steps == []
    {
      steps := [];
    }
  }

  /** The history entries of a series of bus transactions. */
  function BusSteps(fs: seq<Frame>): (ss: seq<Step>)
  {
    if fs == [] then [] else BusSteps(fs[..|fs| - 1]) + [Bus(fs[|fs| - 1])]
  }

  /** The history entries of a series of registration events. */
  function RegSteps(es: seq<Event>): (ss: seq<Step>)
    ensures |ss| == |es|
    ensures forall i :: 0 <= i < |es| ==> ss[i] == Reg(es[i])
  {
    seq(|es|, i requires 0 <= i < |es| => Reg(es[i]))
  }

  lemma BusStepsSingle(f: Frame)
    ensures BusSteps([f]) == [Bus(f)]
  {
    assert [f][..0] == [];
  }

  /** The n-th history entry of a series is its n-th transaction. */
  lemma {:induction false} BusStepsIndex(fs: seq<Frame>)
    ensures |BusSteps(fs)| == |fs|
    ensures forall i :: 0 <= i < |fs| ==> BusSteps(fs)[i] == Bus(fs[i])
    decreases |fs|
  {
    if fs != [] {
      BusStepsIndex(fs[..|fs| - 1]);
    }
  }

  /** Recording two series of transactions in a row records their
      concatenation. */
  lemma {:induction false} BusStepsAppend(a: seq<Frame>, b: seq<Frame>)
    ensures BusSteps(a + b) == BusSteps(a) + BusSteps(b)
    decreases |b|
  {
    if b == [] {
      assert a + b == a;
    } else {
      var n := |b| - 1;
      assert (a + b)[..|a + b| - 1] == a + b[..n];
      BusStepsAppend(a, b[..n]);
    }
  }

  /** The kernel's registration state, as seen by one driver: its own event
      log, and the shared history it also records into. */
  class Kernel {
    var log: seq<Event>
    const trace: Trace

    constructor (trace: Trace)
      ensures log == [] && this.trace == trace
    {
      log := [];
      this.trace := trace;
    }

    method Register(r: Resource)
      modifies this, trace
      ensures log == old(log) + [Acquire(r)]
      ensures trace.steps == old(trace.steps) + [Reg(Acquire(r))]
    {
      log := log + [Acquire(r)];
      trace.steps := trace.steps + [Reg(Acquire(r))];
    }

    method Unregister(r: Resource)
      modifies this, trace
      ensures log == old(log) + [Release(r)]
      ensures trace.steps == old(trace.steps) + [Reg(Release(r))]
    {
      log := log + [Release(r)];
      trace.steps := trace.steps + [Reg(Release(r))];
    }
  }
}
