/** Effect modules: the opaque DSP objects of the library and the
    `DSP_CHOICE<T>` wrapper that the processor's table points to. */
module Modules {
  import opened Audio

  /** `juce::uint32` conversion of an `int`: the value modulo 2^32. */
  function ToUInt32(x: int): (r: nat)
    ensures r < 0x1_0000_0000
    ensures 0 <= x < 0x1_0000_0000 ==> r == x
    ensures -0x8000_0000 <= x < 0 ==> r == x + 0x1_0000_0000
  {
    x % 0x1_0000_0000
  }

  /** What `prepare` is told: sample rate, largest block, channel count. */
  datatype ProcessSpec = ProcessSpec(sampleRate: real, maximumBlockSize: nat, numChannels: nat)

  /** The uninterpreted behaviour of one effect implementation: how each of its
      three operations changes its own state and, for `process`, the block. */
  datatype Behaviour<!St> = Behaviour(
    prepare: (St, ProcessSpec) -> St,
    process: (St, Block) -> (St, Block),
    reset: St -> St)

  /** `process` writes into the block it is given and cannot resize it. */
  ghost predicate KeepsShape<St(!new)>(b: Behaviour<St>)
  {
    forall st: St, block: Block :: SameShape(b.process(st, block).1, block)
  }

  /** How often each operation of a module has been invoked (bookkeeping of
      the model; the source keeps no such counters). */
  datatype Counts = Counts(prepares: nat, processes: nat, resets: nat)

  /** The value view of one entry of the module table: a null pointer, or a
      module with its behaviour, current state and invocation counts. */
  datatype Slot<!St> = Empty | Module(behaviour: Behaviour<St>, state: St, counts: Counts)

  function PrepareSlot<St>(s: Slot<St>, spec: ProcessSpec): Slot<St>
  {
    match s
    case Empty => Empty
    case Module(b, st, c) => Module(b, b.prepare(st, spec), c.(prepares := c.prepares + 1))
  }

  function ProcessSlot<St>(s: Slot<St>, block: Block): (Slot<St>, Block)
    requires s.Module?
  {
    var (st, out) := s.behaviour.process(s.state, block);
    (s.(state := st, counts := s.counts.(processes := s.counts.processes + 1)), out)
  }

  function ResetSlot<St>(s: Slot<St>): Slot<St>
  {
    match s
    case Empty => Empty
    case Module(b, st, c) => Module(b, b.reset(st), c.(resets := c.resets + 1))
  }

  /** One effect implementation (a `juce::dsp::Phaser`, `Chorus`,
      `LadderFilter` or `IIR::Filter`), seen only through its behaviour. */
  class Effect<St(!new)> {
    const behaviour: Behaviour<St>
    var state: St
    ghost var counts: Counts

    ghost predicate Valid()
    {
      KeepsShape(behaviour)
    }

    ghost function View(): Slot<St>
      reads this
    {
      Module(behaviour, state, counts)
    }

    constructor (behaviour: Behaviour<St>, initial: St)
      requires KeepsShape(behaviour)
      ensures Valid() && View() == Module(behaviour, initial, Counts(0, 0, 0))
    {
      this.behaviour := behaviour;
      state := initial;
      counts := Counts(0, 0, 0);
    }

    method Prepare(spec: ProcessSpec)
      modifies this
      ensures View() == PrepareSlot(old(View()), spec)
    {
      state := behaviour.prepare(state, spec);
      counts := counts.(prepares := counts.prepares + 1);
    }

    method Process(context: AudioBuffer)
      requires Valid() && context.Valid()
      modifies this, context
      ensures context.Valid() && context.size == old(context.size)
      ensures (View(), context.channels) == ProcessSlot(old(View()), old(context.channels))
    {
      var (st, out) := behaviour.process(state, context.channels);
      state := st;
      context.channels := out;
      counts := counts.(processes := counts.processes + 1);
    }

    method Reset()
      modifies this
      ensures View() == ResetSlot(old(View()))
    {
      state := behaviour.reset(state);
      counts := counts.(resets := counts.resets + 1);
    }
  }

  /** `DSP_CHOICE<T>`: owns one effect implementation `dsp` and forwards each
      of `prepare`, `process` and `reset` to it, once, with the same
      argument. */
  class DspChoice<St(!new)> {
    const dsp: Effect<St>

    constructor (behaviour: Behaviour<St>, initial: St)
      requires KeepsShape(behaviour)
      ensures fresh(dsp) && dsp.Valid()
      ensures dsp.View() == Module(behaviour, initial, Counts(0, 0, 0))
    {
      dsp := new Effect(behaviour, initial);
    }

    method Prepare(spec: ProcessSpec)
      modifies dsp
      ensures dsp.View() == PrepareSlot(old(dsp.View()), spec)
    {
      dsp.Prepare(spec);
    }

    method Process(context: AudioBuffer)
      requires dsp.Valid() && context.Valid()
      modifies dsp, context
      ensures context.Valid() && context.size == old(context.size)
      ensures (dsp.View(), context.channels) == ProcessSlot(old(dsp.View()), old(context.channels))
    {
      dsp.Process(context);
    }

    method Reset()
      modifies dsp
      ensures dsp.View() == ResetSlot(old(dsp.View()))
    {
      dsp.Reset();
    }
  }
}
