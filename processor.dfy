/** The plugin's audio processor (`AudioPluginAudioProcessor`): the chain
    order, the table of module pointers, and the lifecycle and per-block
    entry points that the host calls. */
module Processor {
  import opened Options
  import opened Audio
  import opened Modules
  import opened Chain

  /** How one effect implementation starts life: its behaviour and the state
      its default constructor leaves it in. */
  datatype Impl<!St> = Impl(behaviour: Behaviour<St>, initial: St)

  /** The table view of one pointer: null, or the module its wrapper owns. */
  ghost function ViewOf<St(!new)>(choice: DspChoice?<St>): (s: Slot<St>)
    reads if choice == null then {} else {choice.dsp}
    ensures s.Module? <==> choice != null
  {
    if choice == null then Empty else choice.dsp.View()
  }

  /** Every non-null entry of a module table holds a well-formed module, and
      no two entries share one: each wrapper owns its own implementation. */
  ghost predicate Owned<St(!new)>(table: seq<DspChoice?<St>>)
  {
    (forall i :: 0 <= i < |table| && table[i] != null ==> table[i].dsp.Valid()) &&
    (forall i, j :: 0 <= i < j < |table| && table[i] != null && table[j] != null ==> table[i].dsp != table[j].dsp)
  }

  /** Five wrappers with five distinct implementations form an owned table. */
  lemma OwnedFive<St(!new)>(a: DspChoice<St>, b: DspChoice<St>, c: DspChoice<St>, d: DspChoice<St>, e: DspChoice<St>)
    requires a.dsp.Valid() && b.dsp.Valid() && c.dsp.Valid() && d.dsp.Valid() && e.dsp.Valid()
    requires a.dsp != b.dsp && a.dsp != c.dsp && a.dsp != d.dsp && a.dsp != e.dsp
    requires b.dsp != c.dsp && b.dsp != d.dsp && b.dsp != e.dsp
    requires c.dsp != d.dsp && c.dsp != e.dsp && d.dsp != e.dsp
    ensures Owned([a, b, c, d, e])
  {
    var s: seq<DspChoice?<St>> := [a, b, c, d, e];
    forall i, j | 0 <= i < j < 5
      ensures s[i] != null && s[j] != null && s[i].dsp != s[j].dsp
    {
    }
  }

  class PluginProcessor<St(!new)> {
    /** `dspOrder`: which kind runs at each position of the chain. */
    const dspOrder: array<DspOption>
    /** `dspInstances`: slot i points to the module of the kind with ordinal i. */
    const dspInstances: array<DspChoice?<St>>

    const phaser: DspChoice<St>
    const chorus: DspChoice<St>
    const overdrive: DspChoice<St>
    const ladderFilter: DspChoice<St>
    const generalFilter: DspChoice<St>

    /** The spec last handed to every module by `PrepareToPlay`. */
    var spec: ProcessSpec

    /** Both arrays have `ChainLength` entries; every non-null slot holds a
        well-formed module, and no two slots share a module. */
    ghost predicate Valid()
      reads this, dspInstances
    {
      dspOrder.Length == ChainLength &&
      dspInstances.Length == ChainLength &&
      Owned(dspInstances[..])
    }

    /** The module objects the table reaches. */
    ghost function Effects(): set<Effect<St>>
      reads this, dspInstances
    {
      set i | 0 <= i < dspInstances.Length && dspInstances[i] != null :: dspInstances[i].dsp
    }

    /** The value view of the module table, slot by slot. */
    ghost function Table(): (t: seq<Slot<St>>)
      reads this, dspInstances, Effects()
      ensures |t| == dspInstances.Length
      ensures forall k :: 0 <= k < |t| ==> t[k] == ViewOf(dspInstances[k])
    {
      seq(dspInstances.Length, k requires 0 <= k < dspInstances.Length reads this, dspInstances, Effects() =>
        ViewOf(dspInstances[k]))
    }

    /** The default order puts every kind at its own ordinal, and slot i
        points to the i-th of the five modules, none of them null. */
    constructor (phaserImpl: Impl<St>, chorusImpl: Impl<St>, overdriveImpl: Impl<St>,
                 ladderFilterImpl: Impl<St>, generalFilterImpl: Impl<St>)
      requires KeepsShape(phaserImpl.behaviour) && KeepsShape(chorusImpl.behaviour)
      requires KeepsShape(overdriveImpl.behaviour) && KeepsShape(ladderFilterImpl.behaviour)
      requires KeepsShape(generalFilterImpl.behaviour)
      ensures Valid()
      ensures fresh(dspOrder) && fresh(dspInstances)
      ensures fresh(phaser.dsp) && fresh(chorus.dsp) && fresh(overdrive.dsp) && fresh(ladderFilter.dsp) && fresh(generalFilter.dsp)
      ensures forall i :: 0 <= i < dspOrder.Length ==> Ordinal(dspOrder[i]) == i
      ensures dspOrder[..] == DefaultOrder()
      ensures dspInstances[..] == [phaser, chorus, overdrive, ladderFilter, generalFilter]
      ensures phaser.dsp.View() == Module(phaserImpl.behaviour, phaserImpl.initial, Counts(0, 0, 0))
      ensures chorus.dsp.View() == Module(chorusImpl.behaviour, chorusImpl.initial, Counts(0, 0, 0))
      ensures overdrive.dsp.View() == Module(overdriveImpl.behaviour, overdriveImpl.initial, Counts(0, 0, 0))
      ensures ladderFilter.dsp.View() == Module(ladderFilterImpl.behaviour, ladderFilterImpl.initial, Counts(0, 0, 0))
      ensures generalFilter.dsp.View() == Module(generalFilterImpl.behaviour, generalFilterImpl.initial, Counts(0, 0, 0))
      ensures spec == ProcessSpec(0.0, 0, 0)
    {
      var m0 := new DspChoice(phaserImpl.behaviour, phaserImpl.initial);
      var m1 := new DspChoice(chorusImpl.behaviour, chorusImpl.initial);
      var m2 := new DspChoice(overdriveImpl.behaviour, overdriveImpl.initial);
      var m3 := new DspChoice(ladderFilterImpl.behaviour, ladderFilterImpl.initial);
      var m4 := new DspChoice(generalFilterImpl.behaviour, generalFilterImpl.initial);
      phaser, chorus, overdrive, ladderFilter, generalFilter := m0, m1, m2, m3, m4;
      spec := ProcessSpec(0.0, 0, 0);
      var kinds := DefaultOrder();
      dspOrder := new DspOption[ChainLength](i requires 0 <= i < ChainLength => kinds[i]);
      var modules: seq<DspChoice?<St>> := [m0, m1, m2, m3, m4];
      dspInstances := new DspChoice?<St>[ChainLength](i requires 0 <= i < ChainLength => modules[i]);
      new;
      assert dspOrder[..] == kinds;
      assert dspInstances[..] == modules;
      OwnedFive(m0, m1, m2, m3, m4);
    }

    /** `prepareToPlay`: records the spec (block size and input channel count
        converted to `uint32`) and prepares every non-null module with it,
        once each. */
    method PrepareToPlay(sampleRate: real, samplesPerBlock: int, totalNumInputChannels: nat)
      requires Valid()
      modifies this, Effects()
      ensures Valid()
      ensures spec == ProcessSpec(sampleRate, ToUInt32(samplesPerBlock), ToUInt32(totalNumInputChannels))
      ensures Table() == PrepareAll(old(Table()), spec)
    {
      spec := ProcessSpec(sampleRate, ToUInt32(samplesPerBlock), ToUInt32(totalNumInputChannels));
      ghost var t0 := Table();
      var i := 0;
      while i < dspInstances.Length
        invariant 0 <= i <= dspInstances.Length
        invariant Valid() && spec == ProcessSpec(sampleRate, ToUInt32(samplesPerBlock), ToUInt32(totalNumInputChannels))
        invariant forall k :: 0 <= k < dspInstances.Length ==>
          ViewOf(dspInstances[k]) == if k < i then PrepareSlot(t0[k], spec) else t0[k]
      {
        var dsp := dspInstances[i];
        if dsp != null {
          dsp.Prepare(spec);
        }
        i := i + 1;
      }
    }

    /** `releaseResources`: resets every non-null module, once each, and
        touches nothing else. */
    method ReleaseResources()
      requires Valid()
      modifies Effects()
      ensures Valid()
      ensures Table() == ResetAll(old(Table()))
    {
      ghost var t0 := Table();
      var i := 0;
      while i < dspInstances.Length
        invariant 0 <= i <= dspInstances.Length
        invariant forall k :: 0 <= k < dspInstances.Length ==>
          ViewOf(dspInstances[k]) == if k < i then ResetSlot(t0[k]) else t0[k]
      {
        var dsp := dspInstances[i];
        if dsp != null {
          dsp.Reset();
        }
        i := i + 1;
      }
    }

    /** The first loop of `processBlock`: clears every output channel from
        `totalNumInputChannels` up to `totalNumOutputChannels`, over the whole
        block length, and nothing else. */
    method ClearOutputsWithoutInput(buffer: AudioBuffer, totalNumInputChannels: nat, totalNumOutputChannels: nat)
      requires buffer.Valid()
      requires totalNumOutputChannels <= buffer.NumChannels()
      modifies buffer
      ensures buffer.Valid() && buffer.size == old(buffer.size)
      ensures buffer.channels == ClearChannels(old(buffer.channels), totalNumInputChannels, totalNumOutputChannels)
    {
      ghost var b0 := buffer.channels;
      var i := totalNumInputChannels;
      while i < totalNumOutputChannels
        invariant totalNumInputChannels <= i
        invariant i <= totalNumOutputChannels || i == totalNumInputChannels
        invariant buffer.Valid() && buffer.size == old(buffer.size)
        invariant buffer.channels == ClearChannels(b0, totalNumInputChannels, i)
      {
        ghost var before := buffer.channels;
        buffer.Clear(i, 0, buffer.NumSamples());
        assert buffer.channels[i] == Zeros(buffer.size);
        assert buffer.channels == before[i := Zeros(buffer.size)];
        i := i + 1;
      }
      assert buffer.channels == ClearChannels(b0, totalNumInputChannels, totalNumOutputChannels);
    }

    /** One iteration of the dispatch loop of `processBlock`: the kind is
        converted to an index; if the index is in range and its slot is not
        null, that module processes the buffer, otherwise nothing happens. */
    method Dispatch(effectType: DspOption, buffer: AudioBuffer)
      requires Valid() && buffer.Valid()
      modifies buffer, Effects()
      ensures buffer.Valid() && buffer.size == old(buffer.size)
      ensures (Table(), buffer.channels) == Step(old(Table()), effectType, old(buffer.channels))
    {
      ghost var before, input := Table(), buffer.channels;
      var effectIndex := Ordinal(effectType);
      if effectIndex < dspInstances.Length && dspInstances[effectIndex] != null {
        dspInstances[effectIndex].Process(buffer);
        forall k | 0 <= k < dspInstances.Length && k != effectIndex
          ensures Table()[k] == before[k]
        {
          assert dspInstances[..][k] == dspInstances[k];
        }
        assert Table() == before[effectIndex := ProcessSlot(before[effectIndex], input).0];
      }
    }

    /** `processBlock`: silences the output channels that have no input
        channel, then runs the chain over the buffer in place, position by
        position. The buffer and the modules end up as `RunChain` says; the
        order and the table of pointers are not touched. */
    method ProcessBlock(buffer: AudioBuffer, totalNumInputChannels: nat, totalNumOutputChannels: nat)
      requires Valid() && buffer.Valid()
      requires totalNumOutputChannels <= buffer.NumChannels()
      modifies buffer, Effects()
      ensures Valid() && buffer.Valid() && buffer.size == old(buffer.size)
      ensures unchanged(this, dspOrder, dspInstances)
      ensures (Table(), buffer.channels) ==
        RunChain(dspOrder[..], old(Table()), ClearChannels(old(buffer.channels), totalNumInputChannels, totalNumOutputChannels))
    {
      ghost var t0 := Table();
      ClearOutputsWithoutInput(buffer, totalNumInputChannels, totalNumOutputChannels);
      ghost var cleared := buffer.channels;

      var i := 0;
      while i < dspOrder.Length
        invariant 0 <= i <= dspOrder.Length
        invariant buffer.Valid() && buffer.size == old(buffer.size)
        invariant (Table(), buffer.channels) == RunChain(dspOrder[..i], t0, cleared)
      {
        Dispatch(dspOrder[i], buffer);
        assert dspOrder[..i + 1][..i] == dspOrder[..i];
        i := i + 1;
      }
      assert dspOrder[..i] == dspOrder[..];
    }
  }
}
