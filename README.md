# Effect-chain audio processor, modelled in Dafny

This project models the core of a JUCE audio plugin, `AudioPluginAudioProcessor`.
The processor owns five effect modules: a phaser, a chorus, an overdrive, a
ladder filter and a general IIR filter. Each sits inside a `DSP_CHOICE<T>`
wrapper, and each block of audio goes through the modules in a configurable
order.

The processor keeps two fixed-size arrays of length `END_OF_LIST` (5):

- `dspOrder` says which effect kind runs at each position;
- `dspInstances` maps each kind's ordinal to a module pointer.

`processBlock` first silences every output channel that has no input channel.
It then walks the order and hands the shared buffer to the module each entry
reaches. An entry whose index is out of range, or whose slot is null, is
skipped.

Modules:

- `Options` (options.dfy): the `DSP_OPTION` enumeration.
  - Its ordinals and the default order.
  - How often an order names a slot, and what it means for an order to be a
    permutation of the five kinds.
- `Audio` (audio.dfy): blocks of samples and the host's `AudioBuffer`.
  - The buffer is a class whose `Clear` updates one channel in place.
  - `ClearChannels` is the value-level meaning of the clearing loop.
- `Modules` (modules.dfy): the effect modules and the `DSP_CHOICE<T>` wrapper.
  - An `Effect` is one library DSP object. It is seen only through an
    uninterpreted `Behaviour`: how `prepare`, `process` and `reset` change its
    own state and, for `process`, the block.
  - Ghost counters record how often each operation was invoked.
  - `DspChoice` owns one `Effect` and forwards every call to it.
  - `ToUInt32` is the `static_cast<juce::uint32>` of `prepareToPlay`.
- `Chain` (chain.dfy): the scheduling rule, on values.
  - `Step` is one position of the chain.
  - `RunChain` is the left fold of `Step` over an order.
  - `PrepareAll` and `ResetAll` are the lifecycle passes.
  - Lemmas cover composition, call counts, skipping and the locality of each
    module's state.
- `Layout` (layout.dfy): `isBusesLayoutSupported`, with the
  `JucePlugin_IsMidiEffect` and `JucePlugin_IsSynth` build switches as a
  parameter.
- `Processor` (processor.dfy): the `PluginProcessor` class.
  - It holds the two arrays, the five wrappers and the `ProcessSpec`.
  - Its constructor, `PrepareToPlay`, `ReleaseResources` and `ProcessBlock` are
    imperative methods over the arrays and the buffer.
  - Each is proved against the `Chain` functions through the ghost view
    `Table()` of the module table.

The source is inconsistent in two places:

- `Source/PluginProcessor.cpp` (lines 27-28 and 157-159) names an enumerator
  `DSP_OPTION::Delay` and a member `delay`. `Source/PluginProcessor.h` declares
  neither: its fifth kind is `GeneralFilter` (line 64) and its fifth module is
  `generalFilter` (line 155). The model follows the header. The default order
  ends with `GeneralFilter`, and slot 4 points to the general filter.
- `Source/PluginEditor.cpp` calls a `getDSPOrder()` that the processor does not
  declare. The editor is not part of this model.

## Model

| member | source | states |
|---|---|---|
| Options.Ordinal | Source/PluginProcessor.h:58-66 | The enumerators convert to ordinals at most 5, and the ordinal is 5 exactly for the `END_OF_LIST` sentinel. |
| Options.KindOf | Source/PluginProcessor.h:58-66 | Every ordinal 0..5 belongs to an enumerator, so the conversion is onto 0..5. |
| Options.OrdinalsIndexTable | Source/PluginProcessor.h:71-72 | Both arrays have length `END_OF_LIST`. Ordinals are injective. `KindOf` inverts `Ordinal`. A kind indexes a slot iff it is not the sentinel. |
| Options.DefaultOrder | Source/PluginProcessor.cpp:27 | The initial order has one entry per slot, and position i holds the kind whose ordinal is i. |
| Options.OccurrencesCountsKind | Source/PluginProcessor.cpp:204-209 | The number of positions that dispatch to slot `Ordinal(k)` equals the multiplicity of `k` in the order. |
| Options.PermutationOccurrences | Source/PluginProcessor.cpp:204-209 | In an order that holds each real kind once, every slot below 5 is named exactly once and no other index is named. |
| Options.NoOccurrencesPastSentinel | Source/PluginProcessor.cpp:207-209 | No entry of any order converts to an index beyond the sentinel's ordinal. |
| Options.DefaultOrderIsPermutation | Source/PluginProcessor.cpp:27 | The constructor's order holds each of the five kinds exactly once. |
| Audio.ClearChannels | Source/PluginProcessor.cpp:195-197 | Channels in [from, to) become silence over their whole length. Other channels are untouched. The shape is kept. An empty range changes nothing. |
| Audio.AudioBuffer.Clear | Source/PluginProcessor.cpp:197 | `clear(channel, 0, n)` silences exactly the given run of one channel. Every other sample and the buffer's shape stay the same. |
| Modules.ToUInt32 | Source/PluginProcessor.cpp:105-106 | The `uint32` cast yields a value below 2^32. It is the identity on [0, 2^32) and adds 2^32 to a negative 32-bit `int`. |
| Modules.DspChoice.constructor | Source/PluginProcessor.h:147-155 | Each wrapper owns a fresh module of its own, in its initial state, with nothing invoked yet. |
| Modules.DspChoice.Prepare | Source/PluginProcessor.h:132-135 | Forwards `prepare(spec)` to its own module once: that module's state advances by its `prepare` and its prepare count rises by one. |
| Modules.DspChoice.Process | Source/PluginProcessor.h:137-140 | Forwards `process(context)` to its own module once: the buffer and the module's state become what its `process` yields, and the buffer keeps its shape. |
| Modules.DspChoice.Reset | Source/PluginProcessor.h:142-145 | Forwards `reset()` to its own module once, and nothing else changes. |
| Chain.Step | Source/PluginProcessor.cpp:206-212 | An entry that reaches a module replaces the block by that module's output. That module's slot advances by one `process` call, and no other slot changes. An out-of-range or null entry leaves block and table unchanged. |
| Chain.RunChain | Source/PluginProcessor.cpp:204-213 | The chain is the left fold of `Step` over the order. It keeps the table's length and which slots are null. |
| Chain.RunChainAppend | Source/PluginProcessor.cpp:204-213 | Running order `a` and then order `b` on its result equals running `a + b`: each stage gets the previous stage's output. |
| Chain.RunChainKeepsTable | Source/PluginProcessor.cpp:204-213 | Processing a block never changes a module's behaviour, prepare count or reset count. |
| Chain.RunChainCountsProcesses | Source/PluginProcessor.cpp:204-213 | A module's process count rises by exactly the number of order positions that dispatch to its slot. |
| Chain.KindProcessedAsOftenAsNamed | Source/PluginProcessor.cpp:204-213 | A kind's module is processed exactly as many times as the kind occurs in the order, so an absent kind is never processed. |
| Chain.RunChainLeavesUnnamed | Source/PluginProcessor.cpp:204-213 | A slot that no entry names keeps its state and counts, so modules do not affect each other's state. |
| Chain.RunChainSkipsAll | Source/PluginProcessor.cpp:209 | When every entry is out of range or hits a null slot, the block and the table come out unchanged. |
| Chain.PermutationProcessesEachOnce | Source/PluginProcessor.cpp:204-213 | With an order that is a permutation of the five kinds and five modules, each module is processed exactly once per block. |
| Chain.DefaultOrderProcessesEachOnce | Source/PluginProcessor.cpp:27-28 | With the constructor's order, each of the five modules is processed exactly once per block. |
| Chain.PrepareAll | Source/PluginProcessor.cpp:108-113 | Every non-null slot is prepared with the spec exactly once, and null slots stay null. |
| Chain.ResetAll | Source/PluginProcessor.cpp:121-126 | Every non-null slot is reset exactly once, and null slots stay null. |
| Layout.IsBusesLayoutSupported | Source/PluginProcessor.cpp:163-184 | A MIDI effect accepts any layout. A synth accepts exactly the layouts with a mono or stereo output. An effect also needs the input to equal the output. |
| Layout.EffectBuildAcceptsExactlyMatchingMonoOrStereo | Source/PluginProcessor.cpp:173-179 | In the effect build the accepted layouts are exactly mono/mono and stereo/stereo. |
| Layout.DeclaredBuses | Source/PluginProcessor.cpp:15-24 | In a build without preferred channel configurations, the constructor declares a stereo input exactly in a plain effect build and a stereo output exactly when the plugin is not a MIDI effect. An undeclared bus has no channels. |
| Layout.DeclaredBusesSupported | Source/PluginProcessor.cpp:15-24 | In every build without preferred channel configurations (all four combinations of the MIDI-effect and synth switches), the buses the constructor declares pass `isBusesLayoutSupported`. |
| Layout.SupportedLayoutClearsNothing | Source/PluginProcessor.cpp:192-197 | Under a layout the effect build accepts, input and output channel counts agree, so the clearing loop changes nothing. The totals over all buses are the main buses' counts, because the constructor declares at most one bus per direction. |
| Processor.PluginProcessor.constructor | Source/PluginProcessor.cpp:14-29 | The order starts as the identity: position i holds the kind with ordinal i. Slot i points to the i-th of five fresh, distinct modules, each in its initial state with no calls made. |
| Processor.PluginProcessor.PrepareToPlay | Source/PluginProcessor.cpp:101-117 | The spec records the sample rate and the block size and input channel count cast to `uint32`. Every non-null module is then prepared with it exactly once (`PrepareAll`). |
| Processor.PluginProcessor.ReleaseResources | Source/PluginProcessor.cpp:119-127 | Every non-null module is reset exactly once (`ResetAll`), and nothing else changes. |
| Processor.PluginProcessor.ClearOutputsWithoutInput | Source/PluginProcessor.cpp:195-197 | The buffer ends as `ClearChannels` of its old contents over [input count, output count). |
| Processor.PluginProcessor.Dispatch | Source/PluginProcessor.cpp:206-212 | One loop iteration changes the module table and the buffer exactly as `Step` says. |
| Processor.PluginProcessor.ProcessBlock | Source/PluginProcessor.cpp:187-214 | The buffer and modules end as `RunChain` of the order over the old table and the cleared buffer. The order, the pointer table and the spec are unchanged, and the buffer keeps its shape. |

## Left out

- Processor.PluginProcessor.PrepareToPlay: does not model the call to `configureDSPModules` (Source/PluginProcessor.cpp:116, 129-160). That call sets parameters inside the library DSP classes, which are not part of this model. As written it also refers to the undeclared `delay` member.
- Processor.PluginProcessor.constructor: gives `spec` the value (0, 0, 0). In the source, `juce::dsp::ProcessSpec` stays uninitialised until the first `prepareToPlay`.
- Processor.PluginProcessor.ProcessBlock: requires the buffer to have at least as many channels as the output count. The host guarantees this, and `AudioBuffer::clear` on a missing channel is undefined.
- Processor.PluginProcessor.ClearOutputsWithoutInput: has the same host-guaranteed requirement on the channel count.
- The signal processing of `juce::dsp::Phaser`, `Chorus`, `LadderFilter` and `IIR::Filter` is not modelled. Each module is an uninterpreted behaviour that keeps the block's shape.
- Samples are mathematical reals, not 32-bit floats. The core only forwards samples and writes silence.
- The sample rate in `ProcessSpec` is a real, not a `double`. The core only stores it and forwards it to the modules.
- The five modules share one state type `St`, where the source wraps four different library types. No generality is lost, because `St` can be a sum of the five modules' states.
- `juce::ScopedNoDenormals` is a floating-point mode switch with no effect at this level.
- The host's `getTotalNumInputChannels()` and `getTotalNumOutputChannels()` become parameters of `PrepareToPlay` and `ProcessBlock`.
- The `JucePlugin_IsMidiEffect` and `JucePlugin_IsSynth` preprocessor switches become a `BuildConfig` parameter of `Layout.IsBusesLayoutSupported` and `Layout.DeclaredBuses`.
- Layout.DeclaredBusesSupported: covers only builds that leave `JucePlugin_PreferredChannelConfigurations` undefined. In a build that defines it, the constructor declares no buses and `isBusesLayoutSupported` is not compiled (Source/PluginProcessor.cpp:15-24 and 162-185, Source/PluginProcessor.h:28-30). The host then uses a fixed channel table that this source does not contain.
- `DSP_OPTION` is a closed datatype of its six enumerators. In C++ an `enum class` entry of `dspOrder` can also hold any other value of its `int` underlying type. Such a value converts to an index of at least 5 or wraps to a huge `size_t`, so the range test at Source/PluginProcessor.cpp:209 skips it just as it skips `END_OF_LIST`. The model's behaviour is therefore the same, but it cannot represent such entries.
- Channel sets other than mono and stereo are one case, `Other`, told apart only by their channel count. Every such output is rejected, so nothing depends on their identity.
- The `dspOrderFifo` (a lock-free hand-over of new orders from the editor), the `std::atomic` parameter structs, the parameter tree (`apvts`) and `createParameterLayout` are not modelled. No operation of the core reads them.
- `getStateInformation` and `setStateInformation` are empty in the source.
- The host metadata and program methods (`getName`, `acceptsMidi`, `producesMidi`, `isMidiEffect`, `getTailLengthSeconds` and the program calls) only return constants.
- `hasEditor`, `createEditor`, `createPluginFilter` and the destructor are not modelled. Source/PluginEditor.cpp is not part of this model.
- The process counters of the model (`Counts`) are ghost bookkeeping and have no counterpart in the source. They exist to state "invoked exactly once".
- The MIDI buffer argument of `processBlock` is ignored by the source and is not modelled.
