/** Which host bus layouts the processor accepts (`isBusesLayoutSupported`). */
module Layout {
  import opened Audio

  /** A main bus's channel set: mono, stereo, or any other set (disabled,
      surround, ...) with its number of channels. */
  datatype ChannelSet = Mono | Stereo | Other(numChannels: nat)

  function ChannelCount(s: ChannelSet): nat
  {
    match s
    case Mono => 1
    case Stereo => 2
    case Other(n) => n
  }

  /** The main input and output channel sets the host proposes. */
  datatype BusesLayout = BusesLayout(mainInput: ChannelSet, mainOutput: ChannelSet)

  /** The build-time switches `JucePlugin_IsMidiEffect` and
      `JucePlugin_IsSynth`. */
  datatype BuildConfig = BuildConfig(isMidiEffect: bool, isSynth: bool)

  /** A MIDI effect accepts every layout. Otherwise the output must be mono or
      stereo, and, unless the plugin is a synth, the input must equal the
      output. */
  function IsBusesLayoutSupported(layouts: BusesLayout, config: BuildConfig): (ok: bool)
    ensures config.isMidiEffect ==> ok
    ensures !config.isMidiEffect && !config.isSynth ==>
      (ok <==> (layouts.mainOutput == Mono || layouts.mainOutput == Stereo) &&
               layouts.mainInput == layouts.mainOutput)
    ensures !config.isMidiEffect && config.isSynth ==>
      (ok <==> layouts.mainOutput == Mono || layouts.mainOutput == Stereo)
  {
    if config.isMidiEffect then true
    else if layouts.mainOutput != Mono && layouts.mainOutput != Stereo then false
    else if !config.isSynth && layouts.mainOutput != layouts.mainInput then false
    else true
  }

  /** In the default effect build the accepted layouts are exactly mono in,
      mono out and stereo in, stereo out. */
  lemma EffectBuildAcceptsExactlyMatchingMonoOrStereo(layouts: BusesLayout)
    ensures IsBusesLayoutSupported(layouts, BuildConfig(false, false)) <==>
      layouts == BusesLayout(Mono, Mono) || layouts == BusesLayout(Stereo, Stereo)
  {
  }

  /** The main buses the processor's constructor declares in each build: a
      stereo input only in a plain effect build, a stereo output unless the
      plugin is a MIDI effect; an undeclared bus is disabled (no channels). */
  function DeclaredBuses(config: BuildConfig): (layouts: BusesLayout)
    ensures layouts.mainOutput == Stereo <==> !config.isMidiEffect
    ensures layouts.mainInput == Stereo <==> !config.isMidiEffect && !config.isSynth
    ensures layouts.mainInput != Stereo ==> ChannelCount(layouts.mainInput) == 0
    ensures layouts.mainOutput != Stereo ==> ChannelCount(layouts.mainOutput) == 0
  {
    BusesLayout(
      if !config.isMidiEffect && !config.isSynth then Stereo else Other(0),
      if !config.isMidiEffect then Stereo else Other(0))
  }

  /** Whatever the build, the buses the constructor declares pass the
      processor's own layout check. */
  lemma DeclaredBusesSupported(config: BuildConfig)
    ensures IsBusesLayoutSupported(DeclaredBuses(config), config)
  {
  }

  /** Under a layout the effect build accepts, input and output have the same
      number of channels, so the clearing step of `processBlock` changes
      nothing. The clearing bounds of `processBlock` are the totals over all
      input and output buses; they equal the main buses' counts here because
      the constructor declares at most one bus per direction. */
  lemma SupportedLayoutClearsNothing(layouts: BusesLayout, block: Block)
    requires IsBusesLayoutSupported(layouts, BuildConfig(false, false))
    ensures ChannelCount(layouts.mainInput) == ChannelCount(layouts.mainOutput)
    ensures ClearChannels(block, ChannelCount(layouts.mainInput), ChannelCount(layouts.mainOutput)) == block
  {
  }
}
