/**
 * The effects control: whether the effect stack is on, whether the game
 * may blur the scene itself, and how a configuration document is applied
 * to the effects.
 *
 * The user configuration's two switches are constants of a control. The
 * configuration file is I/O: a load is given the parsed document, or
 * `None` when the file could not be read. The parameters the effect
 * objects hold are one `Effects` record; rebuilding the cloud volumes is
 * counted rather than performed.
 */
module EffectsControl {
  import opened Wrappers
  import opened Yaml
  import opened ConstantBuffers
  import opened ControlCodecs
  import opened PostprocessParams
  import opened PostprocessBloom
  import opened PostprocessColorGrading

  /**
   * The control configuration `read_config` installs first. Its decoder,
   * `convert<Effects_control_config>`, is not part of this model: a decoded
   * configuration is known by the `Control` mapping it was decoded from;
   * `DefaultControlConfig` is the struct default a control starts with.
   */
  datatype ControlConfig = DefaultControlConfig | DecodedControlConfig(section: Node)

  function DecodeControlConfig(m: Node): ControlConfig {
    DecodedControlConfig(m)
  }

  /** The parameters `read_config` sets, with the on/off state of the three effects it switches. */
  datatype Effects = Effects(
    controlConfig: ControlConfig,
    colorGrading: ColorGradingParams,
    bloom: BloomParams,
    vignette: VignetteParams,
    filmGrain: FilmGrainParams,
    dof: Dof,
    ssao: Ssao,
    ffxCas: FfxCas,
    fog: Fog,
    fogEnabled: bool,
    cloudLayers: CloudLayers,
    cloudLayersEnabled: bool,
    cloudVolumes: CloudVolumes,
    cloudVolumesEnabled: bool)

  /**
   * `config[k].as<T>(fallback)` for a whole section of the non-const
   * document: the decoder runs on the section's mapping, or on the empty
   * mapping the undefined node inserted for a missing key reads as. The
   * fallback is never returned, since every decoder reports success.
   */
  function Section<T>(config: Node, k: Key, decode: Node -> T): (r: T)
    ensures AsMap(config, k).Some? ==> r == decode(AsMap(config, k).value)
    ensures k !in config ==> r == decode(map[])
  {
    decode(SectionFields(config, k))
  }

  /**
   * What the cloud-layer effect holds after `read_config`, with its switch.
   * `if (auto node = config[k])` enters its branch for any value stored at
   * k, so a `CloudLayers` list is decoded (from no keys) and the legacy
   * section is then never read.
   */
  function ConfigCloudLayers(config: Node, current: CloudLayers, enabled: bool): (CloudLayers, bool) {
    if Key.CloudLayers in config then
      var m := SectionFields(config, Key.CloudLayers);
      (CloudLayersFrom(m), AsBool(m, Key.Enable, false))
    else if Key.CloudLayer in config then
      var m := SectionFields(config, Key.CloudLayer);
      var legacy := DecodeLayer(m).(enabled := Flag(AsBool(m, Key.Enable, false)));
      (current.(layers := current.layers[0 := legacy]), legacy.enabled != 0)
    else (current, enabled)
  }

  /** The control and color-grading sections, the two read before the bloom section. */
  function LeadingSections(config: Node, e: Effects): Effects {
    e.(controlConfig := Section(config, Key.Control, DecodeControlConfig),
       colorGrading := Section(config, Key.ColorGrading, DecodeColorGrading))
  }

  /**
   * `read_config` throws out of the bloom decoder when the `Bloom` section
   * lacks one of its seven tints; nothing after the color grading is then
   * applied.
   */
  predicate ReadThrows(config: Node) {
    DecodeBloomThrows(SectionFields(config, Key.Bloom))
  }

  /** The post-process sections from bloom to sharpening, each decoded whether present or not. */
  function RemainingSections(config: Node, e: Effects): Effects {
    e.(bloom := Section(config, Key.Bloom, DecodeBloom),
       vignette := Section(config, Key.Vignette, DecodeVignette),
       filmGrain := Section(config, Key.FilmGrain, DecodeFilmGrain),
       dof := Section(config, Key.DOF, DecodeDof),
       ssao := Section(config, Key.SSAO, DecodeSsao),
       ffxCas := Section(config, Key.ContrastAdaptiveSharpening, DecodeFfxCas))
  }

  /**
   * The fog section, applied whenever the key is present: a value that is
   * not a mapping reads as a node without keys.
   */
  function FogSection(config: Node, e: Effects): Effects {
    if Key.Fog in config then
      var m := SectionFields(config, Key.Fog);
      e.(fog := DecodeFogConstants(m), fogEnabled := AsBool(m, Key.Enable, false))
    else e
  }

  /** The cloud-layer sections, current or legacy, applied only when present. */
  function CloudLayerSection(config: Node, e: Effects): Effects {
    var layers := ConfigCloudLayers(config, e.cloudLayers, e.cloudLayersEnabled);
    e.(cloudLayers := layers.0, cloudLayersEnabled := layers.1)
  }

  /** The cloud-volume section, applied whenever the key is present, as the fog section is. */
  function CloudVolumeSection(config: Node, e: Effects): Effects {
    if Key.CloudVolumes in config then
      var m := SectionFields(config, Key.CloudVolumes);
      e.(cloudVolumes := DecodeVolumes(m), cloudVolumesEnabled := AsBool(m, Key.Enable, false))
    else e
  }

  /**
   * What the effects hold after `read_config`, returned or thrown: the
   * control configuration and every post-process section are decoded,
   * present or not, while the fog, cloud-layer and cloud-volume sections
   * are applied only when their key is present. A throw leaves only the first two
   * sections applied.
   */
  function ConfigEffects(config: Node, e: Effects): Effects {
    var leading := LeadingSections(config, e);
    if ReadThrows(config) then leading
    else CloudVolumeSection(config, CloudLayerSection(config, FogSection(config, RemainingSections(config, leading))))
  }

  /**
   * Reading a configuration rebuilds the cloud volumes exactly when it has
   * a `CloudVolumes` key, whatever its value, and the read gets that far.
   */
  function Regenerations(config: Node): nat {
    if !ReadThrows(config) && Key.CloudVolumes in config then 1 else 0
  }

  /** The flag as evidently intended: set exactly when the load or the read failed. */
  method OpenFailureCorrected(loadFailed: bool, readFailed: bool) returns (openFailure: bool)
    ensures openFailure <==> loadFailed || readFailed
  {
    openFailure := false;
    if loadFailed {
      openFailure := true;
    }
    if readFailed {
      openFailure := true;
    }
  }

  /**
   * The `_open_failure` flag after `load_params_from_yaml_file` as written:
   * both catch blocks set it as in `OpenFailureCorrected`, and the
   * unconditional reset at the end clears it again.
   */
  method OpenFailureAsWritten(loadFailed: bool, readFailed: bool) returns (openFailure: bool)
    ensures !openFailure
  {
    openFailure := OpenFailureCorrected(loadFailed, readFailed);
    openFailure := false;
  }

  /** `Control`: the effect stack's switch, the configuration state and the effect parameters. */
  class Control {
    /** `user_config.graphics.enable_user_effects_config`. */
    const userEffectsConfig: bool
    /** `user_config.graphics.enable_user_effects_auto_config`. */
    const userEffectsAutoConfig: bool

    var enabledFlag: bool
    var hasAutoUserConfig: bool
    var openFailure: bool
    var effects: Effects
    var volumeRegenerations: nat

    /** `enabled()`: on when switched on, or when a user or automatic configuration is in force. */
    predicate Enabled()
      reads this
    {
      enabledFlag || userEffectsConfig || (hasAutoUserConfig && userEffectsAutoConfig)
    }

    /** `allow_scene_blur()`: the game may blur the scene unless the effects are on with blended bloom. */
    function AllowSceneBlur(): (r: bool)
      reads this
      ensures r <==> !(Enabled() && effects.bloom.mode == BloomBlended)
      ensures !Enabled() ==> r
    {
      if !Enabled() then true else !(Enabled() && effects.bloom.mode == BloomBlended)
    }

    /**
     * The constructor: loads the user configuration when it is switched
     * on, and otherwise the automatic one when that is switched on and its
     * file exists. `initial` is what the effect objects start with. The
     * open-failure flag is the one the corrected load records
     * (`OpenFailureCorrected`); as written it is always false afterwards.
     */
    constructor (userConfig: bool, autoConfig: bool, autoFileExists: bool,
                 userFile: Option<Node>, autoFile: Option<Node>, initial: Effects)
      ensures userEffectsConfig == userConfig && userEffectsAutoConfig == autoConfig
      ensures !enabledFlag
      ensures openFailure <==> (userConfig && LoadFails(userFile)) || (hasAutoUserConfig && LoadFails(autoFile))
      ensures hasAutoUserConfig == (!userConfig && autoConfig && autoFileExists)
      ensures userConfig ==> effects == ConfigEffects(LoadedDocument(userFile), initial)
      ensures hasAutoUserConfig ==> effects == ConfigEffects(LoadedDocument(autoFile), initial)
      ensures !userConfig && !hasAutoUserConfig ==> effects == initial
    {
      userEffectsConfig := userConfig;
      userEffectsAutoConfig := autoConfig;
      enabledFlag := false;
      hasAutoUserConfig := false;
      effects := initial;
      volumeRegenerations := 0;
      openFailure := false;
      new;
      if userConfig {
        LoadParamsFromYamlFile(userFile);
      } else if autoConfig {
        hasAutoUserConfig := autoFileExists;
        if hasAutoUserConfig {
          LoadParamsFromYamlFile(autoFile);
        }
      }
    }

    /** The document a load reads: the parsed file, or an empty one when it could not be read. */
    static function LoadedDocument(file: Option<Node>): Node {
      match file
      case Some(n) => n
      case None => map[]
    }

    /** A load fails when the file cannot be read or when reading its document throws. */
    static predicate LoadFails(file: Option<Node>) {
      file.None? || ReadThrows(LoadedDocument(file))
    }

    /**
     * `read_config`: installs the control configuration, applies every
     * effect section, and rebuilds the cloud volumes when their section is
     * present; `threw` reports the exception the bloom decoder raises,
     * after which nothing past the color grading has been applied.
     */
    method ReadConfig(config: Node) returns (threw: bool)
      modifies this
      ensures threw <==> ReadThrows(config)
      ensures effects == ConfigEffects(config, old(effects))
      ensures volumeRegenerations == old(volumeRegenerations) + Regenerations(config)
      ensures enabledFlag == old(enabledFlag) && hasAutoUserConfig == old(hasAutoUserConfig)
      ensures openFailure == old(openFailure)
    {
      effects := LeadingSections(config, effects);
      threw := DecodeBloomThrows(SectionFields(config, Key.Bloom));
      if threw {
        return;
      }
      var e := FogSection(config, RemainingSections(config, effects));
      ghost var fogged := e;
      if Key.CloudLayers in config {
        var layerSection := SectionFields(config, Key.CloudLayers);
        var layers := DecodeCloudLayers(layerSection);
        e := e.(cloudLayers := layers, cloudLayersEnabled := AsBool(layerSection, Key.Enable, false));
      } else {
        e := CloudLayerSection(config, e);
      }
      assert e == CloudLayerSection(config, fogged);
      if Key.CloudVolumes in config {
        volumeRegenerations := volumeRegenerations + 1;
      }
      effects := CloudVolumeSection(config, e);
    }

    /**
     * `load_params_from_yaml_file`: reads the document (an empty one when
     * the file could not be read) and records whether the load or the read
     * failed, as `OpenFailureCorrected` does; the code as written clears
     * the flag on every path (`OpenFailureAsWritten`).
     */
    method LoadParamsFromYamlFile(file: Option<Node>)
      modifies this
      ensures effects == ConfigEffects(LoadedDocument(file), old(effects))
      ensures volumeRegenerations == old(volumeRegenerations) + Regenerations(LoadedDocument(file))
      ensures openFailure <==> file.None? || ReadThrows(LoadedDocument(file))
      ensures enabledFlag == old(enabledFlag) && hasAutoUserConfig == old(hasAutoUserConfig)
    {
      var threw := ReadConfig(LoadedDocument(file));
      openFailure := OpenFailureCorrected(file.None?, threw);
    }

    /**
     * `enabled(bool)`: stores the switch; switching off under a user or
     * automatic configuration reloads that configuration. Returns `enabled()`.
     */
    method SetEnabled(enable: bool, userFile: Option<Node>, autoFile: Option<Node>) returns (r: bool)
      modifies this
      ensures enabledFlag == enable && hasAutoUserConfig == old(hasAutoUserConfig)
      ensures r == Enabled()
      ensures enable ==> r
      ensures !enable ==> (r <==> userEffectsConfig || (hasAutoUserConfig && userEffectsAutoConfig))
      ensures !enable && userEffectsConfig ==>
                effects == ConfigEffects(LoadedDocument(userFile), old(effects))
      ensures !enable && !userEffectsConfig && hasAutoUserConfig ==>
                effects == ConfigEffects(LoadedDocument(autoFile), old(effects))
      ensures (enable || (!userEffectsConfig && !hasAutoUserConfig)) ==>
                effects == old(effects) && volumeRegenerations == old(volumeRegenerations)
                && openFailure == old(openFailure)
    {
      enabledFlag := enable;
      if !enabledFlag && userEffectsConfig {
        LoadParamsFromYamlFile(userFile);
      } else if !enabledFlag && hasAutoUserConfig {
        LoadParamsFromYamlFile(autoFile);
      }
      r := Enabled();
    }
  }

  /**
   * Without a `CloudLayers` key, and once the read gets past the bloom
   * section, the legacy `CloudLayer` section replaces only the first
   * layer, takes its switch from `Enable`, and leaves the rest of the
   * buffer alone.
   */
  lemma LegacyCloudLayer(config: Node, e: Effects)
    requires Key.CloudLayers !in config && Key.CloudLayer in config
    ensures var m := SectionFields(config, Key.CloudLayer);
            var r := ConfigEffects(config, e);
            !ReadThrows(config) ==>
            && r.cloudLayers.layers[0] == DecodeLayer(m).(enabled := Flag(AsBool(m, Key.Enable, false)))
            && r.cloudLayers.layers[1] == e.cloudLayers.layers[1]
            && r.cloudLayers.layers[2] == e.cloudLayers.layers[2]
            && r.cloudLayers.(layers := e.cloudLayers.layers) == e.cloudLayers
            && r.cloudLayersEnabled == AsBool(m, Key.Enable, false)
  {
    ConfigEffectsLayers(config, e);
  }

  /**
   * Only the cloud-layer sections decide the cloud-layer buffer and its
   * switch, and only when the read does not throw before them.
   */
  lemma ConfigEffectsLayers(config: Node, e: Effects)
    ensures ReadThrows(config) ==>
              ConfigEffects(config, e).cloudLayers == e.cloudLayers && ConfigEffects(config, e).cloudLayersEnabled == e.cloudLayersEnabled
    ensures !ReadThrows(config) ==>
              ConfigEffects(config, e).cloudLayers == ConfigCloudLayers(config, e.cloudLayers, e.cloudLayersEnabled).0
    ensures !ReadThrows(config) ==>
              ConfigEffects(config, e).cloudLayersEnabled == ConfigCloudLayers(config, e.cloudLayers, e.cloudLayersEnabled).1
  {
  }

  /** A `CloudLayers` section wins: the legacy section is then ignored. */
  lemma CloudLayersPreferred(config: Node, e: Effects, legacy: Value)
    requires Key.CloudLayers in config
    ensures ConfigEffects(config[Key.CloudLayer := legacy], e).cloudLayers == ConfigEffects(config, e).cloudLayers
    ensures ConfigEffects(config[Key.CloudLayer := legacy], e).cloudLayersEnabled == ConfigEffects(config, e).cloudLayersEnabled
  {
    assert SectionFields(config[Key.CloudLayer := legacy], Key.CloudLayers) == SectionFields(config, Key.CloudLayers);
    assert SectionFields(config[Key.CloudLayer := legacy], Key.Bloom) == SectionFields(config, Key.Bloom);
    ConfigEffectsLayers(config, e);
    ConfigEffectsLayers(config[Key.CloudLayer := legacy], e);
  }

  /** A node without keys decodes to the fog defaults. */
  lemma DecodeFogEmpty()
    ensures DecodeFogConstants(map[]) == DefaultFog
  {
  }

  /** A node without keys decodes to the cloud-volume defaults. */
  lemma DecodeVolumesEmpty()
    ensures DecodeVolumes(map[]) == DefaultCloudVolumes
  {
  }

  /** A node without keys decodes to the stratus, cumulus and cirrus presets. */
  lemma CloudLayersFromEmpty()
    ensures CloudLayersFrom(map[]) == DefaultCloudLayers
  {
    assert ReadLayers([], DefaultCloudLayers.layers) == DefaultCloudLayers.layers;
  }

  /**
   * A `Fog` key holding a list still enters its branch of `read_config`:
   * the decoder restarts from `cb::Fog{}` and finds none of its keys, and
   * `Enable` reads as false, so the fog returns to its defaults and is
   * switched off.
   */
  lemma ListFogResets(config: Node, e: Effects)
    requires !ReadThrows(config) && Key.Fog in config && config[Key.Fog].List?
    ensures ConfigEffects(config, e).fog == DefaultFog
    ensures !ConfigEffects(config, e).fogEnabled
  {
    assert SectionFields(config, Key.Fog) == map[];
    DecodeFogEmpty();
  }

  /**
   * A `CloudVolumes` key holding a list resets the volume constants to
   * their defaults, switches the volumes off, and still rebuilds them.
   */
  lemma ListCloudVolumesReset(config: Node, e: Effects)
    requires !ReadThrows(config) && Key.CloudVolumes in config && config[Key.CloudVolumes].List?
    ensures ConfigEffects(config, e).cloudVolumes == DefaultCloudVolumes
    ensures !ConfigEffects(config, e).cloudVolumesEnabled
    ensures Regenerations(config) == 1
  {
    assert SectionFields(config, Key.CloudVolumes) == map[];
    DecodeVolumesEmpty();
  }

  /**
   * A `CloudLayers` key holding a list takes the first branch: the layers
   * return to their presets, the effect is switched off, and a legacy
   * `CloudLayer` section is never read.
   */
  lemma ListCloudLayersReset(config: Node, e: Effects, legacy: Value)
    requires !ReadThrows(config) && Key.CloudLayers in config && config[Key.CloudLayers].List?
    ensures ConfigEffects(config, e).cloudLayers == DefaultCloudLayers
    ensures !ConfigEffects(config, e).cloudLayersEnabled
    ensures ConfigEffects(config[Key.CloudLayer := legacy], e).cloudLayers == DefaultCloudLayers
  {
    assert SectionFields(config, Key.CloudLayers) == map[];
    CloudLayersFromEmpty();
    ConfigEffectsLayers(config, e);
    CloudLayersPreferred(config, e, legacy);
  }

  /**
   * An empty document, which is also what a file that cannot be read
   * gives, throws in the bloom decoder: the control configuration is
   * decoded from nothing, the color grading returns to its defaults, and
   * every other effect keeps what it held.
   */
  lemma EmptyConfig(e: Effects)
    ensures ReadThrows(map[])
    ensures Control.LoadFails(None)
    ensures ConfigEffects(map[], e) == e.(controlConfig := DecodedControlConfig(map[]), colorGrading := DefaultColorGrading)
    ensures Regenerations(map[]) == 0
  {
    BloomMissingKeys();
    ColorGradingMissingKeys();
  }

  /** A configuration holding only a bloom section of seven white tints. */
  const BloomOnly: Node := map[Key.Bloom := Map(WhiteTints)]

  /** The control and color-grading sections of `BloomOnly` decode from nothing. */
  lemma BloomOnlyLeading(e: Effects)
    ensures LeadingSections(BloomOnly, e) == e.(controlConfig := DecodedControlConfig(map[]), colorGrading := DefaultColorGrading)
  {
    ColorGradingMissingKeys();
  }

  /** The bloom section of `BloomOnly` decodes to threshold mode at 0.75. */
  lemma BloomOnlyBloom()
    ensures Section(BloomOnly, Key.Bloom, DecodeBloom) == DefaultBloom.(mode := BloomThreshold, intensity := MissingIntensity)
  {
    assert SectionFields(BloomOnly, Key.Bloom) == WhiteTints;
    BloomMissingKeys();
  }

  /** `BloomOnly` reads without a throw, and it has no fog or cloud section to apply. */
  lemma BloomOnlyReadsThrough(e: Effects)
    ensures !ReadThrows(BloomOnly)
    ensures ConfigEffects(BloomOnly, e) == RemainingSections(BloomOnly, LeadingSections(BloomOnly, e))
    ensures Regenerations(BloomOnly) == 0
  {
    assert SectionFields(BloomOnly, Key.Bloom) == WhiteTints;
    BloomMissingKeys();
    LateSectionsAbsent(BloomOnly, RemainingSections(BloomOnly, LeadingSections(BloomOnly, e)));
  }

  /** A document without fog or cloud sections leaves those effects as they were. */
  lemma LateSectionsAbsent(config: Node, e: Effects)
    requires Key.Fog !in config && Key.CloudLayers !in config && Key.CloudLayer !in config && Key.CloudVolumes !in config
    ensures CloudVolumeSection(config, CloudLayerSection(config, FogSection(config, e))) == e
  {
  }

  /** What the post-process sections of `BloomOnly` decode to. */
  lemma BloomOnlySections(e: Effects)
    ensures RemainingSections(BloomOnly, LeadingSections(BloomOnly, e))
            == e.(controlConfig := DecodedControlConfig(map[]), colorGrading := DefaultColorGrading,
                  bloom := DefaultBloom.(mode := BloomThreshold, intensity := MissingIntensity),
                  vignette := DefaultVignette, filmGrain := DefaultFilmGrain, dof := DefaultDof,
                  ssao := DefaultSsao.(enabled := false, mode := Global), ffxCas := DefaultFfxCas)
  {
    BloomOnlyLeading(e);
    BloomOnlyBloom();
    SsaoMissingKeys();
    DofMissingKeys();
  }

  /**
   * A document holding only a bloom section with its seven tints reads
   * through: bloom in threshold mode at 0.75, every other post-process
   * section decoded from nothing, SSAO off in global mode, and the fog and
   * cloud effects as they were.
   */
  lemma BloomOnlyConfig(e: Effects)
    ensures !ReadThrows(BloomOnly)
    ensures ConfigEffects(BloomOnly, e)
            == e.(controlConfig := DecodedControlConfig(map[]), colorGrading := DefaultColorGrading,
                  bloom := DefaultBloom.(mode := BloomThreshold, intensity := MissingIntensity),
                  vignette := DefaultVignette, filmGrain := DefaultFilmGrain, dof := DefaultDof,
                  ssao := DefaultSsao.(enabled := false, mode := Global), ffxCas := DefaultFfxCas)
    ensures Regenerations(BloomOnly) == 0
  {
    BloomOnlyReadsThrough(e);
    BloomOnlySections(e);
  }

  /**
   * Whatever the control held before, the control configuration after a
   * read is the one decoded from the `Control` mapping, or from nothing
   * when the document has none; a throw later in the read does not undo it.
   */
  lemma ControlSectionReplaces(config: Node, e: Effects, e': Effects)
    ensures Key.Control !in config ==> ConfigEffects(config, e).controlConfig == DecodedControlConfig(map[])
    ensures AsMap(config, Key.Control).Some? ==>
              ConfigEffects(config, e).controlConfig == DecodedControlConfig(AsMap(config, Key.Control).value)
    ensures ConfigEffects(config, e).controlConfig == ConfigEffects(config, e').controlConfig
  {
    ConfigEffectsControl(config, e);
    ConfigEffectsControl(config, e');
  }

  /** Only the `Control` section decides the control configuration. */
  lemma ConfigEffectsControl(config: Node, e: Effects)
    ensures ConfigEffects(config, e).controlConfig == DecodedControlConfig(SectionFields(config, Key.Control))
  {
    TailSectionsKeepLeading(config, LeadingSections(config, e));
  }

  /** The sections from bloom on leave the control configuration and the color grading alone. */
  lemma TailSectionsKeepLeading(config: Node, e: Effects)
    ensures var r := CloudVolumeSection(config, CloudLayerSection(config, FogSection(config, RemainingSections(config, e))));
            r.controlConfig == e.controlConfig && r.colorGrading == e.colorGrading
  {
  }

  /**
   * Once a document has been read, whether the game may blur the scene is
   * decided by the switch and the document's `Bloom` section: with the
   * effects on, blur is allowed exactly when the read returns and the
   * section selects a mode other than blended, or when the read throws and
   * the bloom the effects held before was not blended.
   */
  lemma SceneBlurFollowsBloomSection(c: Control, config: Node, e: Effects)
    requires c.effects == ConfigEffects(config, e)
    ensures !ReadThrows(config) ==>
              (c.AllowSceneBlur() <==> !c.Enabled() || DecodeBloom(SectionFields(config, Key.Bloom)).mode != BloomBlended)
    ensures ReadThrows(config) ==>
              (c.AllowSceneBlur() <==> !c.Enabled() || e.bloom.mode != BloomBlended)
  {
  }
}
