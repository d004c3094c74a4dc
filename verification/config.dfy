/**
 * The player configuration: the `FLOWPLAYER_CONFIG` setting maps a player class
 * name, or the reserved name "default", to a dictionary of player options.
 * Dictionaries are objects, so updating the one stored under "default" changes
 * the setting itself.
 */
module Config {
  import opened Wrappers

  /** A player option value; the tag passes these through without reading them. */
  datatype Setting = Flag(b: bool) | Number(n: int) | Literal(s: string)

  type Options = map<string, Setting>

  const DefaultKey := "default"

  /** `base.update(over)` on values: every key of `over` wins, the rest of `base` stays. */
  function Merged(base: Options, over: Options): (r: Options)
    ensures r.Keys == base.Keys + over.Keys
    ensures forall k :: k in over ==> r[k] == over[k]
    ensures forall k :: k in base && k !in over ==> r[k] == base[k]
  {
    base + over
  }

  lemma MergedIdempotent(base: Options, over: Options)
    ensures Merged(Merged(base, over), over) == Merged(base, over)
  {
  }

  /**
   * The options a player of class `cls` gets: the "default" options (none when
   * the setting has no "default" entry) overlaid by the class's own options.
   */
  function EffectiveConfig(cfg: map<string, Options>, cls: Option<string>): (r: Options)
    ensures cls.Some? && cls.value in cfg ==>
      forall k :: k in cfg[cls.value] ==> k in r && r[k] == cfg[cls.value][k]
    ensures DefaultKey in cfg ==>
      forall k :: k in cfg[DefaultKey] && !(cls.Some? && cls.value in cfg && k in cfg[cls.value]) ==>
        k in r && r[k] == cfg[DefaultKey][k]
    ensures forall k :: k in r ==>
      (DefaultKey in cfg && k in cfg[DefaultKey]) || (cls.Some? && cls.value in cfg && k in cfg[cls.value])
    ensures DefaultKey !in cfg && cls.Some? && cls.value in cfg ==> r == cfg[cls.value]
    ensures !(cls.Some? && cls.value in cfg) ==> r == (if DefaultKey in cfg then cfg[DefaultKey] else map[])
  {
    var base := if DefaultKey in cfg then cfg[DefaultKey] else map[];
    if cls.Some? && cls.value in cfg then Merged(base, cfg[cls.value]) else base
  }

  /** A Python dictionary of player options, an object that can be updated in place. */
  class OptionMap {
    var entries: Options

    constructor (entries: Options)
      ensures this.entries == entries
    {
      this.entries := entries;
    }

    /** `dict.update`: `src` may be this very dictionary. */
    method Update(src: OptionMap)
      modifies this
      ensures entries == Merged(old(entries), old(src.entries))
    {
      entries := entries + src.entries;
    }
  }

  /** The three settings the tag reads. */
  class Settings {
    var flowplayerUrl: Option<string>
    var mediaUrl: string
    var config: map<string, OptionMap>

    constructor (flowplayerUrl: Option<string>, mediaUrl: string, config: map<string, OptionMap>)
      ensures this.flowplayerUrl == flowplayerUrl && this.mediaUrl == mediaUrl && this.config == config
    {
      this.flowplayerUrl := flowplayerUrl;
      this.mediaUrl := mediaUrl;
      this.config := config;
    }

    /** The value of `FLOWPLAYER_CONFIG`: each entry's current options. */
    ghost function ConfigValue(): map<string, Options>
      reads this, config.Values
    {
      map k | k in config :: config[k].entries
    }

    /** The dictionary a render may update: the one stored under "default", if any. */
    function DefaultFrame(): set<OptionMap>
      reads this
    {
      if DefaultKey in config then {config[DefaultKey]} else {}
    }
  }
}
