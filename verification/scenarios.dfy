/**
 * Whole renders on concrete pages: two tags on one page, written as a
 * template author would, through parsing, configuration and rendering.
 */
module Scenarios {
  import opened Wrappers
  import opened Decimal
  import opened Values
  import opened Config
  import opened RenderContext
  import opened PlayerNode
  import opened TagParser

  /** A page's variable lookup: a name bound in the context, and nothing else. */
  function Lookup(name: string, entries: map<string, Value>): (r: Option<Value>)
    ensures r.Some? <==> name in entries
    ensures r.Some? ==> r.value == entries[name]
  {
    if name in entries then Some(entries[name]) else None
  }

  /** The page's players never print a list or a query set. */
  function NoRepr(v: Value): string { "" }

  const StoredDefaults: Options := map["autoplay" := Flag(false)]
  const ClipOptions: Options := map["autoplay" := Flag(true), "loop" := Flag(true)]
  /** The page: `name` bound to "x", `videos` to a list of one dictionary. */
  const Videos := List([map["url" := "a.flv"]])
  const Page: map<string, Value> := map["name" := Str("x"), "videos" := Videos]

  /** A "clip" player's options overlay the defaults key by key. */
  lemma ClipOverridesDefaults()
    ensures EffectiveConfig(map[DefaultKey := StoredDefaults, "clip" := ClipOptions], Some("clip")) == ClipOptions
  {
  }

  /**
   * After a render with class `c`, the "default" options hold `c`'s, so a later
   * player of a class the setting does not name gets `c`'s options too.
   */
  lemma DefaultsKeepEarlierClass(cfg: map<string, Options>, c: string, d: string)
    requires DefaultKey in cfg && c in cfg && d !in cfg
    ensures var later := cfg[DefaultKey := EffectiveConfig(cfg, Some(c))];
      EffectiveConfig(later, Some(d)) == EffectiveConfig(cfg, Some(c))
  {
  }

  /** `{% flowplayer video.flv clip %}` first on the page: id "0", the reference as url. */
  lemma FirstTagOnPage(playerUrl: string, cfg: map<string, Options>, reprOf: Value -> string)
    requires DefaultKey in cfg && cfg[DefaultKey] == StoredDefaults
    requires "clip" in cfg && cfg["clip"] == ClipOptions
    ensures Rendered(playerUrl, Some("clip"), "video.flv", None, cfg, Page, Lookup, reprOf)
      == Ok(PlayerContext(playerUrl, "0", Some("clip"), ClipOptions, Unresolved("video.flv"), NoPlaylist))
  {
    var after := Page[CounterKey := Int(0)];
    assert CounterStep(Page) == Ok(after);
    assert "video.flv" !in after;
    assert ResolvedMedia("video.flv", after, Lookup) == Unresolved("video.flv");
    assert NatText(0) == "0";
    assert PlayerId(0, Text(Str(""), reprOf)) == "0";
    assert Merged(StoredDefaults, ClipOptions).Keys == ClipOptions.Keys;
    assert EffectiveConfig(cfg, Some("clip")) == Merged(StoredDefaults, ClipOptions) == ClipOptions;
    assert Classification(Unresolved("video.flv")) == Ok((Unresolved("video.flv"), NoPlaylist));
  }

  /**
   * `{% flowplayer videos plain name %}` second on the page, after the defaults
   * took the clip options: id "1x", no class, the list itself as url.
   */
  lemma SecondTagOnPage(playerUrl: string, cfg: map<string, Options>, reprOf: Value -> string)
    requires DefaultKey in cfg && cfg[DefaultKey] == ClipOptions
    ensures Rendered(playerUrl, None, "videos", Some("name"), cfg, Page[CounterKey := Int(0)], Lookup, reprOf)
      == Ok(PlayerContext(playerUrl, "1x", None, ClipOptions, Videos, NoPlaylist))
  {
    var after := Page[CounterKey := Int(1)];
    assert Page[CounterKey := Int(0)][CounterKey := Int(1)] == after;
    assert CounterStep(Page[CounterKey := Int(0)]) == Ok(after);
    assert ResolvedMedia("videos", after, Lookup) == Videos;
    assert ExtraId(Some("name"), after, Lookup) == Str("x");
    assert NatText(1) == "1";
    assert PlayerId(1, Text(Str("x"), reprOf)) == "1x";
    assert Classification(Videos) == Ok((Videos, NoPlaylist));
  }

  const PlayerPathUnderMedia := "/media/" + PlayerPath

  /** Settings holding the stored defaults and the clip options, and the page. */
  method NewPage() returns (settings: Settings, stored: OptionMap, page: Context)
    ensures fresh(settings) && fresh(stored) && fresh(page)
    ensures settings.flowplayerUrl == None && settings.mediaUrl == "/media/"
    ensures DefaultKey in settings.config && settings.config[DefaultKey] == stored
    ensures stored.entries == StoredDefaults
    ensures "clip" in settings.config && settings.config["clip"].entries == ClipOptions
    ensures page.entries == Page
  {
    stored := new OptionMap(StoredDefaults);
    var clip := new OptionMap(ClipOptions);
    settings := new Settings(None, "/media/", map[DefaultKey := stored, "clip" := clip]);
    page := new Context(Page);
  }

  /**
   * `{% flowplayer video.flv clip %}` rendered first on the page: the player
   * gets id "0" and the unresolved reference as url, and the stored defaults
   * now hold the clip options.
   */
  method FirstTagRendered()
    returns (settings: Settings, stored: OptionMap, page: Context, first: Result<PlayerContext, Error>)
    ensures fresh(settings) && fresh(stored) && fresh(page)
    ensures first == Ok(PlayerContext(PlayerPathUnderMedia, "0", Some("clip"), ClipOptions, Unresolved("video.flv"), NoPlaylist))
    ensures page.entries == Page[CounterKey := Int(0)]
    ensures DefaultKey in settings.config && settings.config[DefaultKey] == stored
    ensures stored.entries == ClipOptions
  {
    settings, stored, page := NewPage();
    var parsed := DoFlowplayer(["flowplayer", "video.flv", "clip"], settings);
    var node := parsed.value;
    FirstTagOnPage(node.playerUrl, settings.ConfigValue(), NoRepr);
    first := node.Render(page, settings, Lookup, NoRepr);
  }

  /**
   * `{% flowplayer videos plain name %}` after the first tag on the same page:
   * id "1x", no class (four words), the list itself as url with no playlist,
   * and the clip options, which the first render wrote into the stored
   * defaults.
   */
  method TwoPlayersOnOnePage() returns (second: Result<PlayerContext, Error>, defaults: Options)
    ensures second.Ok?
    ensures second.value.playerId == "1x" && second.value.playerClass == None
    ensures second.value.mediaUrl == Videos && second.value.mediaPlaylist == NoPlaylist
    ensures second.value.playerConfig == ClipOptions
    ensures defaults == ClipOptions
  {
    var settings, stored, page, first := FirstTagRendered();
    var parsed := DoFlowplayer(["flowplayer", "videos", "plain", "name"], settings);
    var node := parsed.value;
    SecondTagOnPage(node.playerUrl, settings.ConfigValue(), NoRepr);
    second := node.Render(page, settings, Lookup, NoRepr);
    defaults := stored.entries;
  }
}
