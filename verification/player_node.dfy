/**
 * The tag's node: built once when the template is parsed, rendered once per
 * occurrence on a page. Rendering merges the player configuration, advances the
 * page's player counter, resolves the media and id references and classifies
 * the media into the url and playlist handed to the player's sub-template.
 */
module PlayerNode {
  import opened Wrappers
  import opened Decimal
  import opened Values
  import opened Config
  import opened RenderContext

  /** Where the player lives under `MEDIA_URL` when no `FLOWPLAYER_URL` is set. */
  const PlayerPath := "flowplayer/FlowPlayerLight.swf"

  /** Python truthiness of the `FLOWPLAYER_URL` setting: neither `None` nor empty. */
  predicate Truthy(url: Option<string>) { url.Some? && url.value != "" }

  /** The url of the player itself. */
  function PlayerUrl(flowplayerUrl: Option<string>, mediaUrl: string): (r: string)
    ensures Truthy(flowplayerUrl) ==> r == flowplayerUrl.value
    ensures !Truthy(flowplayerUrl) ==>
      |r| == |mediaUrl| + |PlayerPath| && r[..|mediaUrl|] == mediaUrl && r[|mediaUrl|..] == PlayerPath
  {
    if Truthy(flowplayerUrl) then flowplayerUrl.value else mediaUrl + PlayerPath
  }

  /** The playlist handed to the sub-template: Python `False`, or a collection. */
  datatype Playlist = NoPlaylist | Playlist(collection: Value)

  /** The six values the sub-template is rendered with. */
  datatype PlayerContext = PlayerContext(
    playerUrl: string,
    playerId: string,
    playerClass: Option<string>,
    playerConfig: Options,
    mediaUrl: Value,
    mediaPlaylist: Playlist)

  /** The media value: what the reference resolves to, else the unresolved reference. */
  function ResolvedMedia(ref: string, entries: map<string, Value>, resolve: Resolver): (v: Value)
    ensures resolve(ref, entries).None? ==> v == Unresolved(ref)
    ensures resolve(ref, entries).Some? ==> v == resolve(ref, entries).value
  {
    match resolve(ref, entries)
    case Some(found) => found
    case None => Unresolved(ref)
  }

  /**
   * The extra id: the id reference's value, or the empty string both when the
   * tag has no id reference and when the reference cannot be resolved.
   */
  function ExtraId(idRef: Option<string>, entries: map<string, Value>, resolve: Resolver): (v: Value)
    ensures idRef.None? || resolve(idRef.value, entries).None? ==> v == Str("")
    ensures idRef.Some? && resolve(idRef.value, entries).Some? ==> v == resolve(idRef.value, entries).value
  {
    if idRef.None? then Str("")
    else
      match resolve(idRef.value, entries)
      case Some(found) => found
      case None => Str("")
  }

  /**
   * What the media value becomes, as the three tests of the render leave it: a
   * query set gives its first row's url and itself as playlist; every other
   * value, a list included, is its own url with no playlist. Indexing an empty
   * list or query set, or a first list item without "url", raises.
   */
  function Classification(element: Value): (r: Result<(Value, Playlist), Error>)
    ensures r.Err? <==>
      (element.List? && (element.items == [] || "url" !in element.items[0])) ||
      (element.QuerySet? && element.rows == [])
    ensures r.Err? ==> r.error == (if element.List? && element.items != [] then KeyError else IndexError)
    ensures r.Ok? && element.QuerySet? ==> r.value == (Str(element.rows[0].url), Playlist(element))
    ensures r.Ok? && !element.QuerySet? ==> r.value == (element, NoPlaylist)
    ensures r.Ok? ==> (r.value.1.Playlist? <==> element.QuerySet?)
  {
    match element
    case List(items) =>
      if items == [] then Err(IndexError)
      else if "url" !in items[0] then Err(KeyError)
      else Ok((element, NoPlaylist))
    case QuerySet(rows) =>
      if rows == [] then Err(IndexError) else Ok((Str(rows[0].url), Playlist(element)))
    case _ => Ok((element, NoPlaylist))
  }

  /** The player id: the counter's decimal text followed by the extra id. */
  function PlayerId(counter: int, extra: string): (id: string)
    ensures |id| > |extra| && id[|id| - |extra|..] == extra
    ensures counter >= 0 ==>
      AllDigits(id[..|id| - |extra|]) && DigitsValue(id[..|id| - |extra|]) == counter
    ensures counter < 0 ==>
      && id[0] == '-'
      && AllDigits(id[1..|id| - |extra|])
      && DigitsValue(id[1..|id| - |extra|]) == -counter
  {
    var prefix := IntText(counter);
    assert (prefix + extra)[..|prefix|] == prefix;
    assert (prefix + extra)[|prefix|..] == extra;
    assert (prefix + extra)[1..|prefix|] == prefix[1..];
    prefix + extra
  }

  /** The same extra id after two different counters never gives the same id. */
  lemma PlayerIdsDistinct(i: int, j: int, extra: string)
    ensures PlayerId(i, extra) == PlayerId(j, extra) ==> i == j
  {
  }

  /** Different extra ids can make two players' ids equal: "1" + "1x" and "11" + "x". */
  lemma PlayerIdsMayCollide()
    ensures PlayerId(1, "1x") == PlayerId(11, "x")
  {
  }

  /**
   * The outcome of lines 52-80 of a render, from the node's fields, the
   * player's options and the context's bindings once the counter has moved.
   */
  function RenderedAfterCount(
    playerUrl: string, playerClass: Option<string>, media: string, playerId: Option<string>,
    config: Options, after: map<string, Value>,
    resolve: Resolver, reprOf: Value -> string): Result<PlayerContext, Error>
    requires CounterKey in after && after[CounterKey].Int?
  {
    var extra := ExtraId(playerId, after, resolve);
    match Classification(ResolvedMedia(media, after, resolve))
    case Err(e) => Err(e)
    case Ok((url, playlist)) =>
      Ok(PlayerContext(playerUrl, PlayerId(after[CounterKey].n, Text(extra, reprOf)),
        playerClass, config, url, playlist))
  }

  /**
   * The outcome of one render, from the node's fields, the configuration setting
   * and the context's bindings before the render.
   */
  function Rendered(
    playerUrl: string, playerClass: Option<string>, media: string, playerId: Option<string>,
    cfg: map<string, Options>, entries: map<string, Value>,
    resolve: Resolver, reprOf: Value -> string): (r: Result<PlayerContext, Error>)
    ensures CounterStep(entries).Err? ==> r == Err(TypeError)
    ensures CounterStep(entries).Ok? ==>
      var after := CounterStep(entries).value;
      var c := Classification(ResolvedMedia(media, after, resolve));
      && (r.Err? <==> c.Err?)
      && (r.Err? ==> r.error == c.error)
      && (r.Ok? ==>
        && r.value.playerUrl == playerUrl
        && r.value.playerClass == playerClass
        && r.value.playerConfig == EffectiveConfig(cfg, playerClass)
        && (r.value.mediaUrl, r.value.mediaPlaylist) == c.value
        && r.value.playerId == PlayerId(after[CounterKey].n, Text(ExtraId(playerId, after, resolve), reprOf)))
  {
    match CounterStep(entries)
    case Err(e) => Err(e)
    case Ok(after) =>
      RenderedAfterCount(playerUrl, playerClass, media, playerId,
        EffectiveConfig(cfg, playerClass), after, resolve, reprOf)
  }

  /**
   * Whatever its class, media and id reference, the n-th tag rendered in a
   * context that had no counter gets an id that starts with the decimal text
   * of n - 1, followed by its extra id.
   */
  lemma NthPlayerId(
    playerUrl: string, playerClass: Option<string>, media: string, playerId: Option<string>,
    cfg: map<string, Options>, entries: map<string, Value>, n: nat, before: map<string, Value>,
    resolve: Resolver, reprOf: Value -> string)
    requires CounterKey !in entries && n >= 1
    requires AfterRenders(entries, n - 1) == Ok(before)
    ensures var r := Rendered(playerUrl, playerClass, media, playerId, cfg, before, resolve, reprOf);
      r.Ok? ==>
        var extra := Text(ExtraId(playerId, before[CounterKey := Int(n - 1)], resolve), reprOf);
        var id := r.value.playerId;
        && |id| > |extra|
        && id[|id| - |extra|..] == extra
        && AllDigits(id[..|id| - |extra|])
        && DigitsValue(id[..|id| - |extra|]) == n - 1
  {
    NthRenderSeesPredecessor(entries, n);
    assert CounterStep(before) == Ok(entries[CounterKey := Int(n - 1)]);
    if n > 1 {
      NthRenderSeesPredecessor(entries, n - 1);
    }
    assert before[CounterKey := Int(n - 1)] == entries[CounterKey := Int(n - 1)];
  }

  /**
   * Renders one occurrence of the tag; unresolvable references raise nothing.
   * Attributes Python sets only during a render start as `None`/`null`.
   */
  class FlowPlayerNode {
    var playerClass: Option<string>
    /** The media reference as written in the tag. */
    var media: string
    /** The id reference; `None` when the tag has none and the attribute is never set. */
    var playerId: Option<string>
    var playerUrl: string
    var playerConfig: OptionMap?
    var mediaElement: Option<Value>
    var extraId: Option<Value>
    var mediaUrl: Option<Value>
    var mediaPlaylist: Option<Playlist>

    constructor (media: string, playerClass: Option<string>, playerId: Option<string>, settings: Settings)
      ensures this.media == media && this.playerClass == playerClass && this.playerId == playerId
      ensures this.playerUrl == PlayerUrl(settings.flowplayerUrl, settings.mediaUrl)
      ensures playerConfig == null && mediaElement.None? && extraId.None?
      ensures mediaUrl.None? && mediaPlaylist.None?
    {
      this.playerClass := playerClass;
      this.media := media;
      this.playerId := playerId;
      if Truthy(settings.flowplayerUrl) {
        this.playerUrl := settings.flowplayerUrl.value;
      } else {
        this.playerUrl := settings.mediaUrl + PlayerPath;
      }
      playerConfig := null;
      mediaElement, extraId := None, None;
      mediaUrl, mediaPlaylist := None, None;
    }

    /**
     * After lines 39-45, given the configuration setting's value `before` them:
     * the player's options are the effective ones, they are the very dictionary
     * stored under "default" when there is one, and every other dictionary of
     * the setting is unchanged.
     */
    ghost predicate ConfigLoaded(settings: Settings, before: map<string, Options>)
      reads this`playerConfig, this`playerClass, playerConfig, settings, settings.config.Values
    {
      && playerConfig != null
      && playerConfig.entries == EffectiveConfig(before, playerClass)
      && (DefaultKey in settings.config ==> playerConfig == settings.config[DefaultKey])
      && (forall k :: k in settings.config && settings.config[k] != playerConfig ==>
            k in before && settings.config[k].entries == before[k])
    }

    /** Lines 39-45: the configuration, by updating the stored "default" options in place. */
    method LoadConfig(settings: Settings)
      modifies this`playerConfig, settings.DefaultFrame()
      ensures ConfigLoaded(settings, old(settings.ConfigValue()))
      ensures DefaultKey !in settings.config ==> fresh(playerConfig)
    {
      if DefaultKey in settings.config {
        playerConfig := settings.config[DefaultKey];
      } else {
        playerConfig := new OptionMap(map[]);
      }
      if playerClass.Some? && playerClass.value in settings.config {
        playerConfig.Update(settings.config[playerClass.value]);
      }
    }

    /** Lines 52-62: the media element and the extra id, resolved after the counter step. */
    method ResolveReferences(ctx: Context, resolve: Resolver)
      modifies this`mediaElement, this`extraId
      ensures mediaElement == Some(ResolvedMedia(media, ctx.entries, resolve))
      ensures extraId == Some(ExtraId(playerId, ctx.entries, resolve))
    {
      match resolve(media, ctx.entries) {
        case Some(found) =>
          mediaElement := Some(found);
        case None =>
          mediaElement := Some(Unresolved(media));
      }

      if playerId.None? {
        extraId := Some(Str(""));
      } else {
        match resolve(playerId.value, ctx.entries) {
          case Some(found) =>
            extraId := Some(found);
          case None =>
            extraId := Some(Str(""));
        }
      }
    }

    /**
     * Lines 64-75: the list test, then the query-set test whose `else` also runs
     * for a list, overwriting what the list branch set.
     */
    method ClassifyMedia() returns (err: Option<Error>)
      requires mediaElement.Some?
      modifies this`mediaUrl, this`mediaPlaylist
      ensures var c := Classification(mediaElement.value);
        (c.Err? ==> err == Some(c.error) && mediaUrl == old(mediaUrl) && mediaPlaylist == old(mediaPlaylist)) &&
        (c.Ok? ==> err.None? && mediaUrl == Some(c.value.0) && mediaPlaylist == Some(c.value.1))
    {
      var element := mediaElement.value;
      if element.List? {
        if element.items == [] {
          return Some(IndexError);
        }
        if "url" !in element.items[0] {
          return Some(KeyError);
        }
        mediaUrl := Some(Str(element.items[0]["url"]));
        mediaPlaylist := Some(Playlist(element));
      }
      if element.QuerySet? {
        if element.rows == [] {
          return Some(IndexError);
        }
        mediaUrl := Some(Str(element.rows[0].url));
        mediaPlaylist := Some(Playlist(element));
      } else {
        mediaUrl := Some(element);
        mediaPlaylist := Some(NoPlaylist);
      }
      err := None;
    }

    /** Lines 52-80: resolution, classification and the values for the sub-template. */
    method Present(ctx: Context, resolve: Resolver, reprOf: Value -> string)
      returns (r: Result<PlayerContext, Error>)
      requires playerConfig != null
      requires CounterKey in ctx.entries && ctx.entries[CounterKey].Int?
      modifies this`mediaElement, this`extraId, this`mediaUrl, this`mediaPlaylist
      ensures r == RenderedAfterCount(playerUrl, playerClass, media, playerId,
        playerConfig.entries, ctx.entries, resolve, reprOf)
      ensures mediaElement == Some(ResolvedMedia(media, ctx.entries, resolve))
      ensures extraId == Some(ExtraId(playerId, ctx.entries, resolve))
      ensures r.Ok? ==> mediaUrl == Some(r.value.mediaUrl) && mediaPlaylist == Some(r.value.mediaPlaylist)
      ensures r.Err? ==> mediaUrl == old(mediaUrl) && mediaPlaylist == old(mediaPlaylist)
    {
      ResolveReferences(ctx, resolve);
      var err := ClassifyMedia();
      if err.Some? {
        return Err(err.value);
      }
      var id := PlayerId(ctx.entries[CounterKey].n, Text(extraId.value, reprOf));
      r := Ok(PlayerContext(playerUrl, id, playerClass, playerConfig.entries,
        mediaUrl.value, mediaPlaylist.value));
    }

    /** Lines 36-80: one render, up to the values handed to the sub-template. */
    method Render(ctx: Context, settings: Settings, resolve: Resolver, reprOf: Value -> string)
      returns (r: Result<PlayerContext, Error>)
      modifies this`playerConfig, this`mediaElement, this`extraId, this`mediaUrl, this`mediaPlaylist
      modifies ctx, settings.DefaultFrame()
      ensures r == Rendered(playerUrl, playerClass, media, playerId,
        old(settings.ConfigValue()), old(ctx.entries), resolve, reprOf)
      ensures ConfigLoaded(settings, old(settings.ConfigValue()))
      ensures DefaultKey !in settings.config ==> fresh(playerConfig)
      // the counter, advanced even when the render raises later, and the
      // references, resolved once it has moved
      ensures match CounterStep(old(ctx.entries))
        case Ok(after) =>
          && ctx.entries == after
          && mediaElement == Some(ResolvedMedia(media, after, resolve))
          && extraId == Some(ExtraId(playerId, after, resolve))
        case Err(_) =>
          && ctx.entries == old(ctx.entries)
          && mediaElement == old(mediaElement) && extraId == old(extraId)
      // the media url and playlist, left as they were when the render raises
      ensures r.Ok? ==> mediaUrl == Some(r.value.mediaUrl) && mediaPlaylist == Some(r.value.mediaPlaylist)
      ensures r.Err? ==> mediaUrl == old(mediaUrl) && mediaPlaylist == old(mediaPlaylist)
    {
      ghost var before := settings.ConfigValue();
      LoadConfig(settings);
      var step := ctx.Advance();
      if step.Err? {
        return Err(step.error);
      }
      r := Present(ctx, resolve, reprOf);
      assert playerConfig.entries == EffectiveConfig(before, playerClass);
    }
  }
}
