/**
 * The tag's compile step: `{% flowplayer media [class] [id] %}` split into its
 * words (tag name first), and the node built from them.
 */
module TagParser {
  import opened Wrappers
  import opened Values
  import opened Config
  import opened PlayerNode

  /** The references a tag carries: media, player class, player id reference. */
  datatype Tag = Tag(media: string, playerClass: Option<string>, playerId: Option<string>)

  const TooFewArguments := "'flowplayer' tag requires at least one argument."

  /**
   * The words decide by their count alone: three give a class, four give an id
   * reference but no class, and words past the fourth are ignored.
   */
  function ParseTag(args: seq<string>): (r: Result<Tag, Error>)
    ensures r.Err? <==> |args| < 2
    ensures r.Err? ==> r.error == TemplateSyntaxError(TooFewArguments)
    ensures r.Ok? ==> r.value.media == args[1]
    ensures r.Ok? ==> (r.value.playerClass.Some? <==> |args| == 3)
    ensures r.Ok? && r.value.playerClass.Some? ==> r.value.playerClass.value == args[2]
    ensures r.Ok? ==> (r.value.playerId.Some? <==> |args| == 4)
    ensures r.Ok? && r.value.playerId.Some? ==> r.value.playerId.value == args[3]
    ensures r.Ok? ==> r.value.playerClass.None? || r.value.playerId.None?
  {
    if |args| < 2 then Err(TemplateSyntaxError(TooFewArguments))
    else
      var playerClass := if |args| == 3 then Some(args[2]) else None;
      var playerId := if |args| == 4 then Some(args[3]) else None;
      Ok(Tag(args[1], playerClass, playerId))
  }

  /** A tag with five or more words is read as if it had only its first two. */
  lemma ExtraWordsIgnored(args: seq<string>)
    requires |args| >= 5
    ensures ParseTag(args) == ParseTag(args[..2])
  {
  }

  /** `do_flowplayer`: the node for a tag's words, or the syntax error. */
  method DoFlowplayer(args: seq<string>, settings: Settings) returns (r: Result<FlowPlayerNode, Error>)
    ensures r.Err? <==> ParseTag(args).Err?
    ensures r.Err? ==> r.error == ParseTag(args).error
    ensures r.Ok? ==>
      && fresh(r.value)
      && r.value.media == ParseTag(args).value.media
      && r.value.playerClass == ParseTag(args).value.playerClass
      && r.value.playerId == ParseTag(args).value.playerId
      && r.value.playerUrl == PlayerUrl(settings.flowplayerUrl, settings.mediaUrl)
  {
    match ParseTag(args) {
      case Err(e) =>
        r := Err(e);
      case Ok(tag) =>
        var node := new FlowPlayerNode(tag.media, tag.playerClass, tag.playerId, settings);
        r := Ok(node);
    }
  }
}
