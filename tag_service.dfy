/** `TagService`: the `tag.*` lookups. None of them takes a session; all are unsigned. */
module TagService {
  import opened Wire

  function GetInfo(tag: string, lang: Value := Null): (o: Outcome)
    ensures IsUnsignedCall(o, "tag.getInfo")
    ensures o.req.params.Keys == {"tag", "lang"}
    ensures o.req.params["tag"] == Str(tag) && o.req.params["lang"] == lang
  {
    UnsignedCall("tag.getInfo", map["tag" := Str(tag), "lang" := lang])
  }

  function GetSimilar(tag: Value): (o: Outcome)
    ensures IsUnsignedCall(o, "tag.getSimilar")
    ensures o.req.params == map["tag" := tag]
  {
    UnsignedCall("tag.getSimilar", map["tag" := tag])
  }

  function GetTopAlbums(tag: string, limit: int := 50, page: int := 1): (o: Outcome)
    ensures IsUnsignedCall(o, "tag.getTopAlbums")
    ensures o.req.params.Keys == {"tag", "limit", "page"}
    ensures o.req.params["tag"] == Str(tag)
    ensures o.req.params["limit"] == Int(limit) && o.req.params["page"] == Int(page)
  {
    UnsignedCall("tag.getTopAlbums", map["tag" := Str(tag), "limit" := Int(limit), "page" := Int(page)])
  }

  function GetTopArtists(tag: string, limit: int := 50, page: int := 1): (o: Outcome)
    ensures IsUnsignedCall(o, "tag.getTopArtists")
    ensures o.req.params.Keys == {"tag", "limit", "page"}
    ensures o.req.params["tag"] == Str(tag)
    ensures o.req.params["limit"] == Int(limit) && o.req.params["page"] == Int(page)
  {
    UnsignedCall("tag.getTopArtists", map["tag" := Str(tag), "limit" := Int(limit), "page" := Int(page)])
  }

  /** The global chart takes no argument and passes no parameter array; the base class's
      default for the missing array is taken to be the empty map. */
  function GetTopTags(): (o: Outcome)
    ensures IsUnsignedCall(o, "tag.getTopTags")
    ensures o.req.params == map[]
  {
    UnsignedCall("tag.getTopTags", map[])
  }

  function GetTopTracks(tag: string, limit: int := 50, page: int := 1): (o: Outcome)
    ensures IsUnsignedCall(o, "tag.getTopTracks")
    ensures o.req.params.Keys == {"tag", "limit", "page"}
    ensures o.req.params["tag"] == Str(tag)
    ensures o.req.params["limit"] == Int(limit) && o.req.params["page"] == Int(page)
  {
    UnsignedCall("tag.getTopTracks", map["tag" := Str(tag), "limit" := Int(limit), "page" := Int(page)])
  }

  function GetWeeklyChartList(tag: string): (o: Outcome)
    ensures IsUnsignedCall(o, "tag.getWeeklyChartList")
    ensures o.req.params == map["tag" := Str(tag)]
  {
    UnsignedCall("tag.getWeeklyChartList", map["tag" := Str(tag)])
  }

  /** Every tag lookup is an unsigned call in the `tag.` namespace. */
  lemma AllUnsignedInTagNamespace(tag: string, any: Value, lang: Value, limit: int, page: int)
    ensures forall o | o in [GetInfo(tag, lang), GetSimilar(any), GetTopAlbums(tag, limit, page),
                             GetTopArtists(tag, limit, page), GetTopTags(),
                             GetTopTracks(tag, limit, page), GetWeeklyChartList(tag)]
              :: o.Call? && o.req.mode == Unsigned && "tag." <= o.req.apiMethod
  {
  }

  /** What an omitted optional argument becomes on the wire. */
  lemma Defaults(tag: string)
    ensures GetInfo(tag).req.params["lang"] == Null
    ensures GetTopAlbums(tag).req.params["limit"] == Int(50) && GetTopAlbums(tag).req.params["page"] == Int(1)
    ensures GetTopArtists(tag).req.params["limit"] == Int(50) && GetTopArtists(tag).req.params["page"] == Int(1)
    ensures GetTopTracks(tag).req.params["limit"] == Int(50) && GetTopTracks(tag).req.params["page"] == Int(1)
  {
  }
}
