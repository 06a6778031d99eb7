/** `ArtistService`: the `artist.*` calls. Tagging and tag removal are signed POSTs;
    every lookup is unsigned. Untyped PHP arguments are `Value`s. */
module ArtistService {
  import opened Wire
  import opened Strings

  function AddTags(session: Session, artist: string, tags: seq<string>): (o: Outcome)
    ensures o == NoCall <==> |tags| == 0
    ensures o == InvalidArgument(TagLimitMessage) <==> |tags| > MaxTags
    ensures o.Call? <==> 1 <= |tags| <= MaxTags
    ensures o.Call? ==> IsSignedPost(o, "artist.addTags", session)
    ensures o.Call? ==> o.req.params.Keys == {"artist", "tags"}
    ensures o.Call? ==> o.req.params["artist"] == Str(artist)
    ensures o.Call? ==> o.req.params["tags"] == Str(Implode(',', tags))
  {
    Tagging("artist.addTags", map["artist" := Str(artist)], tags, session)
  }

  function GetCorrection(artist: string): (o: Outcome)
    ensures IsUnsignedCall(o, "artist.getCorrection")
    ensures o.req.params == map["artist" := Str(artist)]
  {
    UnsignedCall("artist.getCorrection", map["artist" := Str(artist)])
  }

  function GetInfo(artist: string): (o: Outcome)
    ensures IsUnsignedCall(o, "artist.getInfo")
    ensures o.req.params == map["artist" := Str(artist)]
  {
    UnsignedCall("artist.getInfo", map["artist" := Str(artist)])
  }

  function GetSimilar(artist: string, limit: int := 50, autocorrect: bool := false): (o: Outcome)
    ensures IsUnsignedCall(o, "artist.getSimilar")
    ensures o.req.params.Keys == {"artist", "limit", "autocorrect"}
    ensures o.req.params["artist"] == Str(artist) && o.req.params["limit"] == Int(limit)
    ensures FlagParam(o.req.params, "autocorrect", autocorrect)
  {
    UnsignedCall("artist.getSimilar", map[
      "artist" := Str(artist),
      "limit" := Int(limit),
      "autocorrect" := Int(Flag(autocorrect))])
  }

  function GetSimilarByMbid(mbid: Value, limit: int := 50, autocorrect: bool := false): (o: Outcome)
    ensures IsUnsignedCall(o, "artist.getSimilar")
    ensures o.req.params.Keys == {"mbid", "limit", "autocorrect"}
    ensures o.req.params["mbid"] == mbid && o.req.params["limit"] == Int(limit)
    ensures FlagParam(o.req.params, "autocorrect", autocorrect)
  {
    UnsignedCall("artist.getSimilar", map[
      "mbid" := mbid,
      "limit" := Int(limit),
      "autocorrect" := Int(Flag(autocorrect))])
  }

  /** The user name travels under the key `user`. */
  function GetTags(artist: Value, username: string, autocorrect: bool := false): (o: Outcome)
    ensures IsUnsignedCall(o, "artist.getTags")
    ensures o.req.params.Keys == {"artist", "user", "autocorrect"}
    ensures o.req.params["artist"] == artist && o.req.params["user"] == Str(username)
    ensures FlagParam(o.req.params, "autocorrect", autocorrect)
  {
    UnsignedCall("artist.getTags", map[
      "artist" := artist,
      "user" := Str(username),
      "autocorrect" := Int(Flag(autocorrect))])
  }

  function GetTagsByMbid(mbid: Value, username: string, autocorrect: bool := false): (o: Outcome)
    ensures IsUnsignedCall(o, "artist.getTags")
    ensures o.req.params.Keys == {"mbid", "user", "autocorrect"}
    ensures o.req.params["mbid"] == mbid && o.req.params["user"] == Str(username)
    ensures FlagParam(o.req.params, "autocorrect", autocorrect)
  {
    UnsignedCall("artist.getTags", map[
      "mbid" := mbid,
      "user" := Str(username),
      "autocorrect" := Int(Flag(autocorrect))])
  }

  function GetTopAlbums(artist: Value, page: int := 1, limit: int := 10, autocorrect: bool := false): (o: Outcome)
    ensures IsUnsignedCall(o, "artist.getTopAlbums")
    ensures o.req.params.Keys == {"artist", "page", "limit", "autocorrect"}
    ensures o.req.params["artist"] == artist
    ensures o.req.params["page"] == Int(page) && o.req.params["limit"] == Int(limit)
    ensures FlagParam(o.req.params, "autocorrect", autocorrect)
  {
    UnsignedCall("artist.getTopAlbums", map[
      "artist" := artist,
      "page" := Int(page),
      "limit" := Int(limit),
      "autocorrect" := Int(Flag(autocorrect))])
  }

  function GetTopAlbumsByMbid(mbid: Value, page: int := 1, limit: int := 10, autocorrect: bool := false): (o: Outcome)
    ensures IsUnsignedCall(o, "artist.getTopAlbums")
    ensures o.req.params.Keys == {"mbid", "page", "limit", "autocorrect"}
    ensures o.req.params["mbid"] == mbid
    ensures o.req.params["page"] == Int(page) && o.req.params["limit"] == Int(limit)
    ensures FlagParam(o.req.params, "autocorrect", autocorrect)
  {
    UnsignedCall("artist.getTopAlbums", map[
      "mbid" := mbid,
      "page" := Int(page),
      "limit" := Int(limit),
      "autocorrect" := Int(Flag(autocorrect))])
  }

  function GetTopTags(artist: Value, autocorrect: bool := false): (o: Outcome)
    ensures IsUnsignedCall(o, "artist.getTopTags")
    ensures o.req.params.Keys == {"artist", "autocorrect"}
    ensures o.req.params["artist"] == artist
    ensures FlagParam(o.req.params, "autocorrect", autocorrect)
  {
    UnsignedCall("artist.getTopTags", map[
      "artist" := artist,
      "autocorrect" := Int(Flag(autocorrect))])
  }

  function GetTopTagsByMbid(mbid: Value, autocorrect: bool := false): (o: Outcome)
    ensures IsUnsignedCall(o, "artist.getTopTags")
    ensures o.req.params.Keys == {"mbid", "autocorrect"}
    ensures o.req.params["mbid"] == mbid
    ensures FlagParam(o.req.params, "autocorrect", autocorrect)
  {
    UnsignedCall("artist.getTopTags", map[
      "mbid" := mbid,
      "autocorrect" := Int(Flag(autocorrect))])
  }

  function GetTopTracks(artist: Value, page: int := 1, limit: int := 10, autocorrect: bool := false): (o: Outcome)
    ensures IsUnsignedCall(o, "artist.getTopTracks")
    ensures o.req.params.Keys == {"artist", "page", "limit", "autocorrect"}
    ensures o.req.params["artist"] == artist
    ensures o.req.params["page"] == Int(page) && o.req.params["limit"] == Int(limit)
    ensures FlagParam(o.req.params, "autocorrect", autocorrect)
  {
    UnsignedCall("artist.getTopTracks", map[
      "artist" := artist,
      "page" := Int(page),
      "limit" := Int(limit),
      "autocorrect" := Int(Flag(autocorrect))])
  }

  function GetTopTracksByMbid(mbid: Value, page: int := 1, limit: int := 10, autocorrect: bool := false): (o: Outcome)
    ensures IsUnsignedCall(o, "artist.getTopTracks")
    ensures o.req.params.Keys == {"mbid", "page", "limit", "autocorrect"}
    ensures o.req.params["mbid"] == mbid
    ensures o.req.params["page"] == Int(page) && o.req.params["limit"] == Int(limit)
    ensures FlagParam(o.req.params, "autocorrect", autocorrect)
  {
    UnsignedCall("artist.getTopTracks", map[
      "mbid" := mbid,
      "page" := Int(page),
      "limit" := Int(limit),
      "autocorrect" := Int(Flag(autocorrect))])
  }

  function RemoveTag(session: Session, artist: string, tag: string): (o: Outcome)
    ensures IsSignedPost(o, "artist.removeTag", session)
    ensures o.req.params == map["artist" := Str(artist), "tag" := Str(tag)]
  {
    SignedCall("artist.removeTag", map["artist" := Str(artist), "tag" := Str(tag)], session, POST)
  }

  function Search(artist: string, limit: int := 50, page: int := 1): (o: Outcome)
    ensures IsUnsignedCall(o, "artist.search")
    ensures o.req.params.Keys == {"artist", "limit", "page"}
    ensures o.req.params["artist"] == Str(artist)
    ensures o.req.params["limit"] == Int(limit) && o.req.params["page"] == Int(page)
  {
    UnsignedCall("artist.search", map[
      "artist" := Str(artist),
      "limit" := Int(limit),
      "page" := Int(page)])
  }

  /** Each by-MBID lookup calls the same API method as its by-name twin, and its
      parameters are the twin's with `mbid` in place of `artist`. */
  lemma MbidTwins(artist: string, name: Value, mbid: Value, username: string, page: int, limit: int, autocorrect: bool)
    ensures GetSimilarByMbid(mbid, limit, autocorrect).req.apiMethod == GetSimilar(artist, limit, autocorrect).req.apiMethod
    ensures GetSimilarByMbid(mbid, limit, autocorrect).req.params
         == (GetSimilar(artist, limit, autocorrect).req.params - {"artist"})["mbid" := mbid]
    ensures GetTagsByMbid(mbid, username, autocorrect).req.apiMethod == GetTags(name, username, autocorrect).req.apiMethod
    ensures GetTagsByMbid(mbid, username, autocorrect).req.params
         == (GetTags(name, username, autocorrect).req.params - {"artist"})["mbid" := mbid]
    ensures GetTopAlbumsByMbid(mbid, page, limit, autocorrect).req.apiMethod
         == GetTopAlbums(name, page, limit, autocorrect).req.apiMethod
    ensures GetTopAlbumsByMbid(mbid, page, limit, autocorrect).req.params
         == (GetTopAlbums(name, page, limit, autocorrect).req.params - {"artist"})["mbid" := mbid]
    ensures GetTopTagsByMbid(mbid, autocorrect).req.apiMethod == GetTopTags(name, autocorrect).req.apiMethod
    ensures GetTopTagsByMbid(mbid, autocorrect).req.params
         == (GetTopTags(name, autocorrect).req.params - {"artist"})["mbid" := mbid]
    ensures GetTopTracksByMbid(mbid, page, limit, autocorrect).req.apiMethod
         == GetTopTracks(name, page, limit, autocorrect).req.apiMethod
    ensures GetTopTracksByMbid(mbid, page, limit, autocorrect).req.params
         == (GetTopTracks(name, page, limit, autocorrect).req.params - {"artist"})["mbid" := mbid]
  {
  }

  /** What an omitted optional argument becomes on the wire. */
  lemma Defaults(artist: string, name: Value)
    ensures GetSimilar(artist).req.params["limit"] == Int(50)
    ensures GetTopAlbums(name).req.params["page"] == Int(1) && GetTopAlbums(name).req.params["limit"] == Int(10)
    ensures GetTopTracks(name).req.params["page"] == Int(1) && GetTopTracks(name).req.params["limit"] == Int(10)
    ensures Search(artist).req.params["limit"] == Int(50) && Search(artist).req.params["page"] == Int(1)
    ensures GetSimilar(artist).req.params["autocorrect"] == Int(0)
  {
  }
}
