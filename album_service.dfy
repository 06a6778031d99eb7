/** `AlbumService`: the `album.*` calls. Tagging and tag removal are signed POSTs;
    every lookup is unsigned. */
module AlbumService {
  import opened Wire
  import opened Strings

  function AddTags(session: Session, artist: string, album: string, tags: seq<string>): (o: Outcome)
    ensures o == NoCall <==> |tags| == 0
    ensures o == InvalidArgument(TagLimitMessage) <==> |tags| > MaxTags
    ensures o.Call? <==> 1 <= |tags| <= MaxTags
    ensures o.Call? ==> IsSignedPost(o, "album.addTags", session)
    ensures o.Call? ==> o.req.params.Keys == {"artist", "album", "tags"}
    ensures o.Call? ==> o.req.params["artist"] == Str(artist) && o.req.params["album"] == Str(album)
    ensures o.Call? ==> o.req.params["tags"] == Str(Implode(',', tags))
  {
    Tagging("album.addTags", map["artist" := Str(artist), "album" := Str(album)], tags, session)
  }

  /** `username` and `lang` are passed on as given, null included. */
  function GetInfoByMbid(mbid: string, autocorrect: bool := false, username: Value := Null, lang: Value := Null): (o: Outcome)
    ensures IsUnsignedCall(o, "album.getInfo")
    ensures o.req.params.Keys == {"mbid", "autocorrect", "username", "lang"}
    ensures o.req.params["mbid"] == Str(mbid)
    ensures o.req.params["username"] == username && o.req.params["lang"] == lang
    ensures FlagParam(o.req.params, "autocorrect", autocorrect)
  {
    UnsignedCall("album.getInfo", map[
      "mbid" := Str(mbid),
      "autocorrect" := Int(Flag(autocorrect)),
      "username" := username,
      "lang" := lang])
  }

  function GetInfo(artist: Value, album: string, autocorrect: bool := false, username: Value := Null, lang: Value := Null): (o: Outcome)
    ensures IsUnsignedCall(o, "album.getInfo")
    ensures o.req.params.Keys == {"artist", "album", "autocorrect", "username", "lang"}
    ensures o.req.params["artist"] == artist && o.req.params["album"] == Str(album)
    ensures o.req.params["username"] == username && o.req.params["lang"] == lang
    ensures FlagParam(o.req.params, "autocorrect", autocorrect)
  {
    UnsignedCall("album.getInfo", map[
      "artist" := artist,
      "album" := Str(album),
      "autocorrect" := Int(Flag(autocorrect)),
      "username" := username,
      "lang" := lang])
  }

  /** The user name travels under the key `user`. */
  function GetTags(artist: Value, album: string, username: string, autocorrect: bool := false): (o: Outcome)
    ensures IsUnsignedCall(o, "album.getTags")
    ensures o.req.params.Keys == {"artist", "album", "autocorrect", "user"}
    ensures o.req.params["artist"] == artist && o.req.params["album"] == Str(album)
    ensures o.req.params["user"] == Str(username)
    ensures FlagParam(o.req.params, "autocorrect", autocorrect)
  {
    UnsignedCall("album.getTags", map[
      "artist" := artist,
      "album" := Str(album),
      "autocorrect" := Int(Flag(autocorrect)),
      "user" := Str(username)])
  }

  function GetTagsByMbid(mbid: Value, username: string, autocorrect: bool := false): (o: Outcome)
    ensures IsUnsignedCall(o, "album.getTags")
    ensures o.req.params.Keys == {"mbid", "autocorrect", "user"}
    ensures o.req.params["mbid"] == mbid && o.req.params["user"] == Str(username)
    ensures FlagParam(o.req.params, "autocorrect", autocorrect)
  {
    UnsignedCall("album.getTags", map[
      "mbid" := mbid,
      "autocorrect" := Int(Flag(autocorrect)),
      "user" := Str(username)])
  }

  function GetTopTags(artist: Value, album: string, autocorrect: bool := false): (o: Outcome)
    ensures IsUnsignedCall(o, "album.getTopTags")
    ensures o.req.params.Keys == {"artist", "album", "autocorrect"}
    ensures o.req.params["artist"] == artist && o.req.params["album"] == Str(album)
    ensures FlagParam(o.req.params, "autocorrect", autocorrect)
  {
    UnsignedCall("album.getTopTags", map[
      "artist" := artist,
      "album" := Str(album),
      "autocorrect" := Int(Flag(autocorrect))])
  }

  function GetTopTagsByMbid(mbid: Value, autocorrect: bool := false): (o: Outcome)
    ensures IsUnsignedCall(o, "album.getTopTags")
    ensures o.req.params.Keys == {"mbid", "autocorrect"}
    ensures o.req.params["mbid"] == mbid
    ensures FlagParam(o.req.params, "autocorrect", autocorrect)
  {
    UnsignedCall("album.getTopTags", map[
      "mbid" := mbid,
      "autocorrect" := Int(Flag(autocorrect))])
  }

  function RemoveTag(session: Session, artist: string, album: string, tag: string): (o: Outcome)
    ensures IsSignedPost(o, "album.removeTag", session)
    ensures o.req.params == map["artist" := Str(artist), "album" := Str(album), "tag" := Str(tag)]
  {
    SignedCall("album.removeTag", map["artist" := Str(artist), "album" := Str(album), "tag" := Str(tag)], session, POST)
  }

  function Search(album: string, limit: int := 50, page: int := 1): (o: Outcome)
    ensures IsUnsignedCall(o, "album.search")
    ensures o.req.params.Keys == {"album", "limit", "page"}
    ensures o.req.params["album"] == Str(album)
    ensures o.req.params["limit"] == Int(limit) && o.req.params["page"] == Int(page)
  {
    UnsignedCall("album.search", map[
      "album" := Str(album),
      "limit" := Int(limit),
      "page" := Int(page)])
  }

  /** Looking an album up by MBID calls the same API method as by name; the MBID replaces
      both `artist` and `album`. */
  lemma MbidTwins(artist: Value, album: string, mbid: string, id: Value, username: string, autocorrect: bool, user: Value, lang: Value)
    ensures GetInfoByMbid(mbid, autocorrect, user, lang).req.apiMethod
         == GetInfo(artist, album, autocorrect, user, lang).req.apiMethod
    ensures GetInfoByMbid(mbid, autocorrect, user, lang).req.params
         == (GetInfo(artist, album, autocorrect, user, lang).req.params - {"artist", "album"})["mbid" := Str(mbid)]
    ensures GetTagsByMbid(id, username, autocorrect).req.apiMethod == GetTags(artist, album, username, autocorrect).req.apiMethod
    ensures GetTagsByMbid(id, username, autocorrect).req.params
         == (GetTags(artist, album, username, autocorrect).req.params - {"artist", "album"})["mbid" := id]
    ensures GetTopTagsByMbid(id, autocorrect).req.apiMethod == GetTopTags(artist, album, autocorrect).req.apiMethod
    ensures GetTopTagsByMbid(id, autocorrect).req.params
         == (GetTopTags(artist, album, autocorrect).req.params - {"artist", "album"})["mbid" := id]
  {
  }

  /** What an omitted optional argument becomes on the wire. */
  lemma Defaults(artist: Value, album: string, mbid: string)
    ensures GetInfo(artist, album).req.params["username"] == Null && GetInfo(artist, album).req.params["lang"] == Null
    ensures GetInfoByMbid(mbid).req.params["username"] == Null && GetInfoByMbid(mbid).req.params["lang"] == Null
    ensures GetInfo(artist, album).req.params["autocorrect"] == Int(0)
    ensures Search(album).req.params["limit"] == Int(50) && Search(album).req.params["page"] == Int(1)
  {
  }
}
