/** `TrackService`: the `track.*` calls, plus the batch scrobble. Tagging, love/unlove, tag
    removal, now-playing and scrobbling are signed POSTs; every lookup is unsigned.

    Several names are reproduced exactly as the service sends them: `unlove` sends
    `track.love`, `scrobble` sends `album.scrobble`, `getTopTagsByMBID` sends the MBID
    under `bdid`, and the scrobble limit is 10 although its message says 50. */
module TrackService {
  import opened Wire
  import opened Strings

  function AddTags(session: Session, artist: string, track: string, tags: seq<string>): (o: Outcome)
    ensures o == NoCall <==> |tags| == 0
    ensures o == InvalidArgument(TagLimitMessage) <==> |tags| > MaxTags
    ensures o.Call? <==> 1 <= |tags| <= MaxTags
    ensures o.Call? ==> IsSignedPost(o, "track.addTags", session)
    ensures o.Call? ==> o.req.params == map["artist" := Str(artist), "track" := Str(track), "tags" := Str(Implode(',', tags))]
  {
    Tagging("track.addTags", map["artist" := Str(artist), "track" := Str(track)], tags, session)
  }

  function GetCorrection(artist: string, track: string): (o: Outcome)
    ensures IsUnsignedCall(o, "track.getCorrection")
    ensures o.req.params == map["artist" := Str(artist), "track" := Str(track)]
  {
    UnsignedCall("track.getCorrection", map["artist" := Str(artist), "track" := Str(track)])
  }

  function GetInfo(artist: string, track: string, username: Value := Null, autocorrect: bool := false): (o: Outcome)
    ensures IsUnsignedCall(o, "track.getInfo")
    ensures o.req.params.Keys == {"artist", "track", "autocorrect", "username"}
    ensures o.req.params["artist"] == Str(artist) && o.req.params["track"] == Str(track)
    ensures o.req.params["username"] == username
    ensures FlagParam(o.req.params, "autocorrect", autocorrect)
  {
    UnsignedCall("track.getInfo", map[
      "artist" := Str(artist),
      "track" := Str(track),
      "autocorrect" := Int(Flag(autocorrect)),
      "username" := username])
  }

  function GetInfoByMbid(mbid: Value, username: Value := Null, autocorrect: bool := false): (o: Outcome)
    ensures IsUnsignedCall(o, "track.getInfo")
    ensures o.req.params.Keys == {"mbid", "autocorrect", "username"}
    ensures o.req.params["mbid"] == mbid && o.req.params["username"] == username
    ensures FlagParam(o.req.params, "autocorrect", autocorrect)
  {
    UnsignedCall("track.getInfo", map[
      "mbid" := mbid,
      "autocorrect" := Int(Flag(autocorrect)),
      "username" := username])
  }

  function GetSimilar(artist: Value, track: string, limit: int := 10, autocorrect: bool := false): (o: Outcome)
    ensures IsUnsignedCall(o, "track.getSimilar")
    ensures o.req.params.Keys == {"artist", "track", "limit", "autocorrect"}
    ensures o.req.params["artist"] == artist && o.req.params["track"] == Str(track)
    ensures o.req.params["limit"] == Int(limit)
    ensures FlagParam(o.req.params, "autocorrect", autocorrect)
  {
    UnsignedCall("track.getSimilar", map[
      "artist" := artist,
      "track" := Str(track),
      "limit" := Int(limit),
      "autocorrect" := Int(Flag(autocorrect))])
  }

  function GetSimilarByMbid(mbid: Value, limit: int := 10, autocorrect: bool := false): (o: Outcome)
    ensures IsUnsignedCall(o, "track.getSimilar")
    ensures o.req.params.Keys == {"mbid", "limit", "autocorrect"}
    ensures o.req.params["mbid"] == mbid && o.req.params["limit"] == Int(limit)
    ensures FlagParam(o.req.params, "autocorrect", autocorrect)
  {
    UnsignedCall("track.getSimilar", map[
      "mbid" := mbid,
      "limit" := Int(limit),
      "autocorrect" := Int(Flag(autocorrect))])
  }

  /** The user name travels under the key `user`. */
  function GetTags(artist: Value, track: string, username: string, autocorrect: bool := false): (o: Outcome)
    ensures IsUnsignedCall(o, "track.getTags")
    ensures o.req.params.Keys == {"artist", "track", "user", "autocorrect"}
    ensures o.req.params["artist"] == artist && o.req.params["track"] == Str(track)
    ensures o.req.params["user"] == Str(username)
    ensures FlagParam(o.req.params, "autocorrect", autocorrect)
  {
    UnsignedCall("track.getTags", map[
      "artist" := artist,
      "track" := Str(track),
      "user" := Str(username),
      "autocorrect" := Int(Flag(autocorrect))])
  }

  function GetTagsByMbid(mbid: Value, username: string, autocorrect: bool := false): (o: Outcome)
    ensures IsUnsignedCall(o, "track.getTags")
    ensures o.req.params.Keys == {"mbid", "user", "autocorrect"}
    ensures o.req.params["mbid"] == mbid && o.req.params["user"] == Str(username)
    ensures FlagParam(o.req.params, "autocorrect", autocorrect)
  {
    UnsignedCall("track.getTags", map[
      "mbid" := mbid,
      "user" := Str(username),
      "autocorrect" := Int(Flag(autocorrect))])
  }

  function GetTopTags(artist: Value, track: string, autocorrect: bool := false): (o: Outcome)
    ensures IsUnsignedCall(o, "track.getTopTags")
    ensures o.req.params.Keys == {"artist", "track", "autocorrect"}
    ensures o.req.params["artist"] == artist && o.req.params["track"] == Str(track)
    ensures FlagParam(o.req.params, "autocorrect", autocorrect)
  {
    UnsignedCall("track.getTopTags", map[
      "artist" := artist,
      "track" := Str(track),
      "autocorrect" := Int(Flag(autocorrect))])
  }

  /** The identifier travels under the key `bdid`, not `mbid`. */
  function GetTopTagsByMbid(bdid: Value, autocorrect: bool := false): (o: Outcome)
    ensures IsUnsignedCall(o, "track.getTopTags")
    ensures o.req.params.Keys == {"bdid", "autocorrect"}
    ensures "mbid" !in o.req.params && o.req.params["bdid"] == bdid
    ensures FlagParam(o.req.params, "autocorrect", autocorrect)
  {
    UnsignedCall("track.getTopTags", map[
      "bdid" := bdid,
      "autocorrect" := Int(Flag(autocorrect))])
  }

  function Love(session: Session, artist: string, track: string): (o: Outcome)
    ensures IsSignedPost(o, "track.love", session)
    ensures o.req.params == map["artist" := Str(artist), "track" := Str(track)]
  {
    SignedCall("track.love", map["artist" := Str(artist), "track" := Str(track)], session, POST)
  }

  function RemoveTag(session: Session, artist: string, track: string, tag: string): (o: Outcome)
    ensures IsSignedPost(o, "track.removeTag", session)
    ensures o.req.params == map["artist" := Str(artist), "track" := Str(track), "tag" := Str(tag)]
  {
    SignedCall("track.removeTag", map["artist" := Str(artist), "track" := Str(track), "tag" := Str(tag)], session, POST)
  }

  function Search(track: string, limit: int := 50, page: int := 1): (o: Outcome)
    ensures IsUnsignedCall(o, "track.search")
    ensures o.req.params.Keys == {"track", "limit", "page"}
    ensures o.req.params["track"] == Str(track)
    ensures o.req.params["limit"] == Int(limit) && o.req.params["page"] == Int(page)
  {
    UnsignedCall("track.search", map["track" := Str(track), "limit" := Int(limit), "page" := Int(page)])
  }

  /** Sends `track.love`, exactly as `Love` does. */
  function Unlove(session: Session, artist: string, track: string): (o: Outcome)
    ensures o == Love(session, artist, track)
    ensures IsSignedPost(o, "track.love", session)
  {
    SignedCall("track.love", map["artist" := Str(artist), "track" := Str(track)], session, POST)
  }

  /** All eight fields are always sent; optional ones that were not given are null. */
  function UpdateNowPlaying(session: Session, artist: string, track: string, album: Value := Null,
                            trackNumber: Value := Null, context: Value := Null, mbid: Value := Null,
                            duration: Value := Null, albumArtist: Value := Null): (o: Outcome)
    ensures IsSignedPost(o, "track.updateNowPlaying", session)
    ensures o.req.params.Keys == {"artist", "track", "album", "trackNumber", "context", "mbid", "duration", "albumArtist"}
    ensures o.req.params["artist"] == Str(artist) && o.req.params["track"] == Str(track)
    ensures o.req.params["album"] == album && o.req.params["trackNumber"] == trackNumber
    ensures o.req.params["context"] == context && o.req.params["mbid"] == mbid
    ensures o.req.params["duration"] == duration && o.req.params["albumArtist"] == albumArtist
  {
    SignedCall("track.updateNowPlaying", map[
      "artist" := Str(artist),
      "track" := Str(track),
      "album" := album,
      "trackNumber" := trackNumber,
      "context" := context,
      "mbid" := mbid,
      "duration" := duration,
      "albumArtist" := albumArtist], session, POST)
  }

  /** Each by-MBID lookup calls the same API method as its by-name twin, and its
      parameters are the twin's with the identifier in place of `artist` and `track`;
      for top tags the identifier key is `bdid`. */
  lemma MbidTwins(artist: string, name: Value, track: string, mbid: Value, username: string, user: Value, limit: int, autocorrect: bool)
    ensures GetInfoByMbid(mbid, user, autocorrect).req.apiMethod == GetInfo(artist, track, user, autocorrect).req.apiMethod
    ensures GetInfoByMbid(mbid, user, autocorrect).req.params
         == (GetInfo(artist, track, user, autocorrect).req.params - {"artist", "track"})["mbid" := mbid]
    ensures GetSimilarByMbid(mbid, limit, autocorrect).req.apiMethod == GetSimilar(name, track, limit, autocorrect).req.apiMethod
    ensures GetSimilarByMbid(mbid, limit, autocorrect).req.params
         == (GetSimilar(name, track, limit, autocorrect).req.params - {"artist", "track"})["mbid" := mbid]
    ensures GetTagsByMbid(mbid, username, autocorrect).req.apiMethod == GetTags(name, track, username, autocorrect).req.apiMethod
    ensures GetTagsByMbid(mbid, username, autocorrect).req.params
         == (GetTags(name, track, username, autocorrect).req.params - {"artist", "track"})["mbid" := mbid]
    ensures GetTopTagsByMbid(mbid, autocorrect).req.apiMethod == GetTopTags(name, track, autocorrect).req.apiMethod
    ensures GetTopTagsByMbid(mbid, autocorrect).req.params
         == (GetTopTags(name, track, autocorrect).req.params - {"artist", "track"})["bdid" := mbid]
  {
  }

  /** What an omitted optional argument becomes on the wire. */
  lemma Defaults(artist: string, name: Value, track: string, session: Session)
    ensures GetInfo(artist, track).req.params["username"] == Null
    ensures GetInfo(artist, track).req.params["autocorrect"] == Int(0)
    ensures GetSimilar(name, track).req.params["limit"] == Int(10)
    ensures Search(track).req.params["limit"] == Int(50) && Search(track).req.params["page"] == Int(1)
    ensures UpdateNowPlaying(session, artist, track).req.params["album"] == Null
  {
  }

  // ---------------------------------------------------------------------------------
  // Batch scrobbling
  // ---------------------------------------------------------------------------------

  /** One scrobble entry: the caller's dictionary for one track. A key bound to null is
      present. */
  type Entry = map<string, Value>

  const MaxScrobbles := 10
  const ScrobbleLimitMessage := "A maximum of 50 tracks is allowed"
  const RequiredFields: seq<string> := ["artist", "track", "timestamp"]
  const OptionalFields: seq<string> :=
    ["album", "context", "streamId", "chosenByUser", "trackNumber", "mbid", "albumArtist", "duration"]
  /** Every field copied into the batch, in the order they are copied. */
  const ScrobbleFields: seq<string> := RequiredFields + OptionalFields

  /** The batch key of `field` for the entry at position `i`: `field[i]`. */
  function IndexedKey(field: string, i: nat): string {
    field + "[" + Strings.NatToString(i) + "]"
  }

  /** `field[i]` is the field name, an opening bracket, digits that read back as `i`, and
      a closing bracket. */
  lemma IndexedKeyReadsBack(field: string, i: nat)
    ensures var k := IndexedKey(field, i);
      |k| >= |field| + 3 && k[..|field|] == field && k[|field|] == '[' && k[|k| - 1] == ']'
      && Strings.AllDigits(k[|field| + 1..|k| - 1]) && Strings.ParseNat(k[|field| + 1..|k| - 1]) == i
  {
    var k := IndexedKey(field, i);
    assert k[|field| + 1..|k| - 1] == Strings.NatToString(i);
    Strings.ParseNatToString(i);
  }

  function MissingFieldMessage(field: string, i: nat): string {
    "Field \"" + field + "\" not set on entry " + Strings.NatToString(i)
  }

  /** The missing-field error quotes the field and ends with digits that read back as the
      entry's position. */
  lemma MissingFieldMessageReadsBack(field: string, i: nat)
    ensures var m := MissingFieldMessage(field, i);
      |m| > |field| + 26 && m[..|field| + 26] == "Field \"" + field + "\" not set on entry "
      && Strings.AllDigits(m[|field| + 26..]) && Strings.ParseNat(m[|field| + 26..]) == i
  {
    var m := MissingFieldMessage(field, i);
    assert m[|field| + 26..] == Strings.NatToString(i);
    Strings.ParseNatToString(i);
  }

  predicate Complete(t: Entry) {
    forall f :: f in RequiredFields ==> f in t
  }

  /** Position of the first field of `fields` that `t` lacks, or `|fields|`. */
  function FirstAbsent(t: Entry, fields: seq<string>): (k: nat)
    ensures k <= |fields|
    ensures forall j :: 0 <= j < k ==> fields[j] in t
    ensures k < |fields| ==> fields[k] !in t
  {
    if fields == [] then 0 else if fields[0] !in t then 0 else 1 + FirstAbsent(t, fields[1..])
  }

  /** Position of the first entry that lacks a required field, or `|tracks|`. */
  function FirstIncomplete(tracks: seq<Entry>): (i: nat)
    ensures i <= |tracks|
    ensures forall j :: 0 <= j < i ==> Complete(tracks[j])
    ensures i < |tracks| ==> !Complete(tracks[i])
  {
    if tracks == [] then 0 else if !Complete(tracks[0]) then 0 else 1 + FirstIncomplete(tracks[1..])
  }

  /** The indexed fields contributed by the entry at position `i`, for those of `fields`
      that it has. */
  function EntryParams(t: Entry, i: nat, fields: seq<string>): Params {
    if fields == [] then map[]
    else
      var f := fields[|fields| - 1];
      EntryParams(t, i, fields[..|fields| - 1]) + (if f in t then map[IndexedKey(f, i) := t[f]] else map[])
  }

  /** The whole batch, entry by entry. `FlattenedSpec` gives its exact content. */
  function Flattened(tracks: seq<Entry>): Params {
    if tracks == [] then map[]
    else
      var n := |tracks| - 1;
      Flattened(tracks[..n]) + EntryParams(tracks[n], n, ScrobbleFields)
  }

  /** `data` is exactly the batch of `tracks`: `f[i]` holds entry i's value of f for every
      copied field f that entry i has, and there is no other key. */
  predicate Flattens(data: Params, tracks: seq<Entry>) {
    (forall i: nat, f :: i < |tracks| && f in ScrobbleFields && f in tracks[i] ==>
       IndexedKey(f, i) in data && data[IndexedKey(f, i)] == tracks[i][f])
    && (forall k :: k in data ==>
          exists i: nat, f :: i < |tracks| && f in ScrobbleFields && f in tracks[i] && k == IndexedKey(f, i))
  }

  /** What `scrobble` does, stated on values: nothing for an empty batch, a local error for
      more than ten entries or for the first entry lacking a required field, otherwise one
      signed POST of `album.scrobble` with the flattened batch. */
  function ScrobbleOutcome(session: Session, tracks: seq<Entry>): (o: Outcome)
    ensures o == NoCall <==> |tracks| == 0
    ensures |tracks| > MaxScrobbles ==> o == InvalidArgument(ScrobbleLimitMessage)
    ensures o.Call? ==> IsSignedPost(o, "album.scrobble", session)
  {
    if |tracks| == 0 then NoCall
    else if |tracks| > MaxScrobbles then InvalidArgument(ScrobbleLimitMessage)
    else
      var i := FirstIncomplete(tracks);
      if i < |tracks| then
        var k := FirstAbsent(tracks[i], RequiredFields);
        InvalidArgument(MissingFieldMessage(RequiredFields[k], i))
      else
        SignedCall("album.scrobble", Flattened(tracks), session, POST)
  }

  /** The batch scrobble as the service runs it: check the count, then walk the entries,
      checking the required fields in order and copying present fields into `data`. */
  method Scrobble(session: Session, tracks: seq<Entry>) returns (o: Outcome)
    ensures o == ScrobbleOutcome(session, tracks)
  {
    var count := |tracks|;
    if count == 0 {
      return NoCall;
    } else if count > MaxScrobbles {
      return InvalidArgument(ScrobbleLimitMessage);
    }

    var data: Params := map[];
    var i := 0;
    while i < count
      invariant 0 <= i <= count
      invariant forall j :: 0 <= j < i ==> Complete(tracks[j])
      invariant data == Flattened(tracks[..i])
    {
      var next, r := CopyEntry(tracks[i], i, data);
      if r < |RequiredFields| {
        ScrobbleNamesFirstMissing(session, tracks, i, r);
        return InvalidArgument(MissingFieldMessage(RequiredFields[r], i));
      }
      FlattenedStep(tracks, i);
      data := next;
      i := i + 1;
    }
    assert tracks[..count] == tracks;
    ScrobbleSendsBatch(session, tracks);
    o := SignedCall("album.scrobble", data, session, POST);
  }

  /** One pass of the loop body over the entry at position `i`: the required fields, then
      the optional ones. `r` is the position of the first missing required field (3 when
      the entry is complete); a complete entry's fields are added to `data`. */
  method CopyEntry(track: Entry, i: nat, data: Params) returns (out: Params, r: nat)
    ensures r == FirstAbsent(track, RequiredFields)
    ensures r == |RequiredFields| <==> Complete(track)
    ensures r == |RequiredFields| ==> out == data + EntryParams(track, i, ScrobbleFields)
  {
    out, r := CopyRequired(track, i, data);
    if r == |RequiredFields| {
      out := CopyOptional(data, track, i, out);
    } else {
      assert RequiredFields[r] in RequiredFields;
    }
  }

  /** The required-field pass over entry `i`: copies `artist`, `track` and `timestamp` in
      that order and stops at the first one the entry lacks. `r` is the position of that
      field (3 when none is missing) and `out` holds the fields copied before it. */
  method CopyRequired(track: Entry, i: nat, data: Params) returns (out: Params, r: nat)
    ensures r == FirstAbsent(track, RequiredFields)
    ensures out == data + EntryParams(track, i, ScrobbleFields[..r])
  {
    out := data;
    r := 0;
    while r < |RequiredFields|
      invariant 0 <= r <= |RequiredFields|
      invariant forall q :: 0 <= q < r ==> RequiredFields[q] in track
      invariant out == data + EntryParams(track, i, ScrobbleFields[..r])
    {
      var field := RequiredFields[r];
      if field !in track {
        break;
      }
      CopyField(data, track, i, ScrobbleFields, r);
      out := out[IndexedKey(field, i) := track[field]];
      r := r + 1;
    }
  }

  /** The optional-field pass over entry `i`: copies each optional field the entry has,
      completing the entry's part of the batch. */
  method CopyOptional(ghost base: Params, track: Entry, i: nat, data: Params) returns (out: Params)
    requires data == base + EntryParams(track, i, ScrobbleFields[..|RequiredFields|])
    ensures out == base + EntryParams(track, i, ScrobbleFields)
  {
    out := data;
    var q := 0;
    while q < |OptionalFields|
      invariant 0 <= q <= |OptionalFields|
      invariant out == base + EntryParams(track, i, ScrobbleFields[..|RequiredFields| + q])
    {
      var field := OptionalFields[q];
      CopyField(base, track, i, ScrobbleFields, |RequiredFields| + q);
      if field in track {
        out := out[IndexedKey(field, i) := track[field]];
      }
      q := q + 1;
    }
    assert ScrobbleFields[..|RequiredFields| + |OptionalFields|] == ScrobbleFields;
  }

  /** Copying the field at position `r` of `fields` extends the entry's indexed fields by
      that one field. */
  lemma CopyField(done: Params, t: Entry, i: nat, fields: seq<string>, r: nat)
    requires r < |fields|
    ensures fields[r] in t ==>
              (done + EntryParams(t, i, fields[..r]))[IndexedKey(fields[r], i) := t[fields[r]]]
              == done + EntryParams(t, i, fields[..r + 1])
    ensures fields[r] !in t ==>
              done + EntryParams(t, i, fields[..r]) == done + EntryParams(t, i, fields[..r + 1])
  {
    assert fields[..r + 1][..r] == fields[..r];
  }

  lemma FlattenedStep(tracks: seq<Entry>, i: nat)
    requires i < |tracks|
    ensures Flattened(tracks[..i + 1]) == Flattened(tracks[..i]) + EntryParams(tracks[i], i, ScrobbleFields)
  {
    assert tracks[..i + 1][..i] == tracks[..i];
  }

  lemma ScrobbleSendsBatch(session: Session, tracks: seq<Entry>)
    requires 1 <= |tracks| <= MaxScrobbles
    requires forall j :: 0 <= j < |tracks| ==> Complete(tracks[j])
    ensures ScrobbleOutcome(session, tracks) == SignedCall("album.scrobble", Flattened(tracks), session, POST)
  {
  }

  /** The error names the first required field (in the order artist, track, timestamp)
      missing from the first entry that lacks one, and that entry's position. */
  lemma ScrobbleNamesFirstMissing(session: Session, tracks: seq<Entry>, i: nat, r: nat)
    requires 1 <= |tracks| <= MaxScrobbles
    requires i < |tracks| && forall j :: 0 <= j < i ==> Complete(tracks[j])
    requires r < |RequiredFields| && RequiredFields[r] !in tracks[i]
    requires forall q :: 0 <= q < r ==> RequiredFields[q] in tracks[i]
    ensures ScrobbleOutcome(session, tracks) == InvalidArgument(MissingFieldMessage(RequiredFields[r], i))
  {
    var n := FirstIncomplete(tracks);
    assert !Complete(tracks[i]);
    assert n == i;
    var k := FirstAbsent(tracks[i], RequiredFields);
    assert k == r;
  }

  /** No scrobble field name contains '['. */
  lemma FieldsHaveNoBracket()
    ensures forall f :: f in ScrobbleFields ==> '[' !in f
  {
  }

  /** Keys of different entries, or of different fields, never collide. */
  lemma IndexedKeyInjective(f: string, i: nat, g: string, j: nat)
    requires '[' !in f && '[' !in g
    ensures IndexedKey(f, i) == IndexedKey(g, j) ==> f == g && i == j
  {
    if IndexedKey(f, i) == IndexedKey(g, j) {
      var s := IndexedKey(f, i);
      Strings.IndexOfAfterPrefix(f, '[', Strings.NatToString(i) + "]");
      Strings.IndexOfAfterPrefix(g, '[', Strings.NatToString(j) + "]");
      assert s == f + ['['] + (Strings.NatToString(i) + "]");
      assert s == g + ['['] + (Strings.NatToString(j) + "]");
      assert |f| == |g|;
      assert f == s[..|f|] == g;
      var tail := s[|f| + 1..];
      assert tail == Strings.NatToString(i) + "]" && tail == Strings.NatToString(j) + "]";
      assert Strings.NatToString(i) == tail[..|tail| - 1] == Strings.NatToString(j);
      Strings.NatToStringInjective(i, j);
    }
  }

  lemma {:induction false} EntryParamsSpec(t: Entry, i: nat, fields: seq<string>)
    ensures forall f :: f in fields && f in t ==>
              IndexedKey(f, i) in EntryParams(t, i, fields) && EntryParams(t, i, fields)[IndexedKey(f, i)] == t[f]
    ensures forall k :: k in EntryParams(t, i, fields) ==>
              exists f :: f in fields && f in t && k == IndexedKey(f, i)
  {
    if fields != [] {
      var init := fields[..|fields| - 1];
      var last := fields[|fields| - 1];
      EntryParamsSpec(t, i, init);
      assert fields == init + [last];
      forall f | f in fields
        ensures IndexedKey(f, i) == IndexedKey(last, i) ==> f == last
      {
        if IndexedKey(f, i) == IndexedKey(last, i) {
          assert |f| == |last|;
          assert f == IndexedKey(f, i)[..|f|];
          assert last == IndexedKey(last, i)[..|last|];
        }
      }
    }
  }

  /** The batch built entry by entry is exactly the one `Flattens` describes. */
  lemma {:induction false} FlattenedSpec(tracks: seq<Entry>)
    ensures Flattens(Flattened(tracks), tracks)
  {
    if tracks != [] {
      var n := |tracks| - 1;
      FlattenedSpec(tracks[..n]);
      FlattensExtend(Flattened(tracks[..n]), tracks);
    }
  }

  /** Adding the last entry's indexed fields to the batch of the earlier entries gives the
      batch of all of them. */
  lemma {:induction false} FlattensExtend(a: Params, tracks: seq<Entry>)
    requires |tracks| >= 1 && Flattens(a, tracks[..|tracks| - 1])
    ensures Flattens(a + EntryParams(tracks[|tracks| - 1], |tracks| - 1, ScrobbleFields), tracks)
  {
    {
      var n := |tracks| - 1;
      var init := tracks[..n];
      var e := EntryParams(tracks[n], n, ScrobbleFields);
      EntryParamsSpec(tracks[n], n, ScrobbleFields);
      FieldsHaveNoBracket();
      forall i: nat, f | i < n && f in ScrobbleFields
        ensures IndexedKey(f, i) !in e
      {
        forall g | g in ScrobbleFields
          ensures IndexedKey(f, i) != IndexedKey(g, n)
        {
          IndexedKeyInjective(f, i, g, n);
        }
      }
      forall k | k in a + e
        ensures exists i: nat, f :: i < |tracks| && f in ScrobbleFields && f in tracks[i] && k == IndexedKey(f, i)
      {
        if k in e {
          var f :| f in ScrobbleFields && f in tracks[n] && k == IndexedKey(f, n);
        } else {
          var i: nat, f :| i < |init| && f in ScrobbleFields && f in init[i] && k == IndexedKey(f, i);
          assert tracks[i] == init[i];
        }
      }
      forall i: nat, f | i < |tracks| && f in ScrobbleFields && f in tracks[i]
        ensures IndexedKey(f, i) in a + e && (a + e)[IndexedKey(f, i)] == tracks[i][f]
      {
        if i < n {
          assert tracks[i] == init[i];
        }
      }
    }
  }

  /** At most one map is the batch of a given list of entries. */
  lemma FlattensUnique(d1: Params, d2: Params, tracks: seq<Entry>)
    requires Flattens(d1, tracks) && Flattens(d2, tracks)
    ensures d1 == d2
  {
    forall k | k in d1
      ensures k in d2 && d2[k] == d1[k]
    {
      var i: nat, f :| i < |tracks| && f in ScrobbleFields && f in tracks[i] && k == IndexedKey(f, i);
    }
    forall k | k in d2
      ensures k in d1
    {
      var i: nat, f :| i < |tracks| && f in ScrobbleFields && f in tracks[i] && k == IndexedKey(f, i);
    }
  }

  /** A batch is sent exactly when it has one to ten entries, each with artist, track and
      timestamp; it is then one signed POST of `album.scrobble` whose parameters are the
      batch, so that `artist[i]`, `track[i]` and `timestamp[i]` carry entry i's values. */
  lemma ScrobbleAccepts(session: Session, tracks: seq<Entry>)
    ensures ScrobbleOutcome(session, tracks).Call?
        <==> 1 <= |tracks| <= MaxScrobbles && forall j :: 0 <= j < |tracks| ==> Complete(tracks[j])
    ensures ScrobbleOutcome(session, tracks).Call? ==>
              IsSignedPost(ScrobbleOutcome(session, tracks), "album.scrobble", session)
              && Flattens(ScrobbleOutcome(session, tracks).req.params, tracks)
    ensures ScrobbleOutcome(session, tracks).Call? ==>
              forall i: nat, f :: i < |tracks| && f in RequiredFields ==>
                IndexedKey(f, i) in ScrobbleOutcome(session, tracks).req.params
                && ScrobbleOutcome(session, tracks).req.params[IndexedKey(f, i)] == tracks[i][f]
  {
    FlattenedSpec(tracks);
    if 1 <= |tracks| <= MaxScrobbles && FirstIncomplete(tracks) < |tracks| {
      var i := FirstIncomplete(tracks);
      assert !Complete(tracks[i]);
    }
  }

  /** A required field bound to null counts as present: a one-entry batch whose
      timestamp is null is sent, with `timestamp[0]` null. */
  lemma NullTimestampAccepted(session: Session)
    ensures ScrobbleOutcome(session, [NullTimestampEntry()])
         == SignedCall("album.scrobble", NullTimestampBatch(), session, POST)
  {
    NullTimestampFlattens();
    FlattenedSpec([NullTimestampEntry()]);
    FlattensUnique(Flattened([NullTimestampEntry()]), NullTimestampBatch(), [NullTimestampEntry()]);
    ScrobbleSendsBatch(session, [NullTimestampEntry()]);
  }

  function NullTimestampEntry(): Entry {
    map["artist" := Str("a"), "track" := Str("b"), "timestamp" := Null]
  }

  function NullTimestampBatch(): Params {
    map["artist[0]" := Str("a"), "track[0]" := Str("b"), "timestamp[0]" := Null]
  }

  lemma NullTimestampFlattens()
    ensures Complete(NullTimestampEntry())
    ensures Flattens(NullTimestampBatch(), [NullTimestampEntry()])
  {
    var t := NullTimestampEntry();
    var expected := NullTimestampBatch();
    assert Strings.NatToString(0) == "0";
    assert "artist[0]" == IndexedKey("artist", 0);
    assert "track[0]" == IndexedKey("track", 0);
    assert "timestamp[0]" == IndexedKey("timestamp", 0);
    forall i: nat, f | i < 1 && f in ScrobbleFields && f in [t][i]
      ensures IndexedKey(f, i) in expected && expected[IndexedKey(f, i)] == [t][i][f]
    {
      assert f == "artist" || f == "track" || f == "timestamp";
    }
  }

  /** A batch whose second entry lacks its timestamp is refused, naming that field and
      position 1, even though the first entry is fine. */
  lemma MissingTimestampRejected(session: Session)
    ensures ScrobbleOutcome(session, [NullTimestampEntry(), NoTimestampEntry()])
         == InvalidArgument("Field \"timestamp\" not set on entry 1")
  {
    var tracks := [NullTimestampEntry(), NoTimestampEntry()];
    NullTimestampFlattens();
    NoTimestampFields();
    assert tracks[1] == NoTimestampEntry();
    ScrobbleNamesFirstMissing(session, tracks, 1, 2);
  }

  function NoTimestampEntry(): Entry {
    map["artist" := Str("a"), "track" := Str("b")]
  }

  lemma NoTimestampFields()
    ensures RequiredFields[0] in NoTimestampEntry() && RequiredFields[1] in NoTimestampEntry()
    ensures RequiredFields[2] !in NoTimestampEntry()
    ensures MissingFieldMessage(RequiredFields[2], 1) == "Field \"timestamp\" not set on entry 1"
  {
    assert Strings.NatToString(1) == "1";
  }
}
