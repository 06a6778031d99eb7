# Last.fm client services: request assembly

This project models the request-assembly layer of a PHP client for the Last.fm web
service. There are four stateless service classes: `AlbumService`, `ArtistService`,
`TagService` and `TrackService`. Each public method turns its arguments into exactly one
of three outcomes:

- no call at all (an empty tag list, an empty scrobble batch);
- a local `InvalidArgumentException`, raised before anything is sent (more than ten tags,
  more than ten scrobble entries, a scrobble entry lacking `artist`, `track` or `timestamp`);
- one request to the dispatcher. The request holds the API method name, the parameter
  map, and for signed calls the session and the HTTP verb.

The dispatcher's `signedCall` and `unsignedCall` belong to the services' common base
class, which is not part of this model. Here they only build a request descriptor
(`Wire.SignedCall`, `Wire.UnsignedCall`). Every service method therefore becomes a total
function from its arguments to `Wire.Outcome`.

Layout:

- `strings.dfy` (module `Strings`): PHP's `implode`, and its inverse `Explode`, used as
  the reference. Also the decimal rendering of an integer inside a string concatenation,
  and its inverse `ParseNat`.
- `wire.dfy` (module `Wire`): `Session`, `Value` (string, integer or null), `Params`,
  `Request`, `Outcome`, the `(int)` boolean coercion, and the tag-count guard and comma
  join that the three `addTags` methods share.
- `album_service.dfy`, `artist_service.dfy`, `tag_service.dfy`, `track_service.dfy`: one
  module per service class, one function per public method. Arguments the PHP code
  leaves untyped are `Value`s. Optional arguments keep the source's defaults as Dafny
  default parameter values.
- The batch scrobble is the one piece of step-by-step code. `TrackService.Scrobble` is a
  method with nested loops over the entries and the field lists, as in the source. It is
  proved equal to the value-level specification `TrackService.ScrobbleOutcome`, whose
  batch map is characterised by `Flattens`.

Several behaviours are reproduced exactly as the source has them, not corrected:

- `unlove` sends `track.love`.
- `scrobble` sends `album.scrobble`.
- `TrackService::getTopTagsByMBID` sends its identifier under `bdid`.
- The scrobble limit is 10, but its message says "A maximum of 50 tracks is allowed".
- The `getTags` lookups send the user name under `user`.

## Model

| member | source | states |
|---|---|---|
| `Wire.Flag` | src/Service/TrackService.php:85 | `(int)` of a boolean is 0 or 1, and 1 exactly when the boolean is true |
| `Wire.Tagging` | src/Service/TrackService.php:33-45 | the shared `addTags` guard: no tags means no call, more than 10 gives the "A maximum of 10 tags is allowed" error, 1 to 10 gives one signed POST whose params are the target fields plus `tags`, the tags joined with commas |
| `Wire.TaggingKeepsTags` | src/Service/TrackService.php:44 | the joined `tags` field still carries every tag in order: splitting it at commas gives the list back, if no tag contains a comma |
| `Strings.Implode` | src/Service/TrackService.php:44 | `implode(',', $tags)`: the parts in order with the separator between neighbours; empty for no parts, otherwise starting with the first part, ending with the last, one separator shorter than parts plus their characters |
| `Strings.ImplodeSeparators` | src/Service/AlbumService.php:45 | when no part contains the separator, the joined string holds exactly one separator fewer than there are parts |
| `Strings.ExplodeImplode` | src/Service/ArtistService.php:43 | `implode(',', …)` is undone by splitting at commas, for non-empty lists of comma-free parts |
| `Strings.NatToString` | src/Service/TrackService.php:305-307 | an entry position renders as a non-empty digit string with no leading zero |
| `Strings.ParseNatToString` | src/Service/TrackService.php:307 | reading the rendered position back gives the position |
| `Strings.NatToStringInjective` | src/Service/TrackService.php:307 | different positions render differently |
| `TrackService.AddTags` | src/Service/TrackService.php:31-46 | 0 tags: no call; more than 10: the local error; 1 to 10: one signed POST `track.addTags` with exactly `artist`, `track` and the comma-joined `tags` |
| `TrackService.GetCorrection` | src/Service/TrackService.php:59-65 | unsigned `track.getCorrection` with exactly `artist` and `track` |
| `TrackService.GetInfo` | src/Service/TrackService.php:80-88 | unsigned `track.getInfo` with exactly `artist`, `track`, `username` (as given, null by default) and `autocorrect` as 0/1 |
| `TrackService.GetInfoByMbid` | src/Service/TrackService.php:102-109 | unsigned `track.getInfo` with exactly `mbid`, `username` and `autocorrect` as 0/1 |
| `TrackService.GetSimilar` | src/Service/TrackService.php:125-133 | unsigned `track.getSimilar` with exactly `artist`, `track`, `limit` (default 10) and `autocorrect` as 0/1 |
| `TrackService.GetSimilarByMbid` | src/Service/TrackService.php:148-155 | unsigned `track.getSimilar` with exactly `mbid`, `limit` and `autocorrect` as 0/1 |
| `TrackService.GetTags` | src/Service/TrackService.php:170-178 | unsigned `track.getTags`; the user name goes under `user` |
| `TrackService.GetTagsByMbid` | src/Service/TrackService.php:192-199 | unsigned `track.getTags` with exactly `mbid`, `user` and `autocorrect` as 0/1 |
| `TrackService.GetTopTags` | src/Service/TrackService.php:213-220 | unsigned `track.getTopTags` with exactly `artist`, `track` and `autocorrect` as 0/1 |
| `TrackService.GetTopTagsByMbid` | src/Service/TrackService.php:233-239 | unsigned `track.getTopTags`; the identifier goes under `bdid` and there is no `mbid` key |
| `TrackService.Love` | src/Service/TrackService.php:251-257 | signed POST `track.love` with exactly `artist` and `track` |
| `TrackService.RemoveTag` | src/Service/TrackService.php:270-277 | signed POST `track.removeTag` with exactly `artist`, `track` and `tag` |
| `TrackService.Search` | src/Service/TrackService.php:335-342 | unsigned `track.search` with exactly `track`, `limit` and `page` |
| `TrackService.Unlove` | src/Service/TrackService.php:354-360 | produces the very request `Love` produces for the same arguments (method `track.love`) |
| `TrackService.UpdateNowPlaying` | src/Service/TrackService.php:378-390 | signed POST `track.updateNowPlaying` always carrying all eight fields; optional ones not given are null |
| `TrackService.MbidTwins` | src/Service/TrackService.php:80-239 | each by-MBID lookup calls its by-name twin's method; its params are the twin's with the identifier in place of `artist` and `track`, under `bdid` for top tags |
| `TrackService.Defaults` | src/Service/TrackService.php:80-378 | omitted arguments: `username` and `album` null, `autocorrect` 0, similar-limit 10, search limit 50 and page 1 |
| `TrackService.FirstAbsent` | src/Service/TrackService.php:303-306 | the position of the first listed field an entry lacks: all earlier ones present, this one absent |
| `TrackService.FirstIncomplete` | src/Service/TrackService.php:301-306 | the position of the first entry lacking a required field: all earlier entries complete, this one not |
| `TrackService.ScrobbleOutcome` | src/Service/TrackService.php:288-321 | no call exactly for an empty batch; more than 10 entries gives "A maximum of 50 tracks is allowed"; a call is always a signed POST `album.scrobble` |
| `TrackService.Scrobble` | src/Service/TrackService.php:288-321 | the loop as written (count check, required fields checked in order and copied, optional fields copied when present) yields exactly `ScrobbleOutcome` |
| `TrackService.CopyEntry` | src/Service/TrackService.php:302-317 | one pass of the loop body: reports the first missing required field, if any; the entry is complete exactly when none is missing, and then the batch grows by that entry's indexed fields |
| `TrackService.CopyRequired` | src/Service/TrackService.php:303-308 | checks `artist`, `track`, `timestamp` in order, stops at the first one absent, and has copied exactly the ones before it |
| `TrackService.CopyOptional` | src/Service/TrackService.php:311-315 | copies each of the eight optional fields the entry has, completing the entry's part of the batch |
| `TrackService.ScrobbleNamesFirstMissing` | src/Service/TrackService.php:300-306 | the error names the first missing required field (order artist, track, timestamp) of the first entry lacking one, with that entry's zero-based position |
| `TrackService.IndexedKey` | src/Service/TrackService.php:307 | the key `field[i]`; `IndexedKeyReadsBack` states its shape |
| `TrackService.IndexedKeyReadsBack` | src/Service/TrackService.php:307 | `field[i]` is the field name, `[`, digits that read back as `i`, then `]` |
| `TrackService.MissingFieldMessage` | src/Service/TrackService.php:305 | the `sprintf` error text; `MissingFieldMessageReadsBack` states its shape |
| `TrackService.MissingFieldMessageReadsBack` | src/Service/TrackService.php:305 | the error is `Field "<field>" not set on entry ` followed by digits that read back as the entry's position |
| `TrackService.IndexedKeyInjective` | src/Service/TrackService.php:307 | `field[i]` keys of different fields or positions never collide, so no copied value overwrites another |
| `TrackService.EntryParamsSpec` | src/Service/TrackService.php:303-315 | one entry contributes `f[i]` holding its value for each listed field it has, and no other key |
| `TrackService.Flattened` | src/Service/TrackService.php:298-318 | the `$data` the loop builds, entry by entry; `FlattenedSpec` states its content |
| `TrackService.FlattensExtend` | src/Service/TrackService.php:300-318 | adding entry n's indexed fields to the batch of entries 0 to n-1 gives the batch of entries 0 to n: no earlier key is overwritten |
| `TrackService.FlattenedSpec` | src/Service/TrackService.php:298-318 | the batch built entry by entry holds `f[i]` = entry i's value of f for every copied field f entry i has, and nothing else |
| `TrackService.FlattensUnique` | src/Service/TrackService.php:298-318 | that description pins the batch map down uniquely |
| `TrackService.ScrobbleAccepts` | src/Service/TrackService.php:290-320 | a call is made exactly for 1 to 10 complete entries; it is a signed POST `album.scrobble` whose params are the batch, with `artist[i]`, `track[i]` and `timestamp[i]` unchanged from entry i |
| `TrackService.NullTimestampAccepted` | src/Service/TrackService.php:304 | a required field bound to null counts as present: `timestamp[0]` is sent as null |
| `TrackService.MissingTimestampRejected` | src/Service/TrackService.php:304-305 | a batch whose second entry lacks `timestamp` gives `Field "timestamp" not set on entry 1` |
| `ArtistService.AddTags` | src/Service/ArtistService.php:31-45 | 0 tags: no call; more than 10: the local error; 1 to 10: one signed POST `artist.addTags` with exactly `artist` and the comma-joined `tags` |
| `ArtistService.GetCorrection` | src/Service/ArtistService.php:57-62 | unsigned `artist.getCorrection` with only `artist` |
| `ArtistService.GetInfo` | src/Service/ArtistService.php:74-79 | unsigned `artist.getInfo` with only `artist` |
| `ArtistService.GetSimilar` | src/Service/ArtistService.php:93-100 | unsigned `artist.getSimilar` with exactly `artist`, `limit` and `autocorrect` as 0/1 |
| `ArtistService.GetSimilarByMbid` | src/Service/ArtistService.php:114-121 | unsigned `artist.getSimilar` with exactly `mbid`, `limit` and `autocorrect` as 0/1 |
| `ArtistService.GetTags` | src/Service/ArtistService.php:136-143 | unsigned `artist.getTags`; the user name goes under `user` |
| `ArtistService.GetTagsByMbid` | src/Service/ArtistService.php:157-164 | unsigned `artist.getTags` with exactly `mbid`, `user` and `autocorrect` as 0/1 |
| `ArtistService.GetTopAlbums` | src/Service/ArtistService.php:179-187 | unsigned `artist.getTopAlbums` with exactly `artist`, `page`, `limit` and `autocorrect` as 0/1 |
| `ArtistService.GetTopAlbumsByMbid` | src/Service/ArtistService.php:202-210 | unsigned `artist.getTopAlbums` with `mbid` in place of `artist` |
| `ArtistService.GetTopTags` | src/Service/ArtistService.php:223-229 | unsigned `artist.getTopTags` with exactly `artist` and `autocorrect` as 0/1 |
| `ArtistService.GetTopTagsByMbid` | src/Service/ArtistService.php:242-248 | unsigned `artist.getTopTags` with exactly `mbid` and `autocorrect` as 0/1 |
| `ArtistService.GetTopTracks` | src/Service/ArtistService.php:263-271 | unsigned `artist.getTopTracks` with exactly `artist`, `page`, `limit` and `autocorrect` as 0/1 |
| `ArtistService.GetTopTracksByMbid` | src/Service/ArtistService.php:286-294 | unsigned `artist.getTopTracks` with `mbid` in place of `artist` |
| `ArtistService.RemoveTag` | src/Service/ArtistService.php:306-312 | signed POST `artist.removeTag` with exactly `artist` and `tag` |
| `ArtistService.Search` | src/Service/ArtistService.php:326-333 | unsigned `artist.search` with exactly `artist`, `limit` and `page` |
| `ArtistService.MbidTwins` | src/Service/ArtistService.php:93-294 | each by-MBID lookup calls its by-name twin's method, with params differing only in `mbid` replacing `artist` |
| `ArtistService.Defaults` | src/Service/ArtistService.php:93-326 | omitted arguments: similar-limit 50, top-albums/top-tracks page 1 and limit 10, search limit 50 and page 1, `autocorrect` 0 |
| `AlbumService.AddTags` | src/Service/AlbumService.php:32-47 | 0 tags: no call; more than 10: the local error; 1 to 10: one signed POST `album.addTags` with exactly `artist`, `album` and the comma-joined `tags` |
| `AlbumService.GetInfoByMbid` | src/Service/AlbumService.php:62-70 | unsigned `album.getInfo` with `mbid`, `username` and `lang` passed through (possibly null), `autocorrect` as 0/1 |
| `AlbumService.GetInfo` | src/Service/AlbumService.php:86-95 | unsigned `album.getInfo` with `artist`, `album`, `username` and `lang` passed through, `autocorrect` as 0/1 |
| `AlbumService.GetTags` | src/Service/AlbumService.php:110-118 | unsigned `album.getTags`; the user name goes under `user` |
| `AlbumService.GetTagsByMbid` | src/Service/AlbumService.php:132-139 | unsigned `album.getTags` with exactly `mbid`, `autocorrect` as 0/1 and `user` |
| `AlbumService.GetTopTags` | src/Service/AlbumService.php:153-160 | unsigned `album.getTopTags` with exactly `artist`, `album` and `autocorrect` as 0/1 |
| `AlbumService.GetTopTagsByMbid` | src/Service/AlbumService.php:173-179 | unsigned `album.getTopTags` with exactly `mbid` and `autocorrect` as 0/1 |
| `AlbumService.RemoveTag` | src/Service/AlbumService.php:192-199 | signed POST `album.removeTag` with exactly `artist`, `album` and `tag` |
| `AlbumService.Search` | src/Service/AlbumService.php:213-220 | unsigned `album.search` with exactly `album`, `limit` and `page` |
| `AlbumService.MbidTwins` | src/Service/AlbumService.php:62-179 | each by-MBID lookup calls its by-name twin's method; `mbid` replaces both `artist` and `album` |
| `AlbumService.Defaults` | src/Service/AlbumService.php:62-213 | omitted arguments: `username` and `lang` null, `autocorrect` 0, search limit 50 and page 1 |
| `TagService.GetInfo` | src/Service/TagService.php:30-36 | unsigned `tag.getInfo` with `tag` and `lang`, `lang` passed through even when null |
| `TagService.GetSimilar` | src/Service/TagService.php:48-53 | unsigned `tag.getSimilar` with only `tag` |
| `TagService.GetTopAlbums` | src/Service/TagService.php:67-74 | unsigned `tag.getTopAlbums` with exactly `tag`, `limit` and `page` |
| `TagService.GetTopArtists` | src/Service/TagService.php:88-95 | unsigned `tag.getTopArtists` with exactly `tag`, `limit` and `page` |
| `TagService.GetTopTags` | src/Service/TagService.php:105-108 | unsigned `tag.getTopTags`; no parameter array is passed, modelled as an empty map |
| `TagService.GetTopTracks` | src/Service/TagService.php:122-129 | unsigned `tag.getTopTracks` with exactly `tag`, `limit` and `page` |
| `TagService.GetWeeklyChartList` | src/Service/TagService.php:141-146 | unsigned `tag.getWeeklyChartList` with only `tag` |
| `TagService.AllUnsignedInTagNamespace` | src/Service/TagService.php:30-146 | every tag method makes an unsigned call whose method name starts with `tag.` |
| `TagService.Defaults` | src/Service/TagService.php:30-128 | omitted arguments: `lang` null, limit 50 and page 1 |

`Wire.Session` mirrors the three getters of src/Connection/SessionInterface.php:21-35.

## Left out

- The bodies of `signedCall` and `unsignedCall` are not part of this model. That covers signature hashing, dropping null parameters, adding the API key and method name, the HTTP exchange, and turning error responses into `ApiException` or `NotFoundException`. So nothing here claims that nulls are stripped or that signatures are deterministic. A request still carries null values exactly as the service passes them.
- The arrays returned by unsigned lookups are parsed response bodies. They are not modelled.
- The HTTP verb of unsigned calls is chosen inside `unsignedCall`, so an unsigned request records no verb.
- A missing session cannot occur: every signed method takes a non-nullable `SessionInterface`. The dispatcher's authentication failure therefore has no counterpart here.
- `Value` covers strings, integers and null. Scrobble entry values and untyped arguments of other PHP types (booleans, floats, arrays) are not distinguished. A scrobble entry that is not an array, which would be a PHP type error, is not modelled.
- TrackService.GetInfo: its `$autocorrect` is untyped in the source. It is modelled as `bool`, its documented type, so `(int)` of a non-boolean argument is not modelled.
- TrackService.GetInfoByMbid: its `$autocorrect` (src/Service/TrackService.php:102) is untyped too and is likewise modelled as `bool`, so `(int)` of a non-boolean argument is not modelled.
- TagService.GetTopTags: src/Service/TagService.php:107 calls `unsignedCall` without a parameter array. The model takes that as an empty map, which rests on `unsignedCall`'s default for `$params` being `[]`; that default lives in the services' base class, which is not part of this model.
- Key order inside a parameter map is not modelled; PHP arrays keep insertion order, maps here do not.
- Tags are strings. `implode` over tags of other types is not modelled.
