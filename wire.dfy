/** The request descriptor every service method hands to the dispatcher, and the pieces
    shared by the four services: boolean coercion and the tag-list guard.

    `signedCall` and `unsignedCall` of the services' common base class are not part of
    this model; here they only build the descriptor, so each service method becomes a
    total function from its arguments to an `Outcome`. */
module Wire {
  import Strings

  /** The three getters of a user session. */
  datatype Session = Session(name: string, key: string, subscriber: int)

  /** A parameter value as the services pass it on: a string, an integer or PHP null. */
  datatype Value = Str(s: string) | Int(n: int) | Null

  type Params = map<string, Value>

  datatype Verb = GET | POST

  /** Unsigned calls carry only a method and parameters; signed calls carry the session
      and the HTTP verb the service chose. */
  datatype Mode = Unsigned | Signed(session: Session, verb: Verb)

  datatype Request = Request(apiMethod: string, params: Params, mode: Mode)

  /** What one service method does: nothing, throw `InvalidArgumentException` before
      anything is sent, or issue exactly one call. */
  datatype Outcome = NoCall | Call(req: Request) | InvalidArgument(message: string)

  function UnsignedCall(apiMethod: string, params: Params): Outcome {
    Call(Request(apiMethod, params, Unsigned))
  }

  function SignedCall(apiMethod: string, params: Params, session: Session, verb: Verb): Outcome {
    Call(Request(apiMethod, params, Signed(session, verb)))
  }

  predicate IsUnsignedCall(o: Outcome, apiMethod: string) {
    o.Call? && o.req.apiMethod == apiMethod && o.req.mode == Unsigned
  }

  predicate IsSignedPost(o: Outcome, apiMethod: string, session: Session) {
    o.Call? && o.req.apiMethod == apiMethod && o.req.mode == Signed(session, POST)
  }

  /** PHP's `(int) $bool`. */
  function Flag(b: bool): (n: int)
    ensures n == 0 || n == 1
    ensures n == 1 <==> b
  {
    if b then 1 else 0
  }

  /** `key` holds the integer 0 or 1, and 1 exactly when `b` is true. */
  predicate FlagParam(p: Params, key: string, b: bool) {
    key in p && p[key].Int? && (p[key].n == 0 || p[key].n == 1) && (p[key].n == 1 <==> b)
  }

  const MaxTags := 10
  const TagLimitMessage := "A maximum of 10 tags is allowed"

  /** The guard and join shared by the three `addTags` methods: no tags is a silent no-op,
      more than ten is rejected locally, otherwise one signed POST carrying the target
      fields plus `tags`, the tags joined with commas. */
  function Tagging(apiMethod: string, target: Params, tags: seq<string>, session: Session): (o: Outcome)
    ensures o == NoCall <==> |tags| == 0
    ensures o == InvalidArgument(TagLimitMessage) <==> |tags| > MaxTags
    ensures o.Call? <==> 1 <= |tags| <= MaxTags
    ensures o.Call? ==> IsSignedPost(o, apiMethod, session)
    ensures o.Call? ==> o.req.params.Keys == target.Keys + {"tags"}
    ensures o.Call? ==> o.req.params["tags"] == Str(Strings.Implode(',', tags))
    ensures o.Call? ==> forall k :: k in target && k != "tags" ==> o.req.params[k] == target[k]
  {
    if |tags| == 0 then NoCall
    else if |tags| > MaxTags then InvalidArgument(TagLimitMessage)
    else SignedCall(apiMethod, target["tags" := Str(Strings.Implode(',', tags))], session, POST)
  }

  /** The joined `tags` field loses nothing: splitting it at commas gives back every tag in
      order, provided no tag itself contains a comma. */
  lemma TaggingKeepsTags(apiMethod: string, target: Params, tags: seq<string>, session: Session)
    requires 1 <= |tags| <= MaxTags
    requires forall k :: 0 <= k < |tags| ==> ',' !in tags[k]
    ensures Tagging(apiMethod, target, tags, session).Call?
    ensures Strings.Explode(',', Tagging(apiMethod, target, tags, session).req.params["tags"].s) == tags
  {
    Strings.ExplodeImplode(',', tags);
  }
}
