/**
 * The `/api/streams` route: the bearer-token check, the list of live streams
 * (Stream Feeds activities mapped to the shape the pages display, with a
 * fixed fallback list when the feed cannot be read), and starting a stream
 * (a `go_live` activity posted to the global feed).
 *
 * Network calls, JWT verification and URI encoding are inputs: `jwtVerify`
 * stands for `jwt.verify` with the server's secret, `encode` for
 * `encodeURIComponent`, `feeds`/`feedsOk` for the outcome of the request to
 * Stream Feeds, and `now` for `new Date().toISOString()`.
 */
module StreamsRoute {
  import opened Wrappers
  import opened JsStrings

  const BearerPrefix := "Bearer "
  const NoTokenError := "No token provided"
  const FeedsBaseUrl := "https://api.stream-io-api.com/api/v1.0/feed"
  const LiveStreamsEndpoint := "/streams/global/?limit=25&filter=is_live:true"
  const GlobalFeedEndpoint := "/streams/global/"
  const DefaultThumbnail := "https://dummyimage.com/640x360/000/fff&text=Stream"
  const ThumbnailBase := "https://dummyimage.com/640x360/000/fff&text="
  const DefaultTitle := "Untitled Stream"
  const DefaultAddress := "0x123..."
  const DefaultCategory := "Gaming"
  const StartFailedError := "Failed to start stream"

  /** The claims `jwt.verify` returns; only `sub` is used. */
  datatype Claims = Claims(sub: string)

  datatype ResponseBody = OkBody | ErrorBody(error: string)

  /** A JSON response; `NextResponse.json` answers 200 unless told otherwise. */
  datatype Response = Response(status: nat, body: ResponseBody)

  /** A request to Stream Feeds, as built by `streamFeedsRequest`. */
  datatype FeedsRequest<T> = FeedsRequest(httpMethod: string, url: string, authorization: string, body: Option<T>)

  function FeedsCall<T>(endpoint: string, httpMethod: string, credential: string, data: Option<T>): FeedsRequest<T> {
    FeedsRequest(httpMethod, FeedsBaseUrl + endpoint, BearerPrefix + credential, data)
  }

  /** The result of a handler: its response and the Feeds request it made, if it got that far. */
  datatype Handled<T> = Handled(response: Response, request: Option<FeedsRequest<T>>)

  /** The key of a stream in the global feed. */
  function StreamKey(roomId: string): string {
    "stream:" + roomId
  }

  /**
   * What `verifyToken` passes on to `jwt.verify`: the header without its first
   * seven characters, provided it starts with exactly "Bearer " (the program
   * compares case-sensitively; the form is the header of section 2.1 of
   * RFC 6750).
   */
  function BearerToken(authHeader: Option<string>): (r: Result<string, string>)
    ensures r.Success? <==> authHeader.Some? && StartsWith(authHeader.value, BearerPrefix)
    ensures r.Failure? ==> r.error == NoTokenError
    ensures r.Success? ==> BearerPrefix + r.value == authHeader.value
  {
    if authHeader.Some? && StartsWith(authHeader.value, BearerPrefix)
    then Success(authHeader.value[7..])
    else Failure(NoTokenError)
  }

  /** The token a client puts after "Bearer " is the token the server verifies. */
  lemma BearerTokenRoundTrip(token: string)
    ensures BearerToken(Some(BearerPrefix + token)) == Success(token)
  {
    assert (BearerPrefix + token)[..7] == BearerPrefix;
    assert (BearerPrefix + token)[7..] == token;
  }

  /** `verifyToken`: no verification at all without the exact prefix. */
  function VerifyToken(authHeader: Option<string>, jwtVerify: string -> Result<Claims, string>): (r: Result<Claims, string>)
    ensures BearerToken(authHeader).Failure? ==> r == Failure(NoTokenError)
    ensures BearerToken(authHeader).Success? ==> r == jwtVerify(BearerToken(authHeader).value)
  {
    match BearerToken(authHeader)
    case Failure(e) => Failure(e)
    case Success(token) => jwtVerify(token)
  }

  // Starting a stream.

  datatype ActivityExtra = ActivityExtra(title: string, roomId: string, isLive: bool, thumbnail: string, category: string)

  /** The `go_live` activity posted to the global feed. */
  datatype Activity = Activity(actor: string, verb: string, objectId: string, foreignId: string, extra: ActivityExtra, time: string)

  /** The body of a start request, once parsed. */
  datatype StartRequest = StartRequest(roomId: string, title: string)

  function ActivityData(sub: string, req: StartRequest, now: string, encode: string -> string): (a: Activity)
    ensures a.actor == "user:" + sub && a.verb == "go_live"
    ensures a.objectId == a.foreignId == StreamKey(req.roomId)
    ensures a.extra == ActivityExtra(req.title, req.roomId, true, ThumbnailBase + encode(req.title), DefaultCategory)
    ensures a.time == now
  {
    Activity("user:" + sub, "go_live", StreamKey(req.roomId), StreamKey(req.roomId),
             ActivityExtra(req.title, req.roomId, true, ThumbnailBase + encode(req.title), DefaultCategory),
             now)
  }

  /**
   * `POST`: verify the token, read the body, post the activity. Any failure on
   * the way, whatever it is, ends in the same 500 response.
   */
  function Post(authHeader: Option<string>, body: Option<StartRequest>, jwtVerify: string -> Result<Claims, string>,
                apiSecret: string, now: string, encode: string -> string, feedsOk: bool): (r: Handled<Activity>)
    ensures r.response == Response(200, OkBody) || r.response == Response(500, ErrorBody(StartFailedError))
    ensures r.request.Some? <==> VerifyToken(authHeader, jwtVerify).Success? && body.Some?
    ensures r.request.Some? ==>
      r.request.value == FeedsCall(GlobalFeedEndpoint, "POST", apiSecret,
                                   Some(ActivityData(VerifyToken(authHeader, jwtVerify).value.sub, body.value, now, encode)))
    ensures r.response.status == 200 <==> r.request.Some? && feedsOk
  {
    var failed := Response(500, ErrorBody(StartFailedError));
    match VerifyToken(authHeader, jwtVerify)
    case Failure(_) => Handled(failed, None)
    case Success(user) =>
      match body
      case None => Handled(failed, None)
      case Some(req) =>
        var call := FeedsCall(GlobalFeedEndpoint, "POST", apiSecret, Some(ActivityData(user.sub, req, now, encode)));
        Handled(if feedsOk then Response(200, OkBody) else failed, Some(call))
  }

  // Listing live streams.

  /** An activity as the feed returns it; any field may be missing. */
  datatype FeedExtra = FeedExtra(title: Option<string>, thumbnail: Option<string>, isLive: Option<bool>, category: Option<string>)
  datatype FeedActivity = FeedActivity(
    id: Option<string>,
    foreignId: Option<string>,
    actor: Option<string>,
    time: Option<string>,
    extra: Option<FeedExtra>)

  datatype Streamer = Streamer(address: string, displayName: string)

  /** A stream as the pages display it (the random viewer count is not modelled). */
  datatype Stream = Stream(
    id: Option<string>,
    title: string,
    thumbnail: string,
    streamer: Streamer,
    isLive: bool,
    startedAt: Option<string>,
    category: string)

  function ExtraTitle(a: FeedActivity): Option<string> {
    if a.extra.Some? then a.extra.value.title else None
  }

  function ExtraThumbnail(a: FeedActivity): Option<string> {
    if a.extra.Some? then a.extra.value.thumbnail else None
  }

  function ExtraCategory(a: FeedActivity): Option<string> {
    if a.extra.Some? then a.extra.value.category else None
  }

  /** `extra_data?.is_live || false` */
  function ExtraIsLive(a: FeedActivity): bool {
    a.extra.Some? && a.extra.value.isLive == Some(true)
  }

  /**
   * `User ${actor?.slice(5, 11) || "Unknown"}...`: the actor's characters 5 to
   * 10 (those after "user:"), or "Unknown" when the actor is missing or has
   * nothing after its fifth character.
   */
  function DisplayName(actor: Option<string>): (r: string)
    ensures actor.None? || |actor.value| <= 5 ==> r == "User Unknown..."
    ensures actor.Some? && |actor.value| > 5 ==>
      r == "User " + actor.value[5..if |actor.value| < 11 then |actor.value| else 11] + "..."
  {
    "User " + OrElse(if actor.Some? then Some(Slice(actor.value, 5, 11)) else None, "Unknown") + "..."
  }

  /**
   * `actor?.replace('user:', '') || "0x123..."`: an actor "user:<sub>" gives
   * `<sub>`, an actor without "user:" anywhere is kept whole, any other actor
   * loses the first "user:" it contains, and an empty result or a missing
   * actor gives the placeholder address.
   */
  function StreamerAddress(actor: Option<string>): (r: string)
    ensures actor.None? ==> r == DefaultAddress
    ensures actor.Some? && StartsWith(actor.value, "user:") ==>
      r == (if |actor.value| > 5 then actor.value[5..] else DefaultAddress)
    ensures actor.Some? && (forall j: nat :: !OccursAt(actor.value, "user:", j)) ==>
      r == (if actor.value != "" then actor.value else DefaultAddress)
    ensures forall j: nat ::
      (actor.Some? && OccursAt(actor.value, "user:", j) && forall i: nat :: i < j ==> !OccursAt(actor.value, "user:", i)) ==>
      r == (if actor.value[..j] + actor.value[j + 5..] != "" then actor.value[..j] + actor.value[j + 5..] else DefaultAddress)
  {
    if actor.Some? && StartsWith(actor.value, "user:") then
      assert actor.value == "user:" + actor.value[5..];
      ReplaceUserPrefix(actor.value[5..]);
      OrElse(Some(ReplaceFirst(actor.value, "user:", "")), DefaultAddress)
    else
      OrElse(if actor.Some? then Some(ReplaceFirst(actor.value, "user:", "")) else None, DefaultAddress)
  }

  /** The GET handler's mapping of one feed activity. */
  function ToStream(a: FeedActivity): (s: Stream)
    ensures s.id == Some(if Truthy(a.foreignId) then a.foreignId.value else "stream:" + Interpolate(a.id))
    ensures s.title == (if Truthy(ExtraTitle(a)) then ExtraTitle(a).value else DefaultTitle)
    ensures s.category == (if Truthy(ExtraCategory(a)) then ExtraCategory(a).value else DefaultCategory)
    ensures s.isLive <==> a.extra.Some? && a.extra.value.isLive == Some(true)
    ensures s.thumbnail == (if Truthy(ExtraThumbnail(a)) then ExtraThumbnail(a).value else DefaultThumbnail)
    ensures a.actor.None? ==> s.streamer == Streamer(DefaultAddress, "User Unknown...")
    ensures a.actor.Some? && |a.actor.value| <= 5 ==> s.streamer.displayName == "User Unknown..."
    ensures a.actor.Some? && |a.actor.value| > 5 ==>
      s.streamer.displayName == "User " + a.actor.value[5..if |a.actor.value| < 11 then |a.actor.value| else 11] + "..."
    ensures a.actor.Some? && StartsWith(a.actor.value, "user:") ==>
      s.streamer.address == (if |a.actor.value| > 5 then a.actor.value[5..] else DefaultAddress)
    ensures s.streamer.address == StreamerAddress(a.actor)
    ensures s.startedAt == a.time
  {
    Stream(
      Some(if Truthy(a.foreignId) then a.foreignId.value else StreamKey(Interpolate(a.id))),
      OrElse(ExtraTitle(a), DefaultTitle),
      OrElse(ExtraThumbnail(a), DefaultThumbnail),
      Streamer(StreamerAddress(a.actor), DisplayName(a.actor)),
      ExtraIsLive(a),
      a.time,
      OrElse(ExtraCategory(a), DefaultCategory))
  }

  /**
   * The two streams shown when the feed cannot be read: both live and started
   * now, "stream:1" (Gaming, at the placeholder address) and "stream:2"
   * (Programming).
   */
  function FallbackStreams(now: string): (r: seq<Stream>)
    ensures |r| == 2
    ensures forall i :: 0 <= i < |r| ==> r[i].isLive && r[i].startedAt == Some(now)
    ensures r[0].id == Some("stream:1") && r[1].id == Some("stream:2")
    ensures r[0].category == DefaultCategory && r[0].streamer.address == DefaultAddress
    ensures r[1].category == "Programming" && r[0].streamer.address != r[1].streamer.address
  {
    [Stream(Some("stream:1"), "Gaming Stream", "https://dummyimage.com/640x360/000/fff&text=Gaming",
            Streamer("0x123...", "Gamer123"), true, Some(now), "Gaming"),
     Stream(Some("stream:2"), "Coding Live", "https://dummyimage.com/640x360/000/fff&text=Coding",
            Streamer("0x456...", "DevCoder"), true, Some(now), "Programming")]
  }

  /**
   * `GET`: `feeds` is the list of activities the feed returned, or None when
   * the request, its status or its body failed. One stream per activity, in
   * order; otherwise the fallback list.
   */
  function Get(feeds: Option<seq<FeedActivity>>, now: string): (r: seq<Stream>)
    ensures feeds.None? ==> r == FallbackStreams(now)
    ensures feeds.Some? ==> |r| == |feeds.value| && forall i :: 0 <= i < |r| ==> r[i] == ToStream(feeds.value[i])
  {
    match feeds
    case None => FallbackStreams(now)
    case Some(acts) => seq(|acts|, i requires 0 <= i < |acts| => ToStream(acts[i]))
  }

  /** The GET request the route makes to the feed. */
  function ListRequest(apiSecret: string): (r: FeedsRequest<Activity>)
    ensures r.httpMethod == "GET" && r.body.None? && r.authorization == BearerPrefix + apiSecret
    ensures r.url == FeedsBaseUrl + LiveStreamsEndpoint
  {
    FeedsCall(LiveStreamsEndpoint, "GET", apiSecret, None)
  }

  /** The activity as the feed stores it and later returns it, under the id the feed assigned. */
  function Stored(a: Activity, feedId: string): FeedActivity {
    FeedActivity(Some(feedId), Some(a.foreignId), Some(a.actor), Some(a.time),
                 Some(FeedExtra(Some(a.extra.title), Some(a.extra.thumbnail), Some(a.extra.isLive), Some(a.extra.category))))
  }

  lemma ReplaceUserPrefix(sub: string)
    ensures ReplaceFirst("user:" + sub, "user:", "") == sub
  {
    var s := "user:" + sub;
    assert s[0..5] == "user:";
    assert FindFrom(s, "user:", 0) == Some(0);
    assert s[..0] + "" + s[5..] == sub;
  }

  /**
   * Listing a stream that was started gives back what was posted: its key as
   * id, its title (unless empty), the poster's `sub` as address (the default
   * when `sub` is empty) with the first six characters of `sub` in the display
   * name, live, in the "Gaming" category, started when it was posted.
   */
  lemma StartedStreamListed(sub: string, req: StartRequest, now: string, encode: string -> string, feedId: string)
    ensures var s := ToStream(Stored(ActivityData(sub, req, now, encode), feedId));
      && s.id == Some(StreamKey(req.roomId))
      && s.title == (if req.title != "" then req.title else DefaultTitle)
      && s.streamer.address == (if sub != "" then sub else DefaultAddress)
      && s.streamer.displayName == "User " + (if sub != "" then sub[..if |sub| < 6 then |sub| else 6] else "Unknown") + "..."
      && s.isLive && s.category == DefaultCategory && s.startedAt == Some(now)
  {
    ReplaceUserPrefix(sub);
    var actor := "user:" + sub;
    var n := if |sub| < 6 then |sub| else 6;
    assert actor[5..5 + n] == sub[..n];
    assert Slice(actor, 5, 11) == sub[..n];
  }
}
