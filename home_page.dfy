/**
 * The home page's logic: the streams it lists, how long each has been live,
 * and which room each card links to.
 *
 * The page maps the list route's response as if it held raw feed activities
 * (`foreign_id`, `actor`, `extra_data`, `time`), although that route already
 * returns shaped streams; both mappings are modelled as written.
 */
module HomePage {
  import opened Wrappers
  import opened JsStrings
  import opened DurationLabel
  import opened StreamsRoute

  const UnknownAddress := "unknown"

  /**
   * `formatDuration`, given the whole minutes since the stream started
   * (negative when the start lies ahead). The label loses nothing: reading it
   * back gives the minute count, negative counts included; it has an hours
   * part exactly from one hour on, and then its minutes part is below 60.
   */
  function FormatDuration(diff: int): (r: string)
    ensures ParseDuration(r) == Some(diff)
    ensures diff < 60 ==> r == MinutesLabel(diff)
    ensures diff >= 60 ==> exists h: nat, m: nat :: 1 <= h && m < 60 && r == HoursLabel(h, m)
  {
    if diff < 60 then
      ParseMinutesLabel(diff);
      MinutesLabel(diff)
    else
      ParseHoursLabel(diff / 60, diff % 60);
      HoursLabel(diff / 60, diff % 60)
  }

  /** The page's mapping of one entry of the list response. */
  function ActivityToStream(a: FeedActivity): (s: Stream)
    ensures s.id == a.foreignId && s.startedAt == a.time
    ensures s.title == (if Truthy(ExtraTitle(a)) then ExtraTitle(a).value else DefaultTitle)
    ensures s.streamer.address == (if Truthy(a.actor) then a.actor.value else UnknownAddress)
    ensures s.isLive <==> a.extra.Some? && a.extra.value.isLive == Some(true)
    ensures s.category == DefaultCategory
    ensures s.thumbnail == (if Truthy(ExtraThumbnail(a)) then ExtraThumbnail(a).value else DefaultThumbnail)
    ensures s.streamer.displayName == DisplayName(a.actor)
  {
    Stream(
      a.foreignId,
      OrElse(ExtraTitle(a), DefaultTitle),
      OrElse(ExtraThumbnail(a), DefaultThumbnail),
      Streamer(OrElse(a.actor, UnknownAddress), DisplayName(a.actor)),
      ExtraIsLive(a),
      a.time,
      DefaultCategory)
  }

  /** `stream.id || \`stream:${random}\`` */
  function StreamIdOf(id: Option<string>, randomSuffix: string): (streamId: string)
    ensures Truthy(id) ==> streamId == id.value
    ensures !Truthy(id) ==> streamId == "stream:" + randomSuffix
  {
    if Truthy(id) then id.value else StreamKey(randomSuffix)
  }

  /** The room a card links to: the second ':'-separated segment of the stream id, or the whole id when it has no ':'. */
  function RoomIdOf(streamId: string): (room: string)
    ensures ':' !in streamId ==> room == streamId
    ensures ':' in streamId ==> room == Split(streamId, ':')[1]
    ensures ':' !in room
  {
    if ':' in streamId then Split(streamId, ':')[1] else streamId
  }

  /** With `a` and `b` free of ':', both "a:b" and "a:b:rest" link to room `b`. */
  lemma RoomIdIsSecondSegment(a: string, b: string, rest: string)
    requires ':' !in a && ':' !in b
    ensures RoomIdOf(a + ":" + b) == b
    ensures RoomIdOf(a + ":" + b + ":" + rest) == b
  {
    assert (a + ":" + b)[|a|] == ':';
    SplitJoined(a, b, ':');
    assert Split(b, ':') == [b];
    var longer := a + ":" + b + ":" + rest;
    assert longer == a + [':'] + (b + [':'] + rest);
    assert longer[|a|] == ':';
    SplitJoined(a, b + [':'] + rest, ':');
    SplitJoined(b, rest, ':');
  }

  /** A stream key built from a ':'-free room id gives that room id back. */
  lemma RoomIdOfStreamKey(roomId: string)
    requires ':' !in roomId
    ensures RoomIdOf(StreamKey(roomId)) == roomId
  {
    assert StreamKey(roomId) == "stream" + ":" + roomId;
    RoomIdIsSecondSegment("stream", roomId, "");
  }

  /** A card made from a started stream's raw activity links to the room that was started. */
  lemma StartedStreamLinksToItsRoom(sub: string, req: StartRequest, now: string, encode: string -> string,
                                   feedId: string, randomSuffix: string)
    requires ':' !in req.roomId
    ensures var s := ActivityToStream(Stored(ActivityData(sub, req, now, encode), feedId));
      RoomIdOf(StreamIdOf(s.id, randomSuffix)) == req.roomId
  {
    RoomIdOfStreamKey(req.roomId);
  }

  /** An entry of the list route's response read as a raw activity: only its `id` field has a name the page looks for. */
  function ShapedAsRead(s: Stream): FeedActivity {
    FeedActivity(s.id, None, None, None, None)
  }

  /**
   * Reading the list route's own output, the page finds no `foreign_id`,
   * `actor`, `extra_data` or `time`: every card gets the default title,
   * "unknown" as address, is not live, and links to the random room.
   */
  lemma ShapedStreamReadAsActivity(s: Stream, randomSuffix: string)
    requires ':' !in randomSuffix
    ensures var card := ActivityToStream(ShapedAsRead(s));
      && card.id.None? && card.title == DefaultTitle && card.streamer.address == UnknownAddress
      && !card.isLive && card.startedAt.None?
      && RoomIdOf(StreamIdOf(card.id, randomSuffix)) == randomSuffix
  {
    RoomIdOfStreamKey(randomSuffix);
  }
}
