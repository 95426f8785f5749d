/** `MediaAreaCoordinates._parse` and `MediaArea._parse`: the clickable
    areas drawn on a story. Coordinates and locations are floating-point on
    the wire; here they are carried as opaque reals that are only copied. */
module MediaAreas {
  import opened Wrappers
  import opened Raw

  datatype RawCoordinates = RawCoordinates(x: real, y: real, w: real, h: real, rotation: real, radius: Option<real>)

  datatype Coordinates = Coordinates(x: real, y: real, width: real, height: real, rotation: real, radius: Option<real>)

  datatype RawGeo = GeoPoint(long: real, lat: real) | GeoPointEmpty

  /** The wire kinds of a media area; `OtherArea` stands for every kind the
      decoder does not recognise (the input-side kinds among them). */
  datatype RawMediaArea =
    | MediaAreaGeoPoint(coordinates: RawCoordinates, geo: RawGeo)
    | MediaAreaVenue(coordinates: RawCoordinates, geo: RawGeo, title: string, address: string,
                     provider: string, venueId: string, venueType: string)
    | MediaAreaSuggestedReaction(coordinates: RawCoordinates, reaction: Blob, dark: bool, flipped: bool)
    | MediaAreaChannelPost(coordinates: RawCoordinates, channelId: int, msgId: int)
    | MediaAreaUrl(coordinates: RawCoordinates, url: string)
    | MediaAreaWeather(coordinates: RawCoordinates)
    | MediaAreaStarGift(coordinates: RawCoordinates)
    | OtherArea(blob: Blob)

  datatype Location = Location(longitude: real, latitude: real)

  datatype Venue = Venue(location: Location, title: string, address: string,
                         foursquareId: Option<string>, foursquareType: Option<string>)

  datatype MediaArea = MediaArea(
    coordinates: Coordinates,
    kind: string,
    geo: Option<Location>,
    venue: Option<Venue>,
    reaction: Option<Nested>,
    channelId: Option<int>,
    messageId: Option<int>,
    url: Option<string>,
    isDark: Option<bool>,
    isFlipped: Option<bool>)

  /** `MediaAreaCoordinates._parse`: `w` and `h` become width and height. */
  function ParseCoordinates(c: RawCoordinates): (r: Coordinates)
    ensures r.x == c.x && r.y == c.y && r.rotation == c.rotation && r.radius == c.radius
    ensures r.width == c.w && r.height == c.h
  {
    Coordinates(c.x, c.y, c.w, c.h, c.rotation, c.radius)
  }

  /** The inverse of ParseCoordinates: nothing is lost. */
  function WriteCoordinates(c: Coordinates): (r: RawCoordinates)
    ensures r.w == c.width && r.h == c.height
  {
    RawCoordinates(c.x, c.y, c.width, c.height, c.rotation, c.radius)
  }

  lemma CoordinatesRoundTrip(c: RawCoordinates)
    ensures WriteCoordinates(ParseCoordinates(c)) == c
  {
  }

  /** The type string of each recognised kind. */
  function KindName(a: RawMediaArea): string
    requires !a.OtherArea?
  {
    match a
    case MediaAreaGeoPoint(_, _) => "geo"
    case MediaAreaVenue(_, _, _, _, _, _, _) => "venue"
    case MediaAreaSuggestedReaction(_, _, _, _) => "reaction"
    case MediaAreaChannelPost(_, _, _) => "channel_post"
    case MediaAreaUrl(_, _) => "url"
    case MediaAreaWeather(_) => "weather"
    case MediaAreaStarGift(_) => "star_gift"
  }

  /** A longitude or latitude of a venue: the point's, or 0 for an empty point. */
  function VenueLocation(g: RawGeo): (r: Location)
    ensures g.GeoPoint? ==> r == Location(g.long, g.lat)
    ensures g.GeoPointEmpty? ==> r == Location(0.0, 0.0)
  {
    if g.GeoPoint? then Location(g.long, g.lat) else Location(0.0, 0.0)
  }

  /** A bare area of a kind: coordinates and type, every other field None. */
  function Bare(coordinates: RawCoordinates, kind: string): MediaArea {
    MediaArea(ParseCoordinates(coordinates), kind, None, None, None, None, None, None, None, None)
  }

  /** `MediaArea._parse`: each recognised kind becomes an area of its own
      type with only that kind's fields set; any other kind is None. */
  function Parse(a: RawMediaArea): (r: Option<MediaArea>)
    ensures r.None? <==> a.OtherArea?
    ensures r.Some? ==> r.value.kind == KindName(a) && r.value.coordinates == ParseCoordinates(a.coordinates)
    ensures r.Some? ==> (r.value.geo.Some? <==> a.MediaAreaGeoPoint? && a.geo.GeoPoint?)
    ensures r.Some? && r.value.geo.Some? ==> r.value.geo.value == Location(a.geo.long, a.geo.lat)
    ensures r.Some? ==> (r.value.venue.Some? <==> a.MediaAreaVenue?)
    ensures r.Some? && a.MediaAreaVenue? ==> var v := r.value.venue.value;
      && v.location == VenueLocation(a.geo) && v.title == a.title && v.address == a.address
      && (v.foursquareId.Some? <==> a.provider == "foursquare")
      && (v.foursquareType.Some? <==> a.provider == "foursquare")
      && (a.provider == "foursquare" ==> v.foursquareId == Some(a.venueId) && v.foursquareType == Some(a.venueType))
    ensures r.Some? ==> (r.value.reaction.Some? <==> a.MediaAreaSuggestedReaction?)
    ensures r.Some? && a.MediaAreaSuggestedReaction? ==>
      && r.value.reaction == Some(Nested(ReactionParser, a.reaction))
      && r.value.isDark == OrNone(a.dark) && r.value.isFlipped == OrNone(a.flipped)
    ensures r.Some? && !a.MediaAreaSuggestedReaction? ==> r.value.isDark.None? && r.value.isFlipped.None?
    ensures r.Some? ==> (r.value.channelId.Some? <==> a.MediaAreaChannelPost?)
    ensures r.Some? ==> (r.value.messageId.Some? <==> a.MediaAreaChannelPost?)
    ensures r.Some? && a.MediaAreaChannelPost? ==>
      r.value.channelId == Some(a.channelId) && r.value.messageId == Some(a.msgId)
    ensures r.Some? ==> (r.value.url.Some? <==> a.MediaAreaUrl?)
    ensures r.Some? && a.MediaAreaUrl? ==> r.value.url == Some(a.url)
  {
    match a
    case MediaAreaGeoPoint(c, g) =>
      var geo := if g.GeoPoint? then Some(Location(g.long, g.lat)) else None;
      Some(Bare(c, "geo").(geo := geo))
    case MediaAreaVenue(c, g, title, address, provider, venueId, venueType) =>
      var foursquare := provider == "foursquare";
      var venue := Venue(VenueLocation(g), title, address,
                         if foursquare then Some(venueId) else None,
                         if foursquare then Some(venueType) else None);
      Some(Bare(c, "venue").(venue := Some(venue)))
    case MediaAreaSuggestedReaction(c, reaction, dark, flipped) =>
      Some(Bare(c, "reaction").(reaction := Some(Nested(ReactionParser, reaction)),
                                isDark := OrNone(dark), isFlipped := OrNone(flipped)))
    case MediaAreaChannelPost(c, channelId, msgId) =>
      Some(Bare(c, "channel_post").(channelId := Some(channelId), messageId := Some(msgId)))
    case MediaAreaUrl(c, url) =>
      Some(Bare(c, "url").(url := Some(url)))
    case MediaAreaWeather(c) => Some(Bare(c, "weather"))
    case MediaAreaStarGift(c) => Some(Bare(c, "star_gift"))
    case OtherArea(_) => None
  }

  /** Which recognised kind an area is, as a number. */
  function Tag(a: RawMediaArea): nat {
    match a
    case MediaAreaGeoPoint(_, _) => 0
    case MediaAreaVenue(_, _, _, _, _, _, _) => 1
    case MediaAreaSuggestedReaction(_, _, _, _) => 2
    case MediaAreaChannelPost(_, _, _) => 3
    case MediaAreaUrl(_, _) => 4
    case MediaAreaWeather(_) => 5
    case MediaAreaStarGift(_) => 6
    case OtherArea(_) => 7
  }

  /** The type string tells the kind apart: two recognised areas have the
      same type exactly when they are the same kind of wire area. */
  lemma KindNamesDistinct(a: RawMediaArea, b: RawMediaArea)
    requires !a.OtherArea? && !b.OtherArea?
    ensures KindName(a) == KindName(b) <==> Tag(a) == Tag(b)
  {
  }
}
