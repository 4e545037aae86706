/** The Location document (models/location.js) and the pickup validator. */
module LocationModel {
  import opened Common
  import opened Joi
  import opened ParcelModel

  /** A pickup point: who recorded it, a required region, and optional
      coordinates stored under the schema's spelling `cordinates`. */
  datatype Location = Location(userId: Id, region: string, cordinates: Coords)

  /** The Joi schema of `locationValidation`. */
  const LocationSchema: Schema := map[
    "pickRegion" := Rule(JoiString(0, None, false), true),
    "pickLat" := Rule(JoiNumber, false),
    "pickLng" := Rule(JoiNumber, false)
  ]

  /** The email checker handed to `Accepts` for a schema without an email
      rule; it is never asked. */
  function UnusedEmailCheck(s: string): bool { true }

  /** `locationValidation(data)` reports no error. */
  function LocationValidation(body: Body): (ok: bool)
    ensures ok ==> forall k :: k in body ==> k in {"pickRegion", "pickLat", "pickLng"}
    ensures ok ==> "pickRegion" in body && body["pickRegion"].JStr? && body["pickRegion"].s != ""
    ensures ok ==> "pickLat" in body ==> body["pickLat"].JNum? && SafeNumber(body["pickLat"].n)
    ensures ok ==> "pickLng" in body ==> body["pickLng"].JNum? && SafeNumber(body["pickLng"].n)
  {
    Accepts(UnusedEmailCheck, LocationSchema, body)
  }

  /** A region alone is a valid pickup request; safe coordinates may be
      added. */
  lemma RegionAloneAccepted(region: string, lat: Option<int>, lng: Option<int>)
    requires region != ""
    requires SafeCoords(Coords(lat, lng))
    ensures LocationValidation(map["pickRegion" := JStr(region)])
    ensures var b := map["pickRegion" := JStr(region)]
              + (if lat.Some? then map["pickLat" := JNum(lat.value)] else map[])
              + (if lng.Some? then map["pickLng" := JNum(lng.value)] else map[]);
            LocationValidation(b)
  {
  }

  /** The Location the pick handler builds for a validated request. */
  function NewLocation(userId: Id, body: Body): (l: Location)
    ensures l.userId == userId
    ensures l.cordinates == Coords(OptNumAt(body, "pickLat"), OptNumAt(body, "pickLng"))
    ensures LocationValidation(body) ==> l.region == body["pickRegion"].s && l.region != ""
  {
    Location(userId, StrAt(body, "pickRegion"),
             Coords(OptNumAt(body, "pickLat"), OptNumAt(body, "pickLng")))
  }
}
