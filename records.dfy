/** The unscored part of an assessment: background information and the two
    signatures, as held by the FSE compliance page. */
module Records {

  /** A map position. The page uses (0, 0) as "no location chosen yet". */
  datatype Coordinates = Coordinates(lat: real, lng: real)

  /** Part 1 of the form; none of it is scored. */
  datatype BackgroundInfo = BackgroundInfo(
    facilityName: string,
    address: string,
    ownerName: string,
    phoneNumber: string,
    email: string,
    inspectorName: string,
    inspectionDate: string,
    facilityType: string,
    coordinates: Coordinates)

  /** The background information a new page starts with. */
  const InitialBackground: BackgroundInfo :=
    BackgroundInfo("", "", "", "", "", "", "", "", Coordinates(0.0, 0.0))

  /** The background fields that have a text editor on the form. The
      facility type has none, so no event changes it. */
  datatype Field = FacilityName | OwnerName | PhoneNumber | Email | InspectorName | InspectionDate | Address

  /** The current text of an editable field. */
  function Get(info: BackgroundInfo, f: Field): string {
    match f
    case FacilityName => info.facilityName
    case OwnerName => info.ownerName
    case PhoneNumber => info.phoneNumber
    case Email => info.email
    case InspectorName => info.inspectorName
    case InspectionDate => info.inspectionDate
    case Address => info.address
  }

  /** The record after one editor reports new text (`{...backgroundInfo, [field]: value}`):
      that field reads back the new text, every other field, the facility
      type and the coordinates keep their values. */
  function WithField(info: BackgroundInfo, f: Field, value: string): (r: BackgroundInfo)
    ensures Get(r, f) == value
    ensures forall g :: g != f ==> Get(r, g) == Get(info, g)
    ensures r.facilityType == info.facilityType && r.coordinates == info.coordinates
  {
    match f
    case FacilityName => info.(facilityName := value)
    case OwnerName => info.(ownerName := value)
    case PhoneNumber => info.(phoneNumber := value)
    case Email => info.(email := value)
    case InspectorName => info.(inspectorName := value)
    case InspectionDate => info.(inspectionDate := value)
    case Address => info.(address := value)
  }

  /** Writing back a field's own text changes nothing, and of two edits to
      the same field only the second counts. */
  lemma WithFieldLaws(info: BackgroundInfo, f: Field, v: string, w: string)
    ensures WithField(info, f, Get(info, f)) == info
    ensures WithField(WithField(info, f, v), f, w) == WithField(info, f, w)
  {
  }

  /** Whether the page shows a location: only the latitude is compared with 0. */
  predicate HasCoordinates(info: BackgroundInfo) {
    info.coordinates.lat != 0.0
  }

  /** A location picked on the map replaces both the coordinates and the address. */
  function WithLocation(info: BackgroundInfo, coordinates: Coordinates, address: string): (r: BackgroundInfo)
    ensures r.coordinates == coordinates && r.address == address
    ensures r.(coordinates := info.coordinates, address := info.address) == info
  {
    info.(coordinates := coordinates, address := address)
  }

  /** Only latitude marks a location as chosen, so a point on the equator
      counts as "no location" whatever its longitude. */
  lemma EquatorCountsAsUnset(info: BackgroundInfo, lng: real)
    ensures !HasCoordinates(info.(coordinates := Coordinates(0.0, lng)))
  {
  }

  /** Signature handles are opaque strings; "" means "not signed" (the pad
      emits "" when cleared and an image data URL when a stroke ends). */
  datatype Signatures = Signatures(inspector: string, facilityOwner: string)

  const NoSignatures: Signatures := Signatures("", "")

  /** The completion gate: both parties have signed. */
  predicate BothSigned(s: Signatures) {
    s.inspector != "" && s.facilityOwner != ""
  }

  /** The image the results view shows for a signature. */
  function SignatureImage(signature: string): (src: string)
    ensures src != ""
    ensures signature != "" ==> src == signature
  {
    if signature != "" then signature else "/placeholder.svg"
  }
}
