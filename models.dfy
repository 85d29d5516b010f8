/** The stored documents of the vehicle registry (the Vehicle and EmailLog
    collections) and the one query the core runs on the Vehicle collection:
    `findOne({ number })`, the first record whose number equals the key exactly.
    Dates are integer millisecond counts. */
module Models {

  datatype Option<+T> = None | Some(value: T)

  /** A position as stored by the location channel. */
  datatype Location = Location(latitude: real, longitude: real, timestamp: int)

  /** A Vehicle document. `number` is the only required field; every other
      field may be absent from a stored document.
      The Vehicle schema declares no `lastLocation` path, so under the store's
      default strict mode an update of that path would be discarded; the field
      is kept here because the location handler is written to persist it. */
  datatype Vehicle = Vehicle(
    number: string,
    make: Option<string>,
    model: Option<string>,
    year: Option<int>,
    owner: Option<string>,
    ownerEmail: Option<string>,
    insuranceExpiry: Option<int>,
    pucExpiry: Option<int>,
    lastLocation: Option<Location>)

  /** The document an upsert creates when no vehicle has the number:
      only the filter key and the updated path are set. */
  function NewVehicle(number: string, loc: Location): Vehicle
  {
    Vehicle(number, None, None, None, None, None, None, None, Some(loc))
  }

  datatype Status = Sent | Failed

  /** The `info` payload: the transport's delivery receipt on success,
      the error message on failure. */
  datatype Info = Receipt(id: string) | ErrorMessage(message: string)

  /** An EmailLog document; `createdAt` is the store's creation timestamp. */
  datatype EmailLog = EmailLog(
    to: string,
    subject: string,
    body: string,
    vehicleNumber: string,
    status: Status,
    info: Info,
    createdAt: int)

  /** `findOne({ number })`: the position of the first record whose number
      equals `number` exactly (no case folding), or None. */
  function FindFirst(vs: seq<Vehicle>, number: string): (r: Option<nat>)
    ensures r.Some? ==> r.value < |vs| && vs[r.value].number == number
    ensures r.Some? ==> forall j :: 0 <= j < r.value ==> vs[j].number != number
    ensures r.None? <==> forall j :: 0 <= j < |vs| ==> vs[j].number != number
  {
    if |vs| == 0 then None
    else if vs[0].number == number then Some(0)
    else match FindFirst(vs[1..], number)
      case None => None
      case Some(i) => Some(i + 1)
  }
}
