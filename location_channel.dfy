/** The live-location channel: a `sendLocation` event upserts the vehicle's
    last known position and then broadcasts a `locationUpdate` to every
    connected client; `/api/getLocation` reads the stored position back.
    A string vehicle number is matched exactly on both paths, with no case
    folding. */
module LocationChannel {
  import opened Models

  /** The outbound `locationUpdate` event. */
  datatype LocationUpdate = LocationUpdate(number: string, latitude: real, longitude: real, timestamp: int)

  /** The reply of `/api/getLocation`: `{ success: true, location }` or
      `{ success: false }`. */
  datatype LocationReply = Located(location: Location) | NoLocation

  type ClientId = nat

  /** Position `i` holds the first record with exactly this number. */
  ghost predicate FirstWith(vs: seq<Vehicle>, number: string, i: int)
  {
    && 0 <= i < |vs|
    && vs[i].number == number
    && forall j :: 0 <= j < i ==> vs[j].number != number
  }

  /** `findOneAndUpdate({ number }, { lastLocation }, { upsert: true })`:
      the first record with the number gets the new position; when there is
      none, one record holding only the number and the position is added. */
  function Upsert(vs: seq<Vehicle>, number: string, loc: Location): (r: seq<Vehicle>)
    ensures (forall j :: 0 <= j < |vs| ==> vs[j].number != number) ==> r == vs + [NewVehicle(number, loc)]
    ensures (exists j :: 0 <= j < |vs| && vs[j].number == number) ==>
      && |r| == |vs|
      && exists i :: && FirstWith(vs, number, i)
                     && r[i] == vs[i].(lastLocation := Some(loc))
                     && forall j :: 0 <= j < |vs| && j != i ==> r[j] == vs[j]
  {
    match FindFirst(vs, number)
    case None => vs + [NewVehicle(number, loc)]
    case Some(i) => vs[i := vs[i].(lastLocation := Some(loc))]
  }

  /** `io.emit("locationUpdate", u)`: every connected client's inbox grows by
      exactly `u`; no client is added or dropped. */
  function Broadcast(inboxes: map<ClientId, seq<LocationUpdate>>, u: LocationUpdate)
    : (r: map<ClientId, seq<LocationUpdate>>)
    ensures r.Keys == inboxes.Keys
    ensures forall c :: c in inboxes ==>
      |r[c]| == |inboxes[c]| + 1 && r[c][..|inboxes[c]|] == inboxes[c] && r[c][|inboxes[c]|] == u
  {
    map c | c in inboxes :: inboxes[c] + [u]
  }

  /** The `/api/getLocation` handler. */
  function GetLocation(vs: seq<Vehicle>, number: string): (r: LocationReply)
    ensures r.NoLocation? <==>
      || (forall j :: 0 <= j < |vs| ==> vs[j].number != number)
      || (exists i :: FirstWith(vs, number, i) && vs[i].lastLocation.None?)
    ensures r.Located? ==> exists i :: FirstWith(vs, number, i) && vs[i].lastLocation == Some(r.location)
  {
    match FindFirst(vs, number)
    case None => NoLocation
    case Some(i) =>
      assert FirstWith(vs, number, i);
      if vs[i].lastLocation.None? then NoLocation else Located(vs[i].lastLocation.value)
  }

  /** The first match is the one position `FirstWith` describes. */
  lemma FindFirstIs(vs: seq<Vehicle>, number: string, i: int)
    requires FirstWith(vs, number, i)
    ensures FindFirst(vs, number) == Some(i)
  {
    assert FindFirst(vs, number).Some?;
  }

  /** Two stores whose records carry the same numbers in the same order give
      the same first match. */
  lemma FindFirstSameNumbers(vs: seq<Vehicle>, ws: seq<Vehicle>, number: string)
    requires |vs| == |ws|
    requires forall j :: 0 <= j < |vs| ==> vs[j].number == ws[j].number
    ensures FindFirst(vs, number) == FindFirst(ws, number)
  {
    match FindFirst(vs, number)
    case None =>
    case Some(i) =>
      FindFirstIs(ws, number, i);
  }

  /** After a successful upsert, the location lookup for the same number
      returns exactly the position just written. */
  lemma UpsertThenGet(vs: seq<Vehicle>, number: string, loc: Location)
    ensures GetLocation(Upsert(vs, number, loc), number) == Located(loc)
  {
    var r := Upsert(vs, number, loc);
    match FindFirst(vs, number)
    case None =>
      FindFirstIs(r, number, |vs|);
    case Some(i) =>
      FindFirstSameNumbers(vs, r, number);
  }

  /** An upsert for one number changes no other number's lookup result. */
  lemma UpsertKeepsOtherLookups(vs: seq<Vehicle>, number: string, loc: Location, other: string)
    requires other != number
    ensures GetLocation(Upsert(vs, number, loc), other) == GetLocation(vs, other)
  {
    var r := Upsert(vs, number, loc);
    match FindFirst(vs, number)
    case None =>
      if FindFirst(vs, other).Some? {
        FindFirstIs(r, other, FindFirst(vs, other).value);
      }
    case Some(i) =>
      FindFirstSameNumbers(vs, r, other);
  }

  /** How many records carry exactly this number. */
  function Count(vs: seq<Vehicle>, number: string): nat
  {
    if |vs| == 0 then 0
    else (if vs[|vs| - 1].number == number then 1 else 0) + Count(vs[..|vs| - 1], number)
  }

  lemma {:induction false} CountZero(vs: seq<Vehicle>, number: string)
    ensures Count(vs, number) == 0 <==> forall j :: 0 <= j < |vs| ==> vs[j].number != number
  {
    if |vs| > 0 {
      CountZero(vs[..|vs| - 1], number);
      assert forall j :: 0 <= j < |vs| - 1 ==> vs[..|vs| - 1][j] == vs[j];
    }
  }

  lemma {:induction false} CountSameNumbers(vs: seq<Vehicle>, ws: seq<Vehicle>, number: string)
    requires |vs| == |ws|
    requires forall j :: 0 <= j < |vs| ==> vs[j].number == ws[j].number
    ensures Count(vs, number) == Count(ws, number)
  {
    if |vs| > 0 {
      CountSameNumbers(vs[..|vs| - 1], ws[..|ws| - 1], number);
    }
  }

  /** The upsert never duplicates: a number already present keeps its number
      of records, an absent one ends up with exactly one. */
  lemma UpsertCount(vs: seq<Vehicle>, number: string, loc: Location)
    ensures Count(Upsert(vs, number, loc), number) == if Count(vs, number) == 0 then 1 else Count(vs, number)
  {
    var r := Upsert(vs, number, loc);
    CountZero(vs, number);
    if FindFirst(vs, number).None? {
      assert r[..|r| - 1] == vs;
    } else {
      CountSameNumbers(vs, r, number);
    }
  }

  /** Repeating an update never adds a record: the store after two upserts
      of the same number is as long as after one, and the lookup returns the
      later position. */
  lemma UpsertTwice(vs: seq<Vehicle>, number: string, first: Location, second: Location)
    ensures |Upsert(Upsert(vs, number, first), number, second)| == |Upsert(vs, number, first)|
    ensures GetLocation(Upsert(Upsert(vs, number, first), number, second), number) == Located(second)
  {
    var r := Upsert(vs, number, first);
    UpsertThenGet(vs, number, first);
    assert FindFirst(r, number).Some?;
    UpsertThenGet(r, number, second);
  }

  /** Two broadcasts reach every client, in order. */
  lemma BroadcastTwice(inboxes: map<ClientId, seq<LocationUpdate>>, u1: LocationUpdate, u2: LocationUpdate)
    ensures Broadcast(Broadcast(inboxes, u1), u2).Keys == inboxes.Keys
    ensures forall c :: c in inboxes ==> Broadcast(Broadcast(inboxes, u1), u2)[c] == inboxes[c] + [u1, u2]
  {
    var r := Broadcast(Broadcast(inboxes, u1), u2);
    forall c | c in inboxes
      ensures r[c] == inboxes[c] + [u1, u2]
    {
      assert Broadcast(inboxes, u1)[c] == inboxes[c] + [u1];
      assert r[c] == inboxes[c] + [u1] + [u2];
    }
  }

  /** The in-memory view of the store and of the connected clients' inboxes. */
  class Channel {
    var vehicles: seq<Vehicle>
    var inboxes: map<ClientId, seq<LocationUpdate>>

    constructor (vehicles: seq<Vehicle>, clients: set<ClientId>)
      ensures this.vehicles == vehicles
      ensures inboxes.Keys == clients && forall c :: c in clients ==> inboxes[c] == []
    {
      this.vehicles := vehicles;
      inboxes := map c | c in clients :: [];
    }

    /** The `sendLocation` handler. `persistedAt` and `broadcastAt` are the two
        separate clock readings; `persistOk` is false when the store update
        throws, which is caught and does not stop the broadcast. */
    method SendLocation(number: string, latitude: real, longitude: real,
                        persistedAt: int, broadcastAt: int, persistOk: bool)
      modifies this
      ensures vehicles == if persistOk then Upsert(old(vehicles), number, Location(latitude, longitude, persistedAt))
                          else old(vehicles)
      ensures inboxes == Broadcast(old(inboxes), LocationUpdate(number, latitude, longitude, broadcastAt))
    {
      if persistOk {
        vehicles := Upsert(vehicles, number, Location(latitude, longitude, persistedAt));
      }
      inboxes := Broadcast(inboxes, LocationUpdate(number, latitude, longitude, broadcastAt));
    }

    /** Two identical `sendLocation` events: one record for the number, the
        lookup shows the position, and every client, sender included, holds
        two more events. */
    method SendLocationTwice(number: string, latitude: real, longitude: real,
                             t1: int, t2: int, b1: int, b2: int)
      modifies this
      ensures |vehicles| == |Upsert(old(vehicles), number, Location(latitude, longitude, t1))|
      ensures Count(vehicles, number) == if Count(old(vehicles), number) == 0 then 1 else Count(old(vehicles), number)
      ensures GetLocation(vehicles, number) == Located(Location(latitude, longitude, t2))
      ensures inboxes.Keys == old(inboxes).Keys
      ensures forall c :: c in inboxes ==>
        inboxes[c] == old(inboxes)[c] + [LocationUpdate(number, latitude, longitude, b1),
                                         LocationUpdate(number, latitude, longitude, b2)]
    {
      ghost var v0, i0 := vehicles, inboxes;
      SendLocation(number, latitude, longitude, t1, b1, true);
      ghost var v1 := vehicles;
      SendLocation(number, latitude, longitude, t2, b2, true);
      var first := Location(latitude, longitude, t1);
      UpsertTwice(v0, number, first, Location(latitude, longitude, t2));
      UpsertCount(v0, number, first);
      UpsertCount(v1, number, Location(latitude, longitude, t2));
      BroadcastTwice(i0, LocationUpdate(number, latitude, longitude, b1),
                     LocationUpdate(number, latitude, longitude, b2));
    }
  }
}
