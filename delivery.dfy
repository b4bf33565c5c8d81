/** The logistics service's delivery records, kept in a key-value store under
    their id: created PENDING or ASSIGNED, then re-statused or reassigned with
    no transition rules. */
module Delivery {
  import opened Wrappers

  datatype DeliveryStatus = PENDING | ASSIGNED | PICKED_UP | IN_TRANSIT | DELIVERED | CANCELLED

  /** The string value of each enum member. */
  function StatusName(s: DeliveryStatus): string
  {
    match s
    case PENDING => "PENDING"
    case ASSIGNED => "ASSIGNED"
    case PICKED_UP => "PICKED_UP"
    case IN_TRANSIT => "IN_TRANSIT"
    case DELIVERED => "DELIVERED"
    case CANCELLED => "CANCELLED"
  }

  /** The status a stored record carries. `updateStatus` stores the body's
      `status` unvalidated, so besides the enum's values a record can hold any
      other string (`Unlisted`), or no status at all (`Absent`: an absent body
      field is `undefined`, which `JSON.stringify` drops). */
  datatype StoredStatus = Known(status: DeliveryStatus) | Unlisted(text: string) | Absent

  /** What a body `status` becomes on the record. */
  function ParseStatus(body: Option<string>): (r: StoredStatus)
    ensures body.None? <==> r.Absent?
    ensures r.Known? ==> body == Some(StatusName(r.status))
    ensures r.Unlisted? ==> body == Some(r.text) && !IsStatusName(r.text)
  {
    match body
    case None => Absent
    case Some(t) =>
      if t == StatusName(PENDING) then Known(PENDING)
      else if t == StatusName(ASSIGNED) then Known(ASSIGNED)
      else if t == StatusName(PICKED_UP) then Known(PICKED_UP)
      else if t == StatusName(IN_TRANSIT) then Known(IN_TRANSIT)
      else if t == StatusName(DELIVERED) then Known(DELIVERED)
      else if t == StatusName(CANCELLED) then Known(CANCELLED)
      else Unlisted(t)
  }

  /** `t` is the value of some enum member. */
  predicate IsStatusName(t: string)
  {
    exists s: DeliveryStatus :: StatusName(s) == t
  }

  /** The `status` field of the serialised record (none when it is dropped). */
  function SerialisedStatus(r: StoredStatus): Option<string>
  {
    match r
    case Known(s) => Some(StatusName(s))
    case Unlisted(t) => Some(t)
    case Absent => None
  }

  /** A stored status is one `ParseStatus` can produce: an `Unlisted` text
      never spells an enum value. */
  predicate WellFormed(r: StoredStatus)
  {
    r.Unlisted? ==> !IsStatusName(r.text)
  }

  /** Whatever the body sends is stored and serialised back unchanged. */
  lemma ParseThenSerialise(body: Option<string>)
    ensures SerialisedStatus(ParseStatus(body)) == body
  {
  }

  /** Every enum value is recognised as itself. */
  lemma ParseStatusName(s: DeliveryStatus)
    ensures ParseStatus(Some(StatusName(s))) == Known(s)
  {
  }

  /** Reading a stored status back gives the same status. */
  lemma SerialiseThenParse(r: StoredStatus)
    requires WellFormed(r)
    ensures ParseStatus(SerialisedStatus(r)) == r
  {
    if r.Known? {
      ParseStatusName(r.status);
    }
  }

  datatype Location = Location(lat: real, lng: real)

  /** The request body of `createDelivery`. No validation pipe runs in the
      logistics service, so the body may carry fields the DTO does not
      declare; `bodyId` is an `id` field among them, which the spread in
      `createDelivery` copies over the generated one. */
  datatype CreateDeliveryRequest = CreateDeliveryRequest(
    orderId: string, pickupLocation: Location, dropoffLocation: Location, driverId: Option<string>,
    bodyId: Option<string>)

  datatype DeliveryRecord = DeliveryRecord(
    id: string,
    orderId: string,
    pickupLocation: Location,
    dropoffLocation: Location,
    driverId: Option<string>,
    status: StoredStatus,
    createdAt: string,
    updatedAt: string)

  /** `NotFoundException('Delivery <id> not found')`. */
  datatype DeliveryError = NotFound(id: string)

  const TRACKING_PREFIX: string := "https://puente.app/track/"

  /** `generateTrackingLink`. */
  function TrackingLink(id: string): (link: string)
    ensures |link| == |TRACKING_PREFIX| + |id|
    ensures link[..|TRACKING_PREFIX|] == TRACKING_PREFIX && link[|TRACKING_PREFIX|..] == id
  {
    TRACKING_PREFIX + id
  }

  /** The delivery id a tracking link names, if it is one. */
  function TrackedId(link: string): (r: Option<string>)
    ensures r.Some? <==> |link| >= |TRACKING_PREFIX| && link[..|TRACKING_PREFIX|] == TRACKING_PREFIX
  {
    if |link| >= |TRACKING_PREFIX| && link[..|TRACKING_PREFIX|] == TRACKING_PREFIX
    then Some(link[|TRACKING_PREFIX|..])
    else None
  }

  /** Every tracking link leads back to its delivery, so distinct deliveries
      get distinct links. */
  lemma TrackingLinkRoundTrip(id: string)
    ensures TrackedId(TrackingLink(id)) == Some(id)
  {
  }

  lemma TrackingLinkInjective(a: string, b: string)
    requires TrackingLink(a) == TrackingLink(b)
    ensures a == b
  {
    TrackingLinkRoundTrip(a);
    TrackingLinkRoundTrip(b);
  }

  /** `dto.driverId ? ASSIGNED : PENDING`: an empty driver id counts as none. */
  function InitialStatus(driverId: Option<string>): (s: DeliveryStatus)
    ensures s == ASSIGNED <==> Truthy(driverId)
    ensures s == PENDING <==> !Truthy(driverId)
  {
    if Truthy(driverId) then ASSIGNED else PENDING
  }

  class DeliveryStore {
    var deliveries: map<string, DeliveryRecord>

    /** Every record is stored under its own id. */
    ghost predicate Valid()
      reads this
    {
      forall id :: id in deliveries ==> deliveries[id].id == id
    }

    constructor ()
      ensures Valid() && deliveries == map[]
    {
      deliveries := map[];
    }

    /** `createDelivery`: a record with the new id (or the body's own `id`,
        which the spread writes over it), the request's fields, the status
        from the driver, and both timestamps `now`, stored under the new id. */
    method CreateDelivery(dto: CreateDeliveryRequest, newId: string, now: string) returns (d: DeliveryRecord)
      modifies this
      ensures d == DeliveryRecord(dto.bodyId.GetOr(newId), dto.orderId, dto.pickupLocation, dto.dropoffLocation,
                                  dto.driverId, Known(InitialStatus(dto.driverId)), now, now)
      ensures deliveries == old(deliveries)[newId := d]
      ensures old(Valid()) && dto.bodyId.None? ==> Valid()
      ensures dto.bodyId.Some? && dto.bodyId.value != newId ==> !Valid()
    {
      d := DeliveryRecord(dto.bodyId.GetOr(newId), dto.orderId, dto.pickupLocation, dto.dropoffLocation, dto.driverId,
                          Known(InitialStatus(dto.driverId)), now, now);
      deliveries := deliveries[newId := d];
      assert deliveries[newId].id == dto.bodyId.GetOr(newId);
    }

    /** `getDelivery`: the stored record, or NotFound. */
    method GetDelivery(id: string) returns (r: Result<DeliveryRecord, DeliveryError>)
      ensures id in deliveries ==> r == Ok(deliveries[id])
      ensures id !in deliveries ==> r == Err(NotFound(id))
    {
      if id !in deliveries {
        return Err(NotFound(id));
      }
      r := Ok(deliveries[id]);
    }

    /** `updateStatus`: the body's `status` is stored unvalidated (no
        validation pipe runs, so `@IsEnum` is not enforced), from any status,
        and only the status and `updatedAt` change. An unknown id is NotFound
        with nothing stored. */
    method UpdateStatus(id: string, status: Option<string>, now: string) returns (r: Result<DeliveryRecord, DeliveryError>)
      modifies this
      ensures old(Valid()) ==> Valid()
      ensures id !in old(deliveries) ==> r == Err(NotFound(id)) && deliveries == old(deliveries)
      ensures id in old(deliveries) ==>
        && r == Ok(old(deliveries)[id].(status := ParseStatus(status), updatedAt := now))
        && deliveries == old(deliveries)[id := r.value]
    {
      var found := GetDelivery(id);
      if found.Err? {
        return found;
      }
      var delivery := found.value.(status := ParseStatus(status), updatedAt := now);
      deliveries := deliveries[id := delivery];
      r := Ok(delivery);
    }

    /** `assignDriver`: the driver is set and the status becomes ASSIGNED,
        whatever it was. `@Body('driverId')` is unvalidated, so the driver id
        may be absent: the delivery is then ASSIGNED with no driver (the
        undefined field is dropped when the record is serialised). An unknown
        id is NotFound with nothing stored. */
    method AssignDriver(id: string, driverId: Option<string>, now: string) returns (r: Result<DeliveryRecord, DeliveryError>)
      modifies this
      ensures old(Valid()) ==> Valid()
      ensures id !in old(deliveries) ==> r == Err(NotFound(id)) && deliveries == old(deliveries)
      ensures id in old(deliveries) ==>
        && r == Ok(old(deliveries)[id].(driverId := driverId, status := Known(ASSIGNED), updatedAt := now))
        && deliveries == old(deliveries)[id := r.value]
    {
      var found := GetDelivery(id);
      if found.Err? {
        return found;
      }
      var delivery := found.value.(driverId := driverId, status := Known(ASSIGNED), updatedAt := now);
      deliveries := deliveries[id := delivery];
      r := Ok(delivery);
    }
  }

  /** Status updates have no transition rules: any status can follow any other,
      a delivered one can be re-opened, and the last update wins. */
  lemma StatusUpdatesCommuteToLast(d: DeliveryRecord, s1: StoredStatus, s2: StoredStatus, t1: string, t2: string)
    ensures d.(status := s1, updatedAt := t1).(status := s2, updatedAt := t2) == d.(status := s2, updatedAt := t2)
  {
  }
}
