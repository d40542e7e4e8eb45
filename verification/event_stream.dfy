/**
 * The push-event listener: five named server events, each turned into one store mutation,
 * and the register / unregister lifecycle of their handlers on the connection.
 */
module EventStream {
  import opened Entities
  import opened DatabaseContext

  /** A decoded event; organization payloads carry the owner beside the record. */
  datatype Event =
    | OrganizationCreated(organization: Organization, ownerId: int)
    | OrganizationUpdated(organization: Organization, ownerId: int)
    | OrganizationDeleted(id: int)
    | CoordinatesCreated(coordinates: Coordinates)
    | AddressCreated(address: Address)

  datatype EventTag =
    | ORGANIZATION_CREATED
    | ORGANIZATION_UPDATED
    | ORGANIZATION_DELETED
    | COORDINATES_CREATED
    | ADDRESS_CREATED

  function TagOf(e: Event): EventTag {
    match e
    case OrganizationCreated(_, _) => ORGANIZATION_CREATED
    case OrganizationUpdated(_, _) => ORGANIZATION_UPDATED
    case OrganizationDeleted(_) => ORGANIZATION_DELETED
    case CoordinatesCreated(_) => COORDINATES_CREATED
    case AddressCreated(_) => ADDRESS_CREATED
  }

  const AllTags: set<EventTag> :=
    {ORGANIZATION_CREATED, ORGANIZATION_UPDATED, ORGANIZATION_DELETED, COORDINATES_CREATED, ADDRESS_CREATED}

  /**
   * What each handler does to the stores. Created uses the add operation, Updated the
   * update-only operation, Deleted the remove operation; coordinates and addresses are only
   * ever added. Every record is keyed by its own id.
   */
  function Effect(t: Tables, e: Event): Tables {
    match e
    case OrganizationCreated(o, _) => t.(organizations := Put(t.organizations, o.id, o))
    case OrganizationUpdated(o, _) => t.(organizations := PutIfPresent(t.organizations, o.id, o))
    case OrganizationDeleted(id) => t.(organizations := Delete(t.organizations, id))
    case CoordinatesCreated(c) => t.(coordinates := Put(t.coordinates, c.id, c))
    case AddressCreated(a) => t.(addresses := Put(t.addresses, a.id, a))
  }

  /** The stores after a stream of events, delivered in order. */
  function Replay(t: Tables, es: seq<Event>): Tables
    decreases |es|
  {
    if es == [] then t else Replay(Effect(t, es[0]), es[1..])
  }

  /** The objects a handler writes to besides the store: the decoded organization, whose ownerId it sets. */
  function Payload(e: Event): set<Organization> {
    if e.OrganizationCreated? || e.OrganizationUpdated? then {e.organization} else {}
  }

  // ---- the five handlers ----

  method HandleOrganizationCreated(db: Database, organization: Organization, ownerId: int)
    modifies db`organizations, organization`ownerId
    ensures organization.ownerId == ownerId
    ensures db.organizations == Put(old(db.organizations), organization.id, organization)
  {
    organization.SetOwnerId(ownerId);
    db.AddOrganization(organization.id, organization);
  }

  method HandleOrganizationUpdated(db: Database, organization: Organization, ownerId: int)
    modifies db`organizations, organization`ownerId
    ensures organization.ownerId == ownerId
    ensures db.organizations == PutIfPresent(old(db.organizations), organization.id, organization)
  {
    organization.SetOwnerId(ownerId);
    db.UpdateOrganization(organization.id, organization);
  }

  method HandleOrganizationDeleted(db: Database, id: int)
    modifies db`organizations
    ensures db.organizations == Delete(old(db.organizations), id)
  {
    db.RemoveOrganization(id);
  }

  method HandleCoordinatesCreated(db: Database, coordinates: Coordinates)
    modifies db`coordinates
    ensures db.coordinates == Put(old(db.coordinates), coordinates.id, coordinates)
  {
    db.AddCoordinates(coordinates.id, coordinates);
  }

  method HandleAddressCreated(db: Database, address: Address)
    modifies db`addresses
    ensures db.addresses == Put(old(db.addresses), address.id, address)
  {
    db.AddAddress(address.id, address);
  }

  /** Runs the handler registered for the event's tag. */
  method Apply(db: Database, e: Event)
    modifies db, Payload(e)`ownerId
    ensures db.Snapshot() == Effect(old(db.Snapshot()), e)
    ensures e.OrganizationCreated? || e.OrganizationUpdated? ==> e.organization.ownerId == e.ownerId
  {
    match e
    case OrganizationCreated(o, owner) => HandleOrganizationCreated(db, o, owner);
    case OrganizationUpdated(o, owner) => HandleOrganizationUpdated(db, o, owner);
    case OrganizationDeleted(id) => HandleOrganizationDeleted(db, id);
    case CoordinatesCreated(c) => HandleCoordinatesCreated(db, c);
    case AddressCreated(a) => HandleAddressCreated(db, a);
  }

  // ---- the connection's listener registry ----

  /** The part of an EventSource the listener uses: its registered handlers and whether it is closed. */
  class EventSource {
    var listeners: set<EventTag>
    var closed: bool

    constructor ()
      ensures listeners == {} && !closed
    {
      listeners, closed := {}, false;
    }

    method AddEventListener(tag: EventTag)
      modifies this`listeners
      ensures listeners == old(listeners) + {tag}
    {
      listeners := listeners + {tag};
    }

    method RemoveEventListener(tag: EventTag)
      modifies this`listeners
      ensures listeners == old(listeners) - {tag}
    {
      listeners := listeners - {tag};
    }

    method Close()
      modifies this`closed
      ensures closed
    {
      closed := true;
    }
  }

  /** Mount: opens one connection and registers the five handlers on it. */
  method Connect() returns (source: EventSource)
    ensures fresh(source)
    ensures source.listeners == AllTags && !source.closed
  {
    source := new EventSource();
    source.AddEventListener(ORGANIZATION_CREATED);
    source.AddEventListener(ORGANIZATION_UPDATED);
    source.AddEventListener(ORGANIZATION_DELETED);
    source.AddEventListener(COORDINATES_CREATED);
    source.AddEventListener(ADDRESS_CREATED);
  }

  /** Teardown: unregisters the same five handlers, then closes the connection. */
  method Teardown(source: EventSource)
    modifies source
    ensures source.listeners == old(source.listeners) - AllTags
    ensures source.closed
  {
    source.RemoveEventListener(ORGANIZATION_CREATED);
    source.RemoveEventListener(ORGANIZATION_UPDATED);
    source.RemoveEventListener(ORGANIZATION_DELETED);
    source.RemoveEventListener(COORDINATES_CREATED);
    source.RemoveEventListener(ADDRESS_CREATED);
    source.Close();
  }

  /** An event reaches the store only through a registered handler on an open connection. */
  method Deliver(source: EventSource, db: Database, e: Event)
    modifies db, Payload(e)`ownerId
    ensures !source.closed && TagOf(e) in source.listeners ==> db.Snapshot() == Effect(old(db.Snapshot()), e)
    ensures !source.closed && TagOf(e) in source.listeners && (e.OrganizationCreated? || e.OrganizationUpdated?) ==>
      e.organization.ownerId == e.ownerId
    ensures source.closed || TagOf(e) !in source.listeners ==>
      db.Snapshot() == old(db.Snapshot()) && unchanged(Payload(e))
  {
    if !source.closed && TagOf(e) in source.listeners {
      Apply(db, e);
    }
  }

  // ---- what the event stream does to the stores ----

  /** Every handler files the record under the record's own id, so the stores stay keyed by id. */
  lemma {:induction false} ReplayKeepsKeyedById(t: Tables, es: seq<Event>)
    requires KeyedById(t)
    ensures KeyedById(Replay(t, es))
    decreases |es|
  {
    if es != [] {
      assert KeyedById(Effect(t, es[0]));
      ReplayKeepsKeyedById(Effect(t, es[0]), es[1..]);
    }
  }

  /** No event removes a coordinates or address record: both key sets only grow. */
  lemma {:induction false} ReplayNeverShrinksSubResources(t: Tables, es: seq<Event>)
    ensures t.coordinates.Keys <= Replay(t, es).coordinates.Keys
    ensures t.addresses.Keys <= Replay(t, es).addresses.Keys
    decreases |es|
  {
    if es != [] {
      ReplayNeverShrinksSubResources(Effect(t, es[0]), es[1..]);
    }
  }

  /** Organization events touch only the organization store; the other two are untouched. */
  lemma OrganizationEventsLeaveSubResources(t: Tables, e: Event)
    requires e.OrganizationCreated? || e.OrganizationUpdated? || e.OrganizationDeleted?
    ensures Effect(t, e).coordinates == t.coordinates && Effect(t, e).addresses == t.addresses
  {
  }

  /** ORGANIZATION_UPDATED never inserts: the set of organization ids is the same afterwards. */
  lemma UpdateNeverInserts(t: Tables, o: Organization, ownerId: int)
    ensures Effect(t, OrganizationUpdated(o, ownerId)).organizations.Keys == t.organizations.Keys
    ensures o.id !in t.organizations ==> Effect(t, OrganizationUpdated(o, ownerId)) == t
  {
  }

  /** A delete followed by an update for the same id leaves the id absent. */
  lemma DeleteThenUpdateStaysDeleted(t: Tables, o: Organization, ownerId: int)
    ensures o.id !in Replay(t, [OrganizationDeleted(o.id), OrganizationUpdated(o, ownerId)]).organizations
  {
    var t1 := Effect(t, OrganizationDeleted(o.id));
    assert Replay(t, [OrganizationDeleted(o.id), OrganizationUpdated(o, ownerId)])
        == Replay(t1, [OrganizationUpdated(o, ownerId)]);
    assert Replay(t1, [OrganizationUpdated(o, ownerId)]) == Effect(t1, OrganizationUpdated(o, ownerId));
  }

  /** A repeated delete is a no-op. */
  lemma DeleteTwiceIsDeleteOnce(t: Tables, id: int)
    ensures Effect(Effect(t, OrganizationDeleted(id)), OrganizationDeleted(id)) == Effect(t, OrganizationDeleted(id))
  {
  }

  /** After ORGANIZATION_CREATED the record is stored under its id, whether or not the id was known. */
  lemma CreatedIsVisible(t: Tables, o: Organization, ownerId: int)
    ensures Effect(t, OrganizationCreated(o, ownerId)).organizations[o.id] == o
  {
  }

  /** Events for different organization ids commute: the order of independent events does not matter. */
  lemma IndependentEventsCommute(t: Tables, e1: Event, e2: Event)
    requires e1.OrganizationCreated? || e1.OrganizationUpdated?
    requires e2.OrganizationCreated? || e2.OrganizationUpdated?
    requires e1.organization.id != e2.organization.id
    ensures Effect(Effect(t, e1), e2) == Effect(Effect(t, e2), e1)
  {
    var m, o1, o2 := t.organizations, e1.organization, e2.organization;
    if e1.OrganizationCreated? && e2.OrganizationCreated? {
      PutsCommute(m, o1.id, o1, o2.id, o2);
    } else if e1.OrganizationCreated? {
      PutAndUpdateCommute(m, o1.id, o1, o2.id, o2);
    } else if e2.OrganizationCreated? {
      PutAndUpdateCommute(m, o2.id, o2, o1.id, o1);
    } else {
      UpdatesCommute(m, o1.id, o1, o2.id, o2);
    }
  }

  /** A client of the listener: mounting registers five handlers, teardown removes all of them, and nothing is delivered afterwards. */
  method ListenerLifecycle(db: Database, e: Event)
    modifies db, Payload(e)`ownerId
  {
    var source := Connect();
    assert TagOf(e) in source.listeners;
    Teardown(source);
    assert source.listeners == {};
    var before := db.Snapshot();
    Deliver(source, db, e);
    assert db.Snapshot() == before;
  }
}
