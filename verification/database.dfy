/**
 * The client-side replica: three id-keyed stores (organizations, coordinates, addresses),
 * their add / update / remove operations, and the one-time bulk load that seeds them.
 */
module DatabaseContext {
  import opened Entities

  // ---- the map operations the store's updaters perform ----

  /** `new Map(prev).set(id, v)`: id now maps to v, whether or not it was present; every other key is kept. */
  function Put<T>(m: map<int, T>, id: int, v: T): (r: map<int, T>)
    ensures r.Keys == m.Keys + {id}
    ensures r[id] == v
    ensures forall k :: k in m && k != id ==> r[k] == m[k]
  {
    m[id := v]
  }

  /** The update-only updater: overwrites id when present; otherwise the map is returned unchanged (no insert). */
  function PutIfPresent<T>(m: map<int, T>, id: int, v: T): (r: map<int, T>)
    ensures r.Keys == m.Keys
    ensures id in m ==> r[id] == v
    ensures id !in m ==> r == m
    ensures forall k :: k in m && k != id ==> r[k] == m[k]
  {
    if id in m then m[id := v] else m
  }

  /** `newMap.delete(id)`: id is absent afterwards, every other entry is kept, and an absent id changes nothing. */
  function Delete<T>(m: map<int, T>, id: int): (r: map<int, T>)
    ensures r.Keys == m.Keys - {id}
    ensures forall k :: k in r ==> r[k] == m[k]
    ensures id !in m ==> r == m
  {
    m - {id}
  }

  lemma DeleteIdempotent<T>(m: map<int, T>, id: int)
    ensures Delete(Delete(m, id), id) == Delete(m, id)
  {
  }

  // Writes to different ids commute.

  lemma PutsCommute<T>(m: map<int, T>, i1: int, v1: T, i2: int, v2: T)
    requires i1 != i2
    ensures Put(Put(m, i1, v1), i2, v2) == Put(Put(m, i2, v2), i1, v1)
  {
    assert m[i1 := v1][i2 := v2] == m[i2 := v2][i1 := v1];
  }

  lemma PutAndUpdateCommute<T>(m: map<int, T>, i1: int, v1: T, i2: int, v2: T)
    requires i1 != i2
    ensures PutIfPresent(Put(m, i1, v1), i2, v2) == Put(PutIfPresent(m, i2, v2), i1, v1)
  {
    if i2 in m {
      assert m[i1 := v1][i2 := v2] == m[i2 := v2][i1 := v1];
    }
  }

  lemma UpdatesCommute<T>(m: map<int, T>, i1: int, v1: T, i2: int, v2: T)
    requires i1 != i2
    ensures PutIfPresent(PutIfPresent(m, i1, v1), i2, v2) == PutIfPresent(PutIfPresent(m, i2, v2), i1, v1)
  {
    if i1 in m && i2 in m {
      assert m[i1 := v1][i2 := v2] == m[i2 := v2][i1 := v1];
    }
  }

  // ---- arrayToMap ----

  /** `new Map(array.map(item => [item.id, item]))`: entries are set in array order, so a later element wins. */
  function ArrayToMap<T>(a: seq<T>, key: T -> int): (r: map<int, T>)
    ensures forall k :: k in r ==> r[k] in a
  {
    if a == [] then map[] else ArrayToMap(a[..|a| - 1], key)[key(a[|a| - 1]) := a[|a| - 1]]
  }

  /** The keys are exactly the ids of the elements. */
  lemma {:induction false} ArrayToMapKeys<T>(a: seq<T>, key: T -> int)
    ensures forall k :: k in ArrayToMap(a, key) <==> exists i :: 0 <= i < |a| && key(a[i]) == k
  {
    if a != [] {
      var front := a[..|a| - 1];
      ArrayToMapKeys(front, key);
      forall k | exists i :: 0 <= i < |a| && key(a[i]) == k
        ensures k in ArrayToMap(a, key)
      {
        var i :| 0 <= i < |a| && key(a[i]) == k;
        if i < |a| - 1 {
          assert key(front[i]) == k;
        }
      }
      forall k | k in ArrayToMap(a, key)
        ensures exists i :: 0 <= i < |a| && key(a[i]) == k
      {
        if k != key(a[|a| - 1]) {
          assert k in ArrayToMap(front, key);
          var i :| 0 <= i < |front| && key(front[i]) == k;
          assert key(a[i]) == k;
        }
      }
    }
  }

  /** Each key maps to the last element carrying that id. */
  lemma {:induction false} ArrayToMapLastWins<T>(a: seq<T>, key: T -> int, i: int)
    requires 0 <= i < |a|
    requires forall j :: i < j < |a| ==> key(a[j]) != key(a[i])
    ensures key(a[i]) in ArrayToMap(a, key)
    ensures ArrayToMap(a, key)[key(a[i])] == a[i]
  {
    if i < |a| - 1 {
      var front := a[..|a| - 1];
      assert forall j :: i < j < |front| ==> front[j] == a[j];
      ArrayToMapLastWins(front, key, i);
      assert front[i] == a[i];
    }
  }

  /** With distinct ids nothing is overwritten, so a load of N records yields N entries. */
  lemma {:induction false} ArrayToMapSize<T>(a: seq<T>, key: T -> int)
    requires forall i, j :: 0 <= i < j < |a| ==> key(a[i]) != key(a[j])
    ensures |ArrayToMap(a, key)| == |a|
  {
    if a != [] {
      var front := a[..|a| - 1];
      ArrayToMapSize(front, key);
      ArrayToMapKeys(front, key);
      assert key(a[|a| - 1]) !in ArrayToMap(front, key);
    }
  }

  function OrganizationId(o: Organization): int { o.id }
  function CoordinatesId(c: Coordinates): int { c.id }
  function AddressId(a: Address): int { a.id }

  // ---- the store ----

  /** A snapshot of the three stores. */
  datatype Tables = Tables(
    organizations: map<int, Organization>,
    coordinates: map<int, Coordinates>,
    addresses: map<int, Address>)

  /** Every record is filed under its own id. */
  predicate KeyedById(t: Tables) {
    && (forall k :: k in t.organizations ==> t.organizations[k].id == k)
    && (forall k :: k in t.coordinates ==> t.coordinates[k].id == k)
    && (forall k :: k in t.addresses ==> t.addresses[k].id == k)
  }

  /** ArrayToMap keyed by the records' own ids always files each record under its id. */
  lemma ArrayToMapKeyedById(os: seq<Organization>, cs: seq<Coordinates>, as_: seq<Address>)
    ensures KeyedById(Tables(ArrayToMap(os, OrganizationId), ArrayToMap(cs, CoordinatesId), ArrayToMap(as_, AddressId)))
  {
    FiledUnderKey(os, OrganizationId);
    FiledUnderKey(cs, CoordinatesId);
    FiledUnderKey(as_, AddressId);
  }

  lemma {:induction false} FiledUnderKey<T>(a: seq<T>, key: T -> int)
    ensures forall k :: k in ArrayToMap(a, key) ==> key(ArrayToMap(a, key)[k]) == k
  {
    if a != [] {
      FiledUnderKey(a[..|a| - 1], key);
    }
  }

  /** One organization as the server lists it: the record and, beside it, its owner. */
  datatype OrganizationDto = OrganizationDto(organization: Organization, ownerId: int)

  /** The outcome of the three collection fetches: all three arrays, or a failure of any of them. */
  datatype FetchResult =
    | FetchFailed
    | Fetched(organizations: seq<OrganizationDto>, addresses: seq<Address>, coordinates: seq<Coordinates>)

  function DtoOrganizations(dtos: seq<OrganizationDto>): set<Organization> {
    set d | d in dtos :: d.organization
  }

  function FetchedOrganizations(f: FetchResult): set<Organization> {
    if f.Fetched? then DtoOrganizations(f.organizations) else {}
  }

  /** Decoded JSON yields a fresh object per array element. */
  predicate DistinctObjects(dtos: seq<OrganizationDto>) {
    forall i, j :: 0 <= i < j < |dtos| ==> dtos[i].organization != dtos[j].organization
  }

  function Records(dtos: seq<OrganizationDto>): (r: seq<Organization>)
    ensures |r| == |dtos| && forall i :: 0 <= i < |dtos| ==> r[i] == dtos[i].organization
  {
    seq(|dtos|, i requires 0 <= i < |dtos| => dtos[i].organization)
  }

  /** The first half of `loadData`: each organization gets the ownerId listed beside it, in array order. */
  method AttachOwners(dtos: seq<OrganizationDto>) returns (records: seq<Organization>)
    requires DistinctObjects(dtos)
    modifies DtoOrganizations(dtos)`ownerId
    ensures records == Records(dtos)
    ensures forall i :: 0 <= i < |dtos| ==> dtos[i].organization.ownerId == dtos[i].ownerId
  {
    records := [];
    var i := 0;
    while i < |dtos|
      invariant 0 <= i <= |dtos|
      invariant records == Records(dtos[..i])
      invariant forall j :: 0 <= j < i ==> dtos[j].organization.ownerId == dtos[j].ownerId
    {
      dtos[i].organization.SetOwnerId(dtos[i].ownerId);
      records := records + [dtos[i].organization];
      i := i + 1;
    }
    assert dtos[..i] == dtos;
  }

  class Database {
    var organizations: map<int, Organization>
    var coordinates: map<int, Coordinates>
    var addresses: map<int, Address>

    /** All three stores start empty. */
    constructor ()
      ensures organizations == map[] && coordinates == map[] && addresses == map[]
    {
      organizations, coordinates, addresses := map[], map[], map[];
    }

    function Snapshot(): Tables
      reads this
    {
      Tables(organizations, coordinates, addresses)
    }

    method SetOrganizations(m: map<int, Organization>)
      modifies this`organizations
      ensures organizations == m
    {
      organizations := m;
    }

    method AddOrganization(id: int, organization: Organization)
      modifies this`organizations
      ensures organizations == Put(old(organizations), id, organization)
    {
      organizations := organizations[id := organization];
    }

    method UpdateOrganization(id: int, organization: Organization)
      modifies this`organizations
      ensures organizations == PutIfPresent(old(organizations), id, organization)
    {
      var newMap := organizations;
      if id in newMap {
        newMap := newMap[id := organization];
      }
      organizations := newMap;
    }

    method RemoveOrganization(id: int)
      modifies this`organizations
      ensures organizations == Delete(old(organizations), id)
    {
      organizations := organizations - {id};
    }

    method SetCoordinates(m: map<int, Coordinates>)
      modifies this`coordinates
      ensures coordinates == m
    {
      coordinates := m;
    }

    method AddCoordinates(id: int, c: Coordinates)
      modifies this`coordinates
      ensures coordinates == Put(old(coordinates), id, c)
    {
      coordinates := coordinates[id := c];
    }

    method RemoveCoordinates(id: int)
      modifies this`coordinates
      ensures coordinates == Delete(old(coordinates), id)
    {
      coordinates := coordinates - {id};
    }

    method SetAddresses(m: map<int, Address>)
      modifies this`addresses
      ensures addresses == m
    {
      addresses := m;
    }

    method AddAddress(id: int, a: Address)
      modifies this`addresses
      ensures addresses == Put(old(addresses), id, a)
    {
      addresses := addresses[id := a];
    }

    method RemoveAddress(id: int)
      modifies this`addresses
      ensures addresses == Delete(old(addresses), id)
    {
      addresses := addresses - {id};
    }

    /**
     * `loadData`: on success, each organization gets the ownerId listed beside it and every
     * store becomes arrayToMap of its array; on a failed fetch no store is set.
     */
    method LoadData(fetched: FetchResult)
      requires fetched.Fetched? ==> DistinctObjects(fetched.organizations)
      modifies this, FetchedOrganizations(fetched)`ownerId
      ensures fetched.FetchFailed? ==> Snapshot() == old(Snapshot())
      ensures fetched.Fetched? ==>
        && (forall i :: 0 <= i < |fetched.organizations| ==>
              fetched.organizations[i].organization.ownerId == fetched.organizations[i].ownerId)
        && organizations == ArrayToMap(Records(fetched.organizations), OrganizationId)
        && addresses == ArrayToMap(fetched.addresses, AddressId)
        && coordinates == ArrayToMap(fetched.coordinates, CoordinatesId)
    {
      if fetched.FetchFailed? {
        return;
      }
      var records := AttachOwners(fetched.organizations);
      SetOrganizations(ArrayToMap(records, OrganizationId));
      SetAddresses(ArrayToMap(fetched.addresses, AddressId));
      SetCoordinates(ArrayToMap(fetched.coordinates, CoordinatesId));
    }
  }
}
