/** The leases page's container: it loads every lease with its property's
    name and its tenants' names, flattens each row into the list's `Lease`,
    and tracks the load state. The query's answer is a parameter. */
module LeaseListContainer {
  import opened Wrappers
  import opened Text
  import opened LeaseList

  /** The joined property: only its name is selected. */
  datatype PropertyJoin = PropertyJoin(name: Option<string>)

  /** The joined tenant: its name parts may be missing. */
  datatype TenantJoin = TenantJoin(firstName: Option<string>, lastName: Option<string>)

  /** A row of `lease_tenants`, with the tenant it links to, if any. */
  datatype LeaseTenantLink = LeaseTenantLink(tenant: Option<TenantJoin>)

  /** A lease row as the query returns it. The amount is taken to arrive as
      a number. */
  datatype LeaseRow = LeaseRow(
    id: string,
    startDate: string,
    rentAmount: Option<real>,
    rentFrequency: Option<string>,
    status: Option<string>,
    property: Option<PropertyJoin>,
    leaseTenants: Option<seq<LeaseTenantLink>>)

  const UnknownProperty := "Unknown property"
  const DefaultFrequency := "weekly"
  const DefaultStatus := "pending"

  /** `row.properties?.name ?? 'Unknown property'`: only a missing join or a
      missing name falls back; an empty name is kept. */
  function PropertyName(property: Option<PropertyJoin>): (r: string)
    ensures property.Some? && property.value.name.Some? ==> r == property.value.name.value
    ensures property.None? || property.value.name.None? ==> r == UnknownProperty
    // the name is empty only when the property's stored name is empty
    ensures r == [] ==> property == Some(PropertyJoin(Some("")))
  {
    match property
    case None => UnknownProperty
    case Some(join) => join.name.GetOr(UnknownProperty)
  }

  /** The name one link contributes: the trimmed "first last" of its tenant,
      or nothing when it has no tenant or that line is empty. */
  function LinkName(link: LeaseTenantLink): (r: Option<string>)
    ensures r.Some? ==> r.value != [] && IsTrimmed(r.value)
    ensures link.tenant.None? ==> r.None?
    // a tenant contributes its joined name, and is dropped exactly when both
    // name parts are missing or blank
    ensures link.tenant.Some? && r.Some? ==>
              r.value == JoinedName(link.tenant.value.firstName, link.tenant.value.lastName)
    ensures link.tenant.Some? ==>
              (r.None? <==> IsBlank(link.tenant.value.firstName.GetOr("")) && IsBlank(link.tenant.value.lastName.GetOr("")))
  {
    match link.tenant
    case None => None
    case Some(t) =>
      JoinedNameEmptyIff(t.firstName, t.lastName);
      var name := JoinedName(t.firstName, t.lastName);
      if name == [] then None else Some(name)
  }

  /** An optional name as a list of at most one name. */
  function Names(name: Option<string>): (r: seq<string>)
    ensures name.None? ==> r == []
    ensures name.Some? ==> r == [name.value]
  {
    if name.Some? then [name.value] else []
  }

  /** The `tenantNames` of a lease: the names of its links, in order, with
      the empty ones left out. */
  function TenantNames(links: seq<LeaseTenantLink>): (r: seq<string>)
    ensures |r| <= |links|
    ensures forall i :: 0 <= i < |r| ==> r[i] != [] && IsTrimmed(r[i])
  {
    if links == [] then []
    else Names(LinkName(links[0])) + TenantNames(links[1..])
  }

  /** The names of two runs of links are the names of each, in order. */
  lemma {:induction false} TenantNamesAppend(a: seq<LeaseTenantLink>, b: seq<LeaseTenantLink>)
    ensures TenantNames(a + b) == TenantNames(a) + TenantNames(b)
  {
    if a == [] {
      assert a + b == b;
    } else {
      TenantNamesAppend(a[1..], b);
      assert (a + b)[0] == a[0] && (a + b)[1..] == a[1..] + b;
      var head := Names(LinkName(a[0]));
      TenantNamesCons(a);
      TenantNamesCons(a + b);
      AppendAssociative(head, TenantNames(a[1..]), TenantNames(b));
    }
  }

  /** One step of `TenantNames`: the first link's name, if any, then the
      names of the rest. */
  lemma TenantNamesCons(links: seq<LeaseTenantLink>)
    requires links != []
    ensures TenantNames(links) == Names(LinkName(links[0])) + TenantNames(links[1..])
  {
  }

  /** A link is dropped exactly when it has no tenant or the tenant's name
      parts are both missing or blank. */
  lemma LinkNameDroppedIff(link: LeaseTenantLink)
    ensures TenantNames([link]) == [] <==>
            link.tenant.None? ||
            (IsBlank(link.tenant.value.firstName.GetOr("")) && IsBlank(link.tenant.value.lastName.GetOr("")))
  {
    assert [link][1..] == [];
    if link.tenant.Some? {
      JoinedNameEmptyIff(link.tenant.value.firstName, link.tenant.value.lastName);
    }
  }

  /** When every link has a tenant with at least one name part that is not
      blank, no link is dropped: one name per link, in link order. */
  lemma {:induction false} EveryNamedTenantListed(links: seq<LeaseTenantLink>)
    requires forall i :: 0 <= i < |links| ==>
               links[i].tenant.Some? &&
               !(IsBlank(links[i].tenant.value.firstName.GetOr("")) && IsBlank(links[i].tenant.value.lastName.GetOr("")))
    ensures |TenantNames(links)| == |links|
    ensures forall i :: 0 <= i < |links| ==>
              TenantNames(links)[i] == JoinedName(links[i].tenant.value.firstName, links[i].tenant.value.lastName)
  {
    if links != [] {
      var t := links[0].tenant.value;
      JoinedNameEmptyIff(t.firstName, t.lastName);
      EveryNamedTenantListed(links[1..]);
    }
  }

  /** The lease mapper: id and start date as stored, the property's name,
      the tenant names, and the defaults rent 0, frequency "weekly" and
      status "pending" for missing values. */
  function MapLease(row: LeaseRow): (l: Lease)
    ensures l.id == row.id && l.startDate == row.startDate
    ensures l.propertyName == PropertyName(row.property)
    ensures l.rentAmount == if row.rentAmount.Some? then row.rentAmount.value else 0.0
    ensures l.rentFrequency == if row.rentFrequency.Some? then row.rentFrequency.value else DefaultFrequency
    ensures l.status == if row.status.Some? then row.status.value else DefaultStatus
    ensures l.tenantNames == TenantNames(if row.leaseTenants.Some? then row.leaseTenants.value else [])
  {
    Lease(row.id, PropertyName(row.property), row.startDate, row.rentAmount.GetOr(0.0),
          row.rentFrequency.GetOr(DefaultFrequency), row.status.GetOr(DefaultStatus),
          TenantNames(row.leaseTenants.GetOr([])))
  }

  /** `(data ?? []).map(...)`: one lease per row, in the same order. */
  function MapLeases(rows: seq<LeaseRow>): (ls: seq<Lease>)
    ensures |ls| == |rows|
    ensures forall i :: 0 <= i < |rows| ==> ls[i] == MapLease(rows[i])
  {
    if rows == [] then [] else [MapLease(rows[0])] + MapLeases(rows[1..])
  }

  /** The container's state: the leases held and the load state. */
  datatype ContainerState = ContainerState(leases: seq<Lease>, state: LoadState)

  const Initial := ContainerState([], Loading)

  /** How a load in flight settles on the query's answer: an error keeps the
      leases held so far; data replaces them with its mapping. */
  function Settle(s: ContainerState, reply: Remote<Option<seq<LeaseRow>>>): (r: ContainerState)
    ensures r.state != Loading
    ensures r.state == Error <==> reply.Err?
    ensures reply.Err? ==> r.leases == s.leases
    ensures reply.Ok? && reply.data.None? ==> r.leases == []
    ensures reply.Ok? && reply.data.Some? ==>
              |r.leases| == |reply.data.value| &&
              forall i :: 0 <= i < |reply.data.value| ==> r.leases[i] == MapLease(reply.data.value[i])
  {
    match reply
    case Err(_) => s.(state := Error)
    case Ok(data) => ContainerState(MapLeases(data.GetOr([])), Success)
  }

  /** The container component: its fields are the React state. */
  class Container {
    var leases: seq<Lease>
    var state: LoadState

    function State(): ContainerState
      reads this
    {
      ContainerState(leases, state)
    }

    constructor ()
      ensures State() == Initial
    {
      leases, state := [], Loading;
    }

    /** The first step of `loadLeases`: the list shows "loading". */
    method BeginLoad()
      modifies this
      ensures State() == old(State()).(state := Loading)
    {
      state := Loading;
    }

    /** The rest of `loadLeases`, once the query has answered. */
    method FinishLoad(reply: Remote<Option<seq<LeaseRow>>>)
      modifies this
      ensures State() == Settle(old(State()), reply)
    {
      if reply.Err? {
        state := Error;
        return;
      }
      leases := MapLeases(reply.data.GetOr([]));
      state := Success;
    }

    /** `loadLeases`, with the query's answer as a parameter. */
    method LoadLeases(reply: Remote<Option<seq<LeaseRow>>>)
      modifies this
      ensures State() == Settle(old(State()).(state := Loading), reply)
    {
      BeginLoad();
      FinishLoad(reply);
    }
  }
}
