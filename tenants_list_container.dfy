/** The tenants page's container: it loads every tenant with the statuses of
    the leases it is linked to, maps each row into the list's
    `TenantListItem` (display name, contact details, active-lease count) and
    tracks the load state. The query's answer is a parameter. */
module TenantsListContainer {
  import opened Wrappers
  import opened Text
  import opened TenantsList

  /** The joined lease: only its status is selected. */
  datatype LeaseJoin = LeaseJoin(status: Option<string>)

  /** A row of `lease_tenants`, with the lease it links to, if any. */
  datatype LeaseLink = LeaseLink(lease: Option<LeaseJoin>)

  /** A tenant row as the query returns it. */
  datatype TenantRow = TenantRow(
    id: string,
    firstName: Option<string>,
    lastName: Option<string>,
    email: Option<string>,
    phone: Option<string>,
    leaseTenants: Option<seq<LeaseLink>>)

  const UnnamedTenant := "Unnamed tenant"

  /** The display name: the trimmed "first last", or "Unnamed tenant" when
      both parts are missing or blank. It is never empty. */
  function FullName(first: Option<string>, last: Option<string>): (r: string)
    ensures r != [] && IsTrimmed(r)
    ensures IsBlank(first.GetOr("")) && IsBlank(last.GetOr("")) ==> r == UnnamedTenant
    ensures !(IsBlank(first.GetOr("")) && IsBlank(last.GetOr(""))) ==> r == JoinedName(first, last)
  {
    JoinedNameEmptyIff(first, last);
    var joined := JoinedName(first, last);
    if joined == [] then UnnamedTenant else joined
  }

  /** A link counts when its lease exists and its status is exactly
      "active". */
  predicate IsActiveLink(link: LeaseLink): (b: bool)
    ensures b ==> link.lease.Some? && link.lease.value.status.Some?
    // a missing lease or status, "pending", "ended" or any other spelling
    // does not count
    ensures link.lease.None? || link.lease.value.status.None? ==> !b
    ensures link.lease.Some? && link.lease.value.status.Some? ==> (b <==> link.lease.value.status.value == "active")
  {
    link.lease.Some? && link.lease.value.status == Some("active")
  }

  /** `lease_tenants.filter(...).length` */
  function ActiveLeasesCount(links: seq<LeaseLink>): (n: nat)
    ensures n <= |links|
  {
    if links == [] then 0
    else (if IsActiveLink(links[0]) then 1 else 0) + ActiveLeasesCount(links[1..])
  }

  /** The count over two runs of links is the sum of the counts. */
  lemma {:induction false} ActiveLeasesCountAppend(a: seq<LeaseLink>, b: seq<LeaseLink>)
    ensures ActiveLeasesCount(a + b) == ActiveLeasesCount(a) + ActiveLeasesCount(b)
  {
    if a == [] {
      assert a + b == b;
    } else {
      ActiveLeasesCountAppend(a[1..], b);
      assert (a + b)[0] == a[0] && (a + b)[1..] == a[1..] + b;
    }
  }

  /** The count is 0 exactly when no link is active. */
  lemma {:induction false} NoActiveLeasesIff(links: seq<LeaseLink>)
    ensures ActiveLeasesCount(links) == 0 <==> forall i :: 0 <= i < |links| ==> !IsActiveLink(links[i])
  {
    if links != [] {
      NoActiveLeasesIff(links[1..]);
      if ActiveLeasesCount(links) == 0 {
        forall i | 0 <= i < |links| ensures !IsActiveLink(links[i]) {
          if i > 0 {
            assert links[i] == links[1..][i - 1];
          }
        }
      } else if !IsActiveLink(links[0]) {
        var j :| 0 <= j < |links[1..]| && IsActiveLink(links[1..][j]);
        assert links[j + 1] == links[1..][j];
      }
    }
  }

  /** The count equals the number of links exactly when every link is
      active. */
  lemma {:induction false} AllLeasesActiveIff(links: seq<LeaseLink>)
    ensures ActiveLeasesCount(links) == |links| <==> forall i :: 0 <= i < |links| ==> IsActiveLink(links[i])
  {
    if links != [] {
      AllLeasesActiveIff(links[1..]);
      if ActiveLeasesCount(links) == |links| {
        forall i | 0 <= i < |links| ensures IsActiveLink(links[i]) {
          if i > 0 {
            assert links[i] == links[1..][i - 1];
          }
        }
      } else if IsActiveLink(links[0]) {
        var j :| 0 <= j < |links[1..]| && !IsActiveLink(links[1..][j]);
        assert links[j + 1] == links[1..][j];
      }
    }
  }

  /** The tenant mapper: id as stored, the display name, a missing email or
      phone kept as missing and a present one kept unchanged, and the number
      of active leases. */
  function MapTenant(row: TenantRow): (t: TenantListItem)
    ensures t.id == row.id && t.email == row.email && t.phone == row.phone
    ensures t.fullName == FullName(row.firstName, row.lastName) && t.fullName != []
    ensures t.activeLeasesCount == ActiveLeasesCount(if row.leaseTenants.Some? then row.leaseTenants.value else [])
    ensures row.leaseTenants.None? ==> t.activeLeasesCount == 0
  {
    TenantListItem(row.id, FullName(row.firstName, row.lastName), row.email, row.phone,
                   ActiveLeasesCount(row.leaseTenants.GetOr([])))
  }

  /** `(data ?? []).map(...)`: one item per row, in the same order. */
  function MapTenants(rows: seq<TenantRow>): (ts: seq<TenantListItem>)
    ensures |ts| == |rows|
    ensures forall i :: 0 <= i < |rows| ==> ts[i] == MapTenant(rows[i])
  {
    if rows == [] then [] else [MapTenant(rows[0])] + MapTenants(rows[1..])
  }

  /** The container's state: the tenants held and the load state. */
  datatype ContainerState = ContainerState(tenants: seq<TenantListItem>, state: LoadState)

  const Initial := ContainerState([], Loading)

  /** How a load in flight settles on the query's answer: an error keeps the
      tenants held so far; data replaces them with its mapping. */
  function Settle(s: ContainerState, reply: Remote<Option<seq<TenantRow>>>): (r: ContainerState)
    ensures r.state != Loading
    ensures r.state == Error <==> reply.Err?
    ensures reply.Err? ==> r.tenants == s.tenants
    ensures reply.Ok? && reply.data.None? ==> r.tenants == []
    ensures reply.Ok? && reply.data.Some? ==>
              |r.tenants| == |reply.data.value| &&
              forall i :: 0 <= i < |reply.data.value| ==> r.tenants[i] == MapTenant(reply.data.value[i])
  {
    match reply
    case Err(_) => s.(state := Error)
    case Ok(data) => ContainerState(MapTenants(data.GetOr([])), Success)
  }

  /** The container component: its fields are the React state. */
  class Container {
    var tenants: seq<TenantListItem>
    var state: LoadState

    function State(): ContainerState
      reads this
    {
      ContainerState(tenants, state)
    }

    constructor ()
      ensures State() == Initial
    {
      tenants, state := [], Loading;
    }

    /** The first step of `loadTenants`: the list shows "loading". */
    method BeginLoad()
      modifies this
      ensures State() == old(State()).(state := Loading)
    {
      state := Loading;
    }

    /** The rest of `loadTenants`, once the query has answered. */
    method FinishLoad(reply: Remote<Option<seq<TenantRow>>>)
      modifies this
      ensures State() == Settle(old(State()), reply)
    {
      if reply.Err? {
        state := Error;
        return;
      }
      tenants := MapTenants(reply.data.GetOr([]));
      state := Success;
    }

    /** `loadTenants`, with the query's answer as a parameter. */
    method LoadTenants(reply: Remote<Option<seq<TenantRow>>>)
      modifies this
      ensures State() == Settle(old(State()).(state := Loading), reply)
    {
      BeginLoad();
      FinishLoad(reply);
    }
  }
}
