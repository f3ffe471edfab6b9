/** The leases section: one row per lease with its property, the tenant
    line, the start date, the rent and a status badge, or a message when
    there are no leases. Locale date rendering and two-decimal number
    rendering are parameters. */
module LeaseList {
  import opened Wrappers
  import opened Text

  /** A lease as the list shows it. `rentFrequency` and `status` are kept as
      the stored text: the container casts them without checking them. */
  datatype Lease = Lease(
    id: string,
    propertyName: string,
    startDate: string,
    rentAmount: real,
    rentFrequency: string,
    status: string,
    tenantNames: seq<string>)

  const NoLeasesMessage :=
    "No leases recorded yet. Once you add tenants and a lease for a property, they will show here."
  const NoTenantsLinked := "No tenants linked"
  const Separator := ", "

  /** The line under the property name: the tenant names joined with ", ",
      or "No tenants linked" when there are none. */
  function TenantLine(names: seq<string>): (r: string)
    ensures names == [] ==> r == NoTenantsLinked
    ensures names != [] ==> r == Join(names, Separator)
    ensures |names| == 1 ==> r == names[0]
    // every name and one separator between each two neighbours, the first
    // name leading
    ensures names != [] ==>
              |r| == TotalLength(names) + 2 * (|names| - 1) &&
              r[..|names[0]|] == names[0]
  {
    if names == [] then NoTenantsLinked
    else
      JoinLength(names, Separator);
      Join(names, Separator)
  }

  /** Each tenant name stands in the line at its place, after the names
      before it and a ", " for each of them, and is followed by ", " unless
      it is the last one. */
  lemma TenantLineHoldsEveryName(names: seq<string>, i: nat)
    requires i < |names|
    ensures var at := JoinOffset(names, Separator, i);
            var line := TenantLine(names);
            at + |names[i]| <= |line| && line[at..at + |names[i]|] == names[i] &&
            (i < |names| - 1 ==> at + |names[i]| + 2 <= |line| && line[at + |names[i]|..at + |names[i]| + 2] == Separator)
  {
    JoinPart(names, Separator, i);
    if i < |names| - 1 {
      JoinSeparator(names, Separator, i);
    }
  }

  /** The badge text: "Active" and "Pending" for those two statuses, "Ended"
      for anything else. */
  function StatusLabel(status: string): (r: string)
    ensures r == "Active" <==> status == "active"
    ensures r == "Pending" <==> status == "pending"
    ensures r == "Active" || r == "Pending" || r == "Ended"
  {
    if status == "active" then "Active"
    else if status == "pending" then "Pending"
    else "Ended"
  }

  const ActiveClasses := "border-emerald-500/60 text-emerald-300"
  const PendingClasses := "border-amber-500/60 text-amber-300"
  const DefaultClasses := "border-slate-600 text-slate-300"

  /** `statusClasses`: green for active, amber for pending, and one shared
      default for "ended" and every other value. */
  function StatusClasses(status: string): (r: string)
    ensures r == ActiveClasses <==> status == "active"
    ensures r == PendingClasses <==> status == "pending"
    ensures r == ActiveClasses || r == PendingClasses || r == DefaultClasses
  {
    match status
    case "active" => ActiveClasses
    case "pending" => PendingClasses
    case _ => DefaultClasses
  }

  /** The badge's colour and its text always agree: two statuses get the
      same classes exactly when they get the same label. */
  lemma ClassesFollowLabel(a: string, b: string)
    ensures StatusClasses(a) == StatusClasses(b) <==> StatusLabel(a) == StatusLabel(b)
  {
  }

  /** `formatDate`: the empty string stays empty; otherwise `localize` stands
      for parsing the text as a date and rendering it for the user's locale,
      and is absent when the text is not a valid date, in which case the text
      is shown as it is. */
  function FormatDate(dateStr: string, localize: string -> Option<string>): (r: string)
    ensures dateStr == "" ==> r == ""
    ensures dateStr != "" && localize(dateStr).None? ==> r == dateStr
    ensures dateStr != "" && localize(dateStr).Some? ==> r == localize(dateStr).value
  {
    if dateStr == "" then ""
    else match localize(dateStr)
      case None => dateStr
      case Some(text) => text
  }

  /** `formatRent`: "$", the amount as `toFixed2` renders it, " / " and the
      frequency. */
  function FormatRent(amount: real, frequency: string, toFixed2: real -> string): (r: string)
    ensures |r| == 1 + |toFixed2(amount)| + 3 + |frequency|
    ensures r[0] == '$' && r[|r| - |frequency|..] == frequency
    // between them, the rendered amount and then " / "
    ensures r[1..1 + |toFixed2(amount)|] == toFixed2(amount)
    ensures r[1 + |toFixed2(amount)|..4 + |toFixed2(amount)|] == " / "
  {
    "$" + toFixed2(amount) + " / " + frequency
  }

  /** One row of the list. */
  datatype LeaseCard = LeaseCard(
    propertyName: string,
    tenantLine: string,
    start: string,
    rent: string,
    statusLabel: string,
    statusClasses: string)

  /** The row for one lease: its property, tenant line, "Start: " and the
      date, rent, and a badge whose text and colour agree. */
  function Card(lease: Lease, localize: string -> Option<string>, toFixed2: real -> string): (c: LeaseCard)
    ensures c.propertyName == lease.propertyName && c.tenantLine == TenantLine(lease.tenantNames)
    ensures |c.start| >= 7 && c.start[..7] == "Start: " && c.start[7..] == FormatDate(lease.startDate, localize)
    ensures c.rent == FormatRent(lease.rentAmount, lease.rentFrequency, toFixed2)
    // the badge is the lease's own status: its label and its classes
    ensures c.statusLabel == StatusLabel(lease.status) && c.statusClasses == StatusClasses(lease.status)
    ensures c.statusLabel == "Active" <==> lease.status == "active"
    ensures c.statusLabel == "Pending" <==> lease.status == "pending"
    ensures c.statusLabel == "Active" <==> c.statusClasses == ActiveClasses
    ensures c.statusLabel == "Pending" <==> c.statusClasses == PendingClasses
    ensures c.statusLabel == "Ended" <==> c.statusClasses == DefaultClasses
  {
    LeaseCard(lease.propertyName, TenantLine(lease.tenantNames),
              "Start: " + FormatDate(lease.startDate, localize),
              FormatRent(lease.rentAmount, lease.rentFrequency, toFixed2),
              StatusLabel(lease.status), StatusClasses(lease.status))
  }

  /** What the section shows: only the message when there are no leases,
      otherwise one row per lease in order. */
  datatype LeaseListView = NoLeases(message: string) | Leases(cards: seq<LeaseCard>)

  function Render(leases: seq<Lease>, localize: string -> Option<string>, toFixed2: real -> string): (v: LeaseListView)
    ensures v.NoLeases? <==> leases == []
    ensures v.NoLeases? ==> v.message == NoLeasesMessage
    ensures v.Leases? ==>
              |v.cards| == |leases| &&
              forall k :: 0 <= k < |leases| ==> v.cards[k] == Card(leases[k], localize, toFixed2)
  {
    if |leases| == 0 then NoLeases(NoLeasesMessage)
    else Leases(seq(|leases|, k requires 0 <= k < |leases| => Card(leases[k], localize, toFixed2)))
  }
}
