/** The tenants section: one row per tenant with name, email line, optional
    phone line and an active-lease badge, or a message when there are no
    tenants. */
module TenantsList {
  import opened Wrappers
  import opened Text

  /** A tenant as the list shows it. */
  datatype TenantListItem = TenantListItem(
    id: string,
    fullName: string,
    email: Option<string>,
    phone: Option<string>,
    activeLeasesCount: nat)

  const NoTenantsMessage :=
    "No tenants captured yet. Once you add tenants and link them to leases, they will show here."
  const NoEmailRecorded := "No email recorded"
  const NoActiveLeases := "No active leases"

  /** The badge: "No active leases" for 0, otherwise the count followed by
      " active lease" and an "s" exactly when the count is above 1. */
  function ActiveLeaseLabel(n: nat): (r: string)
    ensures n == 0 ==> r == NoActiveLeases
    // the number the badge leads with reads back as the count
    ensures n > 0 ==> DecimalValue(LeadingDigits(r)) == n
    ensures n > 0 ==> (r[|r| - 1] == 's' <==> n > 1)
    // the count's digits, then the words " active lease", pluralised above 1
    ensures n > 0 ==>
              |DecimalString(n)| <= |r| && r[..|DecimalString(n)|] == DecimalString(n) &&
              r[|DecimalString(n)|..] == " active lease" + (if n > 1 then "s" else "")
  {
    if n == 0 then NoActiveLeases
    else
      var suffix := " active lease" + (if n > 1 then "s" else "");
      LeadingDigitsOf(DecimalString(n), suffix);
      DecimalRoundTrip(n);
      DecimalString(n) + suffix
  }

  /** `tenant.email || 'No email recorded'`: a missing or empty email falls
      back to the placeholder. */
  function EmailLine(email: Option<string>): (r: string)
    ensures email.None? || email.value == "" ==> r == NoEmailRecorded
    ensures email.Some? && email.value != "" ==> r == email.value
    // the line is never empty
    ensures r != []
  {
    if email.Some? && email.value != "" then email.value else NoEmailRecorded
  }

  /** The phone line is shown only for a phone that is present and not
      empty, and then shows it as stored. */
  function PhoneLine(phone: Option<string>): (r: Option<string>)
    ensures r.Some? <==> phone.Some? && phone.value != ""
    ensures r.Some? ==> r.value == phone.value && r.value != []
  {
    if phone.Some? && phone.value != "" then phone else None
  }

  /** One row of the list. */
  datatype TenantCard = TenantCard(fullName: string, emailLine: string, phoneLine: Option<string>, leaseLabel: string)

  /** The row for one tenant: the name, an email line that is never empty,
      a phone line only for a phone that is there, and the lease badge. */
  function Card(t: TenantListItem): (c: TenantCard)
    ensures c.fullName == t.fullName && c.emailLine != []
    ensures c.emailLine == EmailLine(t.email) && c.phoneLine == PhoneLine(t.phone)
    ensures c.phoneLine.Some? <==> t.phone.Some? && t.phone.value != ""
    ensures c.leaseLabel == ActiveLeaseLabel(t.activeLeasesCount)
    ensures c.leaseLabel == NoActiveLeases <==> t.activeLeasesCount == 0
  {
    TenantCard(t.fullName, EmailLine(t.email), PhoneLine(t.phone), ActiveLeaseLabel(t.activeLeasesCount))
  }

  /** What the section shows: only the message when there are no tenants,
      otherwise one row per tenant in order. */
  datatype TenantsListView = NoTenants(message: string) | Tenants(cards: seq<TenantCard>)

  function Render(tenants: seq<TenantListItem>): (v: TenantsListView)
    ensures v.NoTenants? <==> tenants == []
    ensures v.NoTenants? ==> v.message == NoTenantsMessage
    ensures v.Tenants? ==>
              |v.cards| == |tenants| &&
              forall k :: 0 <= k < |tenants| ==> v.cards[k] == Card(tenants[k])
  {
    if |tenants| == 0 then NoTenants(NoTenantsMessage)
    else Tenants(seq(|tenants|, k requires 0 <= k < |tenants| => Card(tenants[k])))
  }
}
