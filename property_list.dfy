/** The property list view: the occupied / vacant counts, the status filter
    and what the section shows for a given list and filter. The list and the
    selected filter are parameters; filtering never changes the list. */
module PropertyList {
  import opened Text

  /** The two statuses a property may have. */
  datatype PropertyStatus = Occupied | Vacant {
    /** The status as it is stored and compared. */
    function Name(): string {
      match this
      case Occupied => "occupied"
      case Vacant => "vacant"
    }
  }

  /** A property as the list shows it. `status` is kept as the stored text:
      the container casts it to a status without checking it. */
  datatype Property = Property(id: string, name: string, suburb: string, status: string)

  /** The filter buttons: every property, or only those with one status. */
  datatype Filter = All | Only(status: PropertyStatus)

  /** The filter the view starts with. */
  const InitialFilter: Filter := All

  predicate HasKnownStatus(p: Property) {
    p.status == "occupied" || p.status == "vacant"
  }

  /** `ps.filter(p => p.status === status).length` */
  function CountStatus(ps: seq<Property>, status: string): (n: nat)
    ensures n <= |ps|
  {
    if ps == [] then 0
    else (if ps[0].status == status then 1 else 0) + CountStatus(ps[1..], status)
  }

  /** The number of occupied properties: at most the list's length, and as
      many as the "Occupied" filter shows. */
  function OccupiedCount(ps: seq<Property>): (n: nat)
    ensures n <= |ps| && n == |Filtered(ps, Only(Occupied))|
  {
    CountStatus(ps, "occupied")
  }

  /** The number of vacant properties: at most the list's length, and as
      many as the "Vacant" filter shows. */
  function VacantCount(ps: seq<Property>): (n: nat)
    ensures n <= |ps| && n == |Filtered(ps, Only(Vacant))|
  {
    CountStatus(ps, "vacant")
  }

  /** When every status is one of the two known ones, the two counts add up
      to the length of the list. */
  lemma {:induction false} CountsCoverList(ps: seq<Property>)
    requires forall i :: 0 <= i < |ps| ==> HasKnownStatus(ps[i])
    ensures OccupiedCount(ps) + VacantCount(ps) == |ps|
  {
    if ps != [] {
      CountsCoverList(ps[1..]);
    }
  }

  /** `a` is `b` with some elements left out, the rest in their order. */
  predicate IsSubsequence<T(==)>(a: seq<T>, b: seq<T>)
    decreases |b|
  {
    if a == [] then true
    else if b == [] then false
    else (a[0] == b[0] && IsSubsequence(a[1..], b[1..])) || IsSubsequence(a, b[1..])
  }

  lemma {:induction false} SubsequenceReflexive<T>(a: seq<T>)
    ensures IsSubsequence(a, a)
  {
    if a != [] {
      SubsequenceReflexive(a[1..]);
    }
  }

  /** `ps.filter(p => p.status === status)`: as many elements as the count
      says, each with that status. */
  function WithStatus(ps: seq<Property>, status: string): (r: seq<Property>)
    ensures |r| == CountStatus(ps, status)
    ensures forall i :: 0 <= i < |r| ==> r[i].status == status
  {
    if ps == [] then []
    else if ps[0].status == status then [ps[0]] + WithStatus(ps[1..], status)
    else WithStatus(ps[1..], status)
  }

  /** The filter keeps the original order. */
  lemma {:induction false} WithStatusKeepsOrder(ps: seq<Property>, status: string)
    ensures IsSubsequence(WithStatus(ps, status), ps)
  {
    if ps != [] {
      WithStatusKeepsOrder(ps[1..], status);
      var r := WithStatus(ps, status);
      if ps[0].status != status && r != [] {
        assert r[0].status == status;
      }
    }
  }

  /** The filter keeps every element with the status, as often as it occurs,
      and nothing else. */
  lemma {:induction false} WithStatusExactly(ps: seq<Property>, status: string)
    ensures forall p :: multiset(WithStatus(ps, status))[p] ==
                        if p.status == status then multiset(ps)[p] else 0
  {
    if ps != [] {
      WithStatusExactly(ps[1..], status);
      assert ps == [ps[0]] + ps[1..];
    }
  }

  /** The properties shown under `filter`. */
  function Filtered(ps: seq<Property>, filter: Filter): (r: seq<Property>)
    ensures |r| <= |ps|
    ensures filter.All? ==> r == ps
    ensures filter.Only? ==>
              |r| == CountStatus(ps, filter.status.Name()) &&
              forall i :: 0 <= i < |r| ==> r[i].status == filter.status.Name()
  {
    match filter
    case All => ps
    case Only(status) => WithStatus(ps, status.Name())
  }

  /** Under every filter the shown list is an order-preserving selection of
      the properties; under a status filter it is exactly the properties with
      that status and its length is that status's count. */
  lemma FilteredIsExactSelection(ps: seq<Property>, filter: Filter)
    ensures IsSubsequence(Filtered(ps, filter), ps)
    ensures filter.All? ==> Filtered(ps, filter) == ps
    ensures filter.Only? ==>
              |Filtered(ps, filter)| == CountStatus(ps, filter.status.Name()) &&
              forall p :: multiset(Filtered(ps, filter))[p] ==
                          if p.status == filter.status.Name() then multiset(ps)[p] else 0
  {
    match filter
    case All =>
      SubsequenceReflexive(ps);
    case Only(status) =>
      WithStatusKeepsOrder(ps, status.Name());
      WithStatusExactly(ps, status.Name());
  }

  const NoPropertiesMessage :=
    "You don\U{2019}t have any properties yet. Add your first property to get started."

  const TotalWords := " total \U{00B7} "
  const OccupiedWords := " occupied \U{00B7} "
  const VacantWord := " vacant"

  /** The word after the total: singular exactly for one property. */
  function PropertyWord(total: nat): (w: string)
    ensures w == " property" <==> total == 1
    ensures w == " property" || w == " properties"
    ensures |w| >= 9 && w[..8] == " propert" && (w[8] == 'y' <==> total == 1) && w[0] == ' '
  {
    if total == 1 then " property" else " properties"
  }

  /** The head of the summary line: the total's digits, its word and
      " total · ". */
  function SummaryHead(total: nat): (h: string)
    ensures var t, w := DecimalString(total), PropertyWord(total);
            |h| == |t| + |w| + |TotalWords| &&
            h[..|t|] == t && h[|t|..|t| + |w|] == w && h[|t| + |w|..] == TotalWords
  {
    DecimalString(total) + PropertyWord(total) + TotalWords
  }

  /** The rest of the summary line: the occupied digits, " occupied · ",
      the vacant digits and " vacant". */
  function SummaryCounts(occupied: nat, vacant: nat): (c: string)
    ensures var o, v := DecimalString(occupied), DecimalString(vacant);
            |c| == |o| + |OccupiedWords| + |v| + |VacantWord| &&
            c[..|o|] == o && c[|o|..|o| + |OccupiedWords|] == OccupiedWords &&
            c[|o| + |OccupiedWords|..|o| + |OccupiedWords| + |v|] == v &&
            c[|o| + |OccupiedWords| + |v|..] == VacantWord
  {
    DecimalString(occupied) + OccupiedWords + DecimalString(vacant) + VacantWord
  }

  /** The summary line "N properties total · k occupied · m vacant" ("property"
      when N is 1; the occupied and vacant words do not change with the count). */
  function SummaryText(total: nat, occupied: nat, vacant: nat): (r: string)
    // the head for the total, then the counts
    ensures |r| == |SummaryHead(total)| + |SummaryCounts(occupied, vacant)|
    ensures r[..|SummaryHead(total)|] == SummaryHead(total)
    ensures r[|SummaryHead(total)|..] == SummaryCounts(occupied, vacant)
    // the line leads with the total, which reads back as the number given
    ensures DecimalValue(LeadingDigits(r)) == total
    // then " property" for exactly one, " properties" otherwise
    ensures |DecimalString(total)| + 9 < |r| &&
            r[|DecimalString(total)|..|DecimalString(total)| + 8] == " propert" &&
            (r[|DecimalString(total)| + 8] == 'y' <==> total == 1)
    // and it closes with the vacant count's word
    ensures |r| >= 7 && r[|r| - 7..] == " vacant"
  {
    var h, c := SummaryHead(total), SummaryCounts(occupied, vacant);
    var t, w := DecimalString(total), PropertyWord(total);
    HeadThenRest(t, w, h, c);
    ReadsBackAt(h + c, 0, total);
    h + c
  }

  /** In `h + c`, where `h` starts with `t` and then `w`, those pieces keep
      their places, and the line ends as `c` ends. */
  lemma HeadThenRest(t: string, w: string, h: string, c: string)
    requires |t| + |w| <= |h| && h[..|t|] == t && h[|t|..|t| + |w|] == w
    requires |w| >= 9 && |c| >= 7
    ensures var r := h + c;
            r[..|h|] == h && r[|h|..] == c && r[0..|t|] == t && r[0..] == r &&
            r[|t|..|t| + 8] == w[..8] && r[|t| + 8] == w[8] && r[|t|] == w[0] &&
            r[|r| - 7..] == c[|c| - 7..]
  {
    var r := h + c;
    assert r[|t|..|t| + 8] == h[|t|..|t| + 8] == h[|t|..|t| + |w|][..8];
    assert r[|t| + 8] == h[|t|..|t| + |w|][8];
    assert r[|t|] == h[|t|..|t| + |w|][0];
  }

  /** The summary line above the filter buttons: it leads with the number
      of properties, and its counts are the list's occupied and vacant
      counts. */
  function Summary(ps: seq<Property>): (r: string)
    ensures DecimalValue(LeadingDigits(r)) == |ps|
    ensures |SummaryHead(|ps|)| <= |r| &&
            r[|SummaryHead(|ps|)|..] == SummaryCounts(OccupiedCount(ps), VacantCount(ps))
  {
    SummaryText(|ps|, OccupiedCount(ps), VacantCount(ps))
  }

  /** The counts part reads back: its leading digits are the occupied count,
      and the digits after " occupied · " are the vacant count. */
  lemma SummaryCountsReadBack(occupied: nat, vacant: nat)
    ensures var c := SummaryCounts(occupied, vacant);
            var o := DecimalString(occupied);
            DecimalValue(LeadingDigits(c)) == occupied &&
            |o| + |OccupiedWords| <= |c| &&
            DecimalValue(LeadingDigits(c[|o| + |OccupiedWords|..])) == vacant
  {
    var c := SummaryCounts(occupied, vacant);
    var o, v := DecimalString(occupied), DecimalString(vacant);
    var k := |o| + |OccupiedWords|;
    assert c[|o|] == OccupiedWords[0];
    ReadsBackAt(c, 0, occupied);
    assert c[0..] == c;
    assert c[k + |v|] == VacantWord[0];
    ReadsBackAt(c, k, vacant);
  }

  /** For N properties of which k are occupied and the rest vacant, the
      summary reports N in total, k occupied and N - k vacant. */
  lemma SummaryOfKnownStatuses(ps: seq<Property>)
    requires forall i :: 0 <= i < |ps| ==> HasKnownStatus(ps[i])
    ensures Summary(ps) == SummaryText(|ps|, OccupiedCount(ps), |ps| - OccupiedCount(ps))
  {
    CountsCoverList(ps);
    var o, v := OccupiedCount(ps), VacantCount(ps);
    assert v == |ps| - o;
    assert Summary(ps) == SummaryText(|ps|, o, v);
  }

  /** One row of the list: name, suburb and the status badge. */
  datatype PropertyCard = PropertyCard(name: string, suburb: string, badge: string)

  /** The badge reads "Occupied" for an occupied property and "Vacant" for
      any other status. */
  function Card(p: Property): (c: PropertyCard)
    ensures c.name == p.name && c.suburb == p.suburb
    ensures c.badge == "Occupied" <==> p.status == "occupied"
    ensures c.badge == "Occupied" || c.badge == "Vacant"
  {
    PropertyCard(p.name, p.suburb, if p.status == "occupied" then "Occupied" else "Vacant")
  }

  /** What the section shows: only the message for an empty list; otherwise
      the summary and one row per filtered property. */
  datatype PropertyListView =
    | NoProperties(message: string)
    | Listing(summary: string, cards: seq<PropertyCard>)

  function Render(ps: seq<Property>, filter: Filter): (v: PropertyListView)
    ensures v.NoProperties? <==> ps == []
    ensures v.NoProperties? ==> v.message == NoPropertiesMessage
    ensures v.Listing? ==>
              v.summary == Summary(ps) &&
              |v.cards| == |Filtered(ps, filter)| &&
              forall k :: 0 <= k < |v.cards| ==> v.cards[k] == Card(Filtered(ps, filter)[k])
  {
    if |ps| == 0 then NoProperties(NoPropertiesMessage)
    else
      var shown := Filtered(ps, filter);
      Listing(Summary(ps), seq(|shown|, k requires 0 <= k < |shown| => Card(shown[k])))
  }
}
