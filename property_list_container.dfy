/** The properties page's container: it loads the non-archived rows of the
    `properties` table, maps them for the list, adds a property through the
    form and archives one from the list, reloading after each successful
    write. The table is a sequence of rows in a `PropertyTable`; the remote
    service's answers (a query error, an insert or update error) are
    parameters. */
module PropertyListContainer {
  import opened Wrappers
  import opened PropertyList
  import AddPropertyForm

  /** A row of the `properties` table. */
  datatype PropertyRow = PropertyRow(
    id: string,
    name: string,
    street: string,
    suburb: Option<string>,
    state: string,
    postcode: Option<string>,
    status: string,
    isArchived: bool)

  /** The list's view of one row: id, name and status as stored, a missing
      suburb shown as the empty string. */
  function MapProperty(row: PropertyRow): (p: Property)
    ensures p.id == row.id && p.name == row.name && p.status == row.status
    ensures row.suburb.None? ==> p.suburb == ""
    ensures row.suburb.Some? ==> p.suburb == row.suburb.value
  {
    Property(row.id, row.name, row.suburb.GetOr(""), row.status)
  }

  /** `rows.map(...)`: one property per row, in the same order. */
  function MapProperties(rows: seq<PropertyRow>): (ps: seq<Property>)
    ensures |ps| == |rows|
    ensures forall i :: 0 <= i < |rows| ==> ps[i] == MapProperty(rows[i])
  {
    if rows == [] then [] else [MapProperty(rows[0])] + MapProperties(rows[1..])
  }

  /** The rows with `is_archived = false`, in table order. */
  function ActiveRows(rows: seq<PropertyRow>): (r: seq<PropertyRow>)
    ensures |r| <= |rows|
    ensures forall i :: 0 <= i < |r| ==> !r[i].isArchived && r[i] in rows
  {
    if rows == [] then []
    else if !rows[0].isArchived then [rows[0]] + ActiveRows(rows[1..])
    else ActiveRows(rows[1..])
  }

  /** The selection keeps the table's order. */
  lemma {:induction false} ActiveRowsKeepsOrder(rows: seq<PropertyRow>)
    ensures IsSubsequence(ActiveRows(rows), rows)
  {
    if rows != [] {
      ActiveRowsKeepsOrder(rows[1..]);
      var r := ActiveRows(rows);
      if rows[0].isArchived && r != [] {
        assert !r[0].isArchived;
      }
    }
  }

  /** The selection holds every row that is not archived, as often as it
      occurs, and no other. */
  lemma {:induction false} ActiveRowsExactly(rows: seq<PropertyRow>)
    ensures forall row :: multiset(ActiveRows(rows))[row] ==
                          if row.isArchived then 0 else multiset(rows)[row]
  {
    if rows != [] {
      ActiveRowsExactly(rows[1..]);
      assert rows == [rows[0]] + rows[1..];
    }
  }

  /** Selecting the active rows of two stretches of the table selects them
      stretch by stretch. */
  lemma {:induction false} ActiveRowsAppend(a: seq<PropertyRow>, b: seq<PropertyRow>)
    ensures ActiveRows(a + b) == ActiveRows(a) + ActiveRows(b)
  {
    if a != [] {
      ActiveRowsAppend(a[1..], b);
      assert (a + b)[0] == a[0] && (a + b)[1..] == a[1..] + b;
      AppendAssociative(if a[0].isArchived then [] else [a[0]], ActiveRows(a[1..]), ActiveRows(b));
    } else {
      assert a + b == b;
    }
  }

  /** The answer of the list query against `rows`: the query's error, if it
      fails, and otherwise only the rows that are not archived. */
  function Query(rows: seq<PropertyRow>, queryError: Option<string>): (r: Remote<Option<seq<PropertyRow>>>)
    ensures r.Err? <==> queryError.Some?
    ensures r.Ok? ==> r.data.Some? && forall i :: 0 <= i < |r.data.value| ==> !r.data.value[i].isArchived
    // every row that is not archived is in the answer, in table order
    ensures r.Ok? ==> forall i :: 0 <= i < |rows| && !rows[i].isArchived ==> rows[i] in r.data.value
    ensures r.Ok? ==> IsSubsequence(r.data.value, rows)
  {
    ActiveRowsExactly(rows);
    ActiveRowsKeepsOrder(rows);
    if queryError.Some? then Err(queryError.value) else Ok(Some(ActiveRows(rows)))
  }

  /** The row `handleAddProperty` inserts for the form's values: the name
      doubles as the street, the state is "WA", there is no postcode and the
      row is not archived. The store assigns `id`. */
  function NewRow(id: string, values: AddPropertyForm.PropertyFormValues): (row: PropertyRow)
    ensures row.street == row.name == values.name && row.state == "WA"
    ensures row.postcode.None? && !row.isArchived
    ensures row.suburb == Some(values.suburb) && row.status == values.status.Name()
  {
    PropertyRow(id, values.name, values.name, Some(values.suburb), "WA", None, values.status.Name(), false)
  }

  /** The update `is_archived = true` where `id` matches: every row keeps its
      place, only rows with that id are changed, and only in that flag. */
  function ArchiveRows(rows: seq<PropertyRow>, id: string): (r: seq<PropertyRow>)
    ensures |r| == |rows|
    ensures forall i :: 0 <= i < |rows| ==>
              r[i] == if rows[i].id == id then rows[i].(isArchived := true) else rows[i]
  {
    if rows == [] then []
    else [if rows[0].id == id then rows[0].(isArchived := true) else rows[0]] + ArchiveRows(rows[1..], id)
  }

  /** The rows of `rows` whose id is not `id`, in order. */
  function WithoutId(rows: seq<PropertyRow>, id: string): (r: seq<PropertyRow>)
    ensures forall i :: 0 <= i < |r| ==> r[i].id != id && r[i] in rows
  {
    if rows == [] then []
    else if rows[0].id != id then [rows[0]] + WithoutId(rows[1..], id)
    else WithoutId(rows[1..], id)
  }

  /** Dropping an id keeps the order of the rest. */
  lemma {:induction false} WithoutIdKeepsOrder(rows: seq<PropertyRow>, id: string)
    ensures IsSubsequence(WithoutId(rows, id), rows)
  {
    if rows != [] {
      WithoutIdKeepsOrder(rows[1..], id);
      var r := WithoutId(rows, id);
      if rows[0].id == id && r != [] {
        assert r[0].id != id;
      }
    }
  }

  /** Dropping an id keeps every row with another id, as often as it
      occurs, and no other. */
  lemma {:induction false} WithoutIdExactly(rows: seq<PropertyRow>, id: string)
    ensures forall row :: multiset(WithoutId(rows, id))[row] ==
                          if row.id == id then 0 else multiset(rows)[row]
  {
    if rows != [] {
      WithoutIdExactly(rows[1..], id);
      assert rows == [rows[0]] + rows[1..];
    }
  }

  /** After archiving `id` the query returns exactly what it returned
      before, less the rows with that id. */
  lemma {:induction false} ArchiveHidesOnlyId(rows: seq<PropertyRow>, id: string)
    ensures ActiveRows(ArchiveRows(rows, id)) == WithoutId(ActiveRows(rows), id)
  {
    if rows != [] {
      ArchiveHidesOnlyId(rows[1..], id);
      assert ArchiveRows(rows, id)[1..] == ArchiveRows(rows[1..], id);
    }
  }

  /** The container's state: the properties held and the load state. */
  datatype ContainerState = ContainerState(properties: seq<Property>, state: LoadState)

  /** The state the container mounts with: no properties, loading. */
  const Initial := ContainerState([], Loading)

  /** How a load in flight settles on the query's answer: an error keeps the
      properties held so far; data replaces them with its mapping (`data ??
      []`). */
  function Settle(s: ContainerState, reply: Remote<Option<seq<PropertyRow>>>): (r: ContainerState)
    ensures r.state != Loading
    ensures r.state == Error <==> reply.Err?
    ensures reply.Err? ==> r.properties == s.properties
    ensures reply.Ok? && reply.data.None? ==> r.properties == []
    ensures reply.Ok? && reply.data.Some? ==>
              |r.properties| == |reply.data.value| &&
              forall i :: 0 <= i < |reply.data.value| ==> r.properties[i] == MapProperty(reply.data.value[i])
  {
    match reply
    case Err(_) => s.(state := Error)
    case Ok(data) => ContainerState(MapProperties(data.GetOr([])), Success)
  }

  /** A successful reload after archiving `id` holds no property with that
      id, and every other property shown before is still shown, in order. */
  lemma ReloadAfterArchive(t: ContainerState, rows: seq<PropertyRow>, id: string)
    ensures var after := Settle(t, Query(ArchiveRows(rows, id), None));
            after.state == Success &&
            (forall i :: 0 <= i < |after.properties| ==> after.properties[i].id != id) &&
            after.properties == MapProperties(WithoutId(ActiveRows(rows), id))
  {
    ArchiveHidesOnlyId(rows, id);
  }

  /** A successful reload after inserting a row shows the list from before
      with the new property at its end. */
  lemma {:induction false} ReloadAfterAdd(t: ContainerState, rows: seq<PropertyRow>, id: string, values: AddPropertyForm.PropertyFormValues)
    ensures Settle(t, Query(rows + [NewRow(id, values)], None)).properties ==
            MapProperties(ActiveRows(rows)) + [Property(id, values.name, values.suburb, values.status.Name())]
  {
    var row := NewRow(id, values);
    ActiveRowsAppend(rows, [row]);
    assert ActiveRows([row]) == [row];
    var shown := Settle(t, Query(rows + [row], None)).properties;
    var expected := MapProperties(ActiveRows(rows)) + [Property(id, values.name, values.suburb, values.status.Name())];
    assert |shown| == |expected|;
    forall i | 0 <= i < |shown| ensures shown[i] == expected[i] {
    }
  }

  /** The `properties` table. */
  class PropertyTable {
    var rows: seq<PropertyRow>

    constructor (rows: seq<PropertyRow>)
      ensures this.rows == rows
    {
      this.rows := rows;
    }

    /** Appends a row (the store is read back in insertion order). */
    method Insert(row: PropertyRow)
      modifies this
      ensures rows == old(rows) + [row]
    {
      rows := rows + [row];
    }

    /** `update({ is_archived: true }).eq("id", id)` */
    method ArchiveById(id: string)
      modifies this
      ensures rows == ArchiveRows(old(rows), id)
    {
      rows := ArchiveRows(rows, id);
    }
  }

  /** The container component: its fields are the React state. */
  class Container {
    var properties: seq<Property>
    var state: LoadState

    function State(): ContainerState
      reads this
    {
      ContainerState(properties, state)
    }

    constructor ()
      ensures State() == Initial
    {
      properties, state := [], Loading;
    }

    /** The first step of `loadProperties`: the list shows "loading". */
    method BeginLoad()
      modifies this
      ensures State() == old(State()).(state := Loading)
    {
      state := Loading;
    }

    /** The rest of `loadProperties`, once the query has answered. */
    method FinishLoad(reply: Remote<Option<seq<PropertyRow>>>)
      modifies this
      ensures State() == Settle(old(State()), reply)
    {
      if reply.Err? {
        state := Error;
        return;
      }
      properties := MapProperties(reply.data.GetOr([]));
      state := Success;
    }

    /** `loadProperties` against the table, with the query's error, if any,
      as a parameter. */
    method LoadProperties(db: PropertyTable, queryError: Option<string>)
      modifies this
      ensures State() == Settle(old(State()).(state := Loading), Query(db.rows, queryError))
    {
      BeginLoad();
      FinishLoad(Query(db.rows, queryError));
    }

    /** `handleAddProperty`: inserts the row (with the id the store assigns)
      unless the insert fails, in which case it throws and nothing is
      reloaded; after a successful insert it reloads once. */
    method HandleAddProperty(db: PropertyTable, values: AddPropertyForm.PropertyFormValues, newId: string,
                             insertError: Option<string>, queryError: Option<string>)
      returns (thrown: bool)
      modifies this, db
      ensures thrown <==> insertError.Some?
      ensures thrown ==> db.rows == old(db.rows) && State() == old(State())
      ensures !thrown ==>
                db.rows == old(db.rows) + [NewRow(newId, values)] &&
                State() == Settle(old(State()).(state := Loading), Query(db.rows, queryError))
    {
      if insertError.Some? {
        return true;
      }
      db.Insert(NewRow(newId, values));
      LoadProperties(db, queryError);
      return false;
    }

    /** `handleArchiveProperty`: on an update error nothing changes and
      nothing is reloaded; otherwise the row is archived and the list is
      reloaded once. */
    method HandleArchiveProperty(db: PropertyTable, id: string,
                                 updateError: Option<string>, queryError: Option<string>)
      modifies this, db
      ensures updateError.Some? ==> db.rows == old(db.rows) && State() == old(State())
      ensures updateError.None? ==>
                db.rows == ArchiveRows(old(db.rows), id) &&
                State() == Settle(old(State()).(state := Loading), Query(db.rows, queryError))
    {
      if updateError.Some? {
        return;
      }
      db.ArchiveById(id);
      LoadProperties(db, queryError);
    }
  }
}
