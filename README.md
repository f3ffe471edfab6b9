# PropIQ components: a Dafny model

PropIQ is a small web app for a landlord's properties, tenants and leases,
backed by a remote data and authentication service. This project models the
parts of its React components that hold behaviour rather than markup:

- **Auth gate** (`AuthGate`). The session check on mount moves the status
  from `checking` to `signedOut` or `signedIn`. Sign-in and sign-up with
  email and password refuse blank credentials without a call, show the
  service's error message as it is, and show a confirmation hint when
  sign-up returns no user. `signedIn` is never left.
- **The three entry forms** (`AddPropertyForm`, `AddTenantForm`,
  `AddLeaseForm`). Each has a required-field check, builds a payload, awaits
  the `onAdd` / `onCreate` callback, and then either resets to its defaults
  or keeps the fields and shows a fixed error line. The busy flag is always
  cleared. The lease form also reads its amount inputs leniently.
- **The three list containers** (`PropertyListContainer`,
  `LeaseListContainer`, `TenantsListContainer`):
  - the load state (`loading`, then `error` or `success`);
  - the mapping of query rows into the lists' view models, with their
    defaults, joined names and active-lease counts;
  - for properties, adding a property and archiving one, each followed by a
    reload when the write succeeded.
- **The three list views** (`PropertyList`, `LeaseList`, `TenantsList`):
  - the occupied/vacant counts and the status filter;
  - the summary line;
  - the tenant line, the status badge and its classes;
  - the "N active lease(s)" badge;
  - the email and phone fallbacks;
  - the empty-list messages.

**How the components are modelled.**

- Each stateful component is a `class` whose fields are its React state.
- Each handler that changes state is a method. Its `ensures` ties the new
  state to a pure step function of the old state (`SubmitStep`, `AuthStep`,
  `CheckUserStep`, `Settle`).
- The step functions carry the case-by-case contracts.
- `Apply`/`Run` fold a sequence of user events over a step function. The
  lemmas about `Run` state what holds after any sequence of events.
- Every answer from the remote service is a parameter:
  - `Remote<T>` is `Ok(data)` or `Err(msg)`;
  - an awaited form callback resolves or rejects (`Outcome`);
  - an insert or update error is `Option<string>`.
- The `properties` table is a `PropertyTable` object holding a sequence of
  rows. This lets the add and archive flows be followed through to the
  reload that reads the table back.
- Pure derivations are functions, with lemmas about them.
- `Text` models JavaScript's `trim` with the exact ECMAScript whitespace set.
  It also models `join`, the decimal rendering of counts, and the
  `"${first ?? ''} ${last ?? ''}".trim()` name line that two mappers share.

**What the code does not do, and the model therefore does not either:**

- The property form requires only the name; a blank suburb is accepted.
- No form has an edit mode or initial values.
- Archiving is issued without a confirmation step.
- The containers have no guard against setting state after unmount.

## Model

| member | source | states |
|---|---|---|
| Text.Trim | src/components/AddPropertyForm.tsx:26 | `s.trim()` has no whitespace at either end and is the slice of `s` left once its leading and trailing whitespace are cut off; only whitespace is cut off |
| Text.TrimEmptyIffBlank | src/components/AddPropertyForm.tsx:26 | `!s.trim()` holds exactly when every character of `s` is JavaScript whitespace, so each "required" check rejects exactly the blank inputs |
| Text.JoinedName | src/components/TenantsListContainer.tsx:37 | the "first last" line built from the two optional parts has no outer whitespace |
| Text.JoinedNameEmptyIff | src/components/TenantsListContainer.tsx:37 | the trimmed "first last" line is empty exactly when both parts are missing or blank |
| AuthGate.CapturedEmail | src/components/AuthGate.tsx:64 | the captured email is the returned user's email, null when no user came back, and present only when that user has one |
| AuthGate.CheckUserStep | src/components/AuthGate.tsx:26-36 | after the session check the status is never `checking`; it is `signedIn` exactly when the answer has no error and has a user, and then `userEmail` is that user's email or null; an error or a missing user gives `signedOut`; nothing else changes |
| AuthGate.AuthStep | src/components/AuthGate.tsx:41-88 | a blank trimmed email or password sets "Email and password are required." and makes no call; otherwise the trimmed credentials are sent and the busy flag ends false; a service error is shown verbatim with the status kept; a sign-in, or a sign-up returning a user, signs in and captures the email; a sign-up without a user stays put with "Check your email to confirm your account."; the status only stays or becomes `signedIn` |
| AuthGate.SignedInIsFinal | src/components/AuthGate.tsx:41-88 | from `signedIn`, no sequence of typing and sign-in/sign-up attempts leaves `signedIn` |
| AuthGate.SettledStaysSettled | src/components/AuthGate.tsx:43-87 | once out of `checking` and not busy, every sequence of events ends out of `checking` and not busy |
| AuthGate.MountThenRun | src/components/AuthGate.tsx:18-39 | from the mount state (`checking`), after the session check and any events, the gate is `signedOut` or `signedIn` and not busy |
| AuthGate.Gate.constructor | src/components/AuthGate.tsx:18-23 | the gate starts `checking`, with empty inputs, no message, not busy and no user email |
| AuthGate.Gate.TypeEmail | src/components/AuthGate.tsx:116 | typing in the email input stores the text and changes nothing else |
| AuthGate.Gate.TypePassword | src/components/AuthGate.tsx:129 | typing in the password input stores the text and changes nothing else |
| AuthGate.Gate.CheckUser | src/components/AuthGate.tsx:26-36 | the mount effect's session check performs `CheckUserStep` on the gate's fields |
| AuthGate.Gate.HandleAuth | src/components/AuthGate.tsx:41-88 | the handler's statement-by-statement updates end in the state `AuthStep` gives, and it returns the credentials sent, if any |
| AddPropertyForm.SubmitStep | src/components/AddPropertyForm.tsx:22-50 | only a blank trimmed name blocks the callback (error "Name is required"); the payload is the trimmed name and suburb with the chosen status; success resets to empty fields and `occupied`; failure keeps the fields and sets "Could not add property. Please try again."; the busy flag ends false |
| AddPropertyForm.NeverLeftSubmitting | src/components/AddPropertyForm.tsx:37-49 | after any sequence of edits and submits, the form is not left busy |
| AddPropertyForm.ResubmitAfterSuccessIsBlocked | src/components/AddPropertyForm.tsx:26-43 | submitting again right after a successful submit is stopped by the name check |
| AddPropertyForm.Form.constructor | src/components/AddPropertyForm.tsx:16-20 | the form starts with empty name and suburb, status `occupied`, no error, not busy |
| AddPropertyForm.Form.TypeName | src/components/AddPropertyForm.tsx:67 | typing in the name input stores the text and changes nothing else |
| AddPropertyForm.Form.TypeSuburb | src/components/AddPropertyForm.tsx:81 | typing in the suburb input stores the text and changes nothing else |
| AddPropertyForm.Form.ChooseStatus | src/components/AddPropertyForm.tsx:94 | choosing a status stores it and changes nothing else |
| AddPropertyForm.Form.HandleSubmit | src/components/AddPropertyForm.tsx:22-50 | the handler's updates end in the state `SubmitStep` gives, and it returns the payload handed to `onAdd`, if any |
| AddTenantForm.SubmitStep | src/components/AddTenantForm.tsx:24-54 | a blank trimmed first or last name blocks the callback with "First name and last name are required"; blank email and phone do not block; every payload field is the trimmed input; success clears all four fields; failure keeps them and sets "Could not add tenant. Please try again."; the busy flag ends false |
| AddTenantForm.PayloadIsTrimmed | src/components/AddTenantForm.tsx:33-38 | every payload field has no outer whitespace, and trimming the inputs beforehand sends the same payload |
| AddTenantForm.NeverLeftSubmitting | src/components/AddTenantForm.tsx:40-53 | after any sequence of edits and submits, the form is not left busy |
| AddTenantForm.Form.constructor | src/components/AddTenantForm.tsx:17-22 | the form starts with four empty fields, no error, not busy |
| AddTenantForm.Form.TypeFirstName | src/components/AddTenantForm.tsx:77 | typing in the first-name input stores the text and changes nothing else |
| AddTenantForm.Form.TypeLastName | src/components/AddTenantForm.tsx:93 | typing in the last-name input stores the text and changes nothing else |
| AddTenantForm.Form.TypeEmail | src/components/AddTenantForm.tsx:109 | typing in the email input stores the text and changes nothing else |
| AddTenantForm.Form.TypePhone | src/components/AddTenantForm.tsx:122 | typing in the phone input stores the text and changes nothing else |
| AddTenantForm.Form.HandleSubmit | src/components/AddTenantForm.tsx:24-54 | the handler's updates end in the state `SubmitStep` gives, and it returns the payload handed to `onAdd`, if any |
| AddLeaseForm.ParseNumber | src/components/AddLeaseForm.tsx:45-50 | an empty or all-whitespace input is absent; any other input is the number its trimmed text denotes, or absent when that is not a number |
| AddLeaseForm.ParseNumberIgnoresOuterWhitespace | src/components/AddLeaseForm.tsx:45-49 | an amount reads the same with or without outer whitespace |
| AddLeaseForm.SubmitStep | src/components/AddLeaseForm.tsx:52-88 | an empty property, tenant or start date (no trimming) blocks `onCreate` with "Property, tenant and start date are required"; the payload copies ids, date, frequency and bond and uses rent 0 when none was entered; success resets every field to its initial value (`weekly`, no amounts); failure keeps them with "Could not create lease. Please try again."; the busy flag ends false |
| AddLeaseForm.NeverLeftSubmitting | src/components/AddLeaseForm.tsx:72-87 | after any sequence of edits and submits, the form is not left busy |
| AddLeaseForm.Form.constructor | src/components/AddLeaseForm.tsx:35-43 | the form starts with empty choices and date, no amounts, weekly rent, no error, not busy |
| AddLeaseForm.Form.ChooseProperty | src/components/AddLeaseForm.tsx:110 | choosing a property stores its id and changes nothing else |
| AddLeaseForm.Form.ChooseTenant | src/components/AddLeaseForm.tsx:132 | choosing a tenant stores its id and changes nothing else |
| AddLeaseForm.Form.TypeStartDate | src/components/AddLeaseForm.tsx:155 | entering a start date stores the text and changes nothing else |
| AddLeaseForm.Form.ChooseFrequency | src/components/AddLeaseForm.tsx:187-189 | choosing a frequency stores it and changes nothing else |
| AddLeaseForm.Form.TypeRent | src/components/AddLeaseForm.tsx:172 | typing in the rent input stores the parsed amount and changes nothing else |
| AddLeaseForm.Form.TypeBond | src/components/AddLeaseForm.tsx:208 | typing in the bond input stores the parsed amount and changes nothing else |
| AddLeaseForm.Form.HandleSubmit | src/components/AddLeaseForm.tsx:52-88 | the handler's updates end in the state `SubmitStep` gives, and it returns the payload handed to `onCreate`, if any |
| PropertyList.CountStatus | src/components/PropertyList.tsx:27-28 | a status count never exceeds the number of properties |
| PropertyList.CountsCoverList | src/components/PropertyList.tsx:27-28 | when every status is `occupied` or `vacant`, the occupied and vacant counts add up to the number of properties |
| PropertyList.WithStatus | src/components/PropertyList.tsx:33 | filtering by a status keeps as many properties as that status's count, each with that status |
| PropertyList.WithStatusKeepsOrder | src/components/PropertyList.tsx:30-33 | filtering by a status keeps the properties in their original order (a subsequence) |
| PropertyList.WithStatusExactly | src/components/PropertyList.tsx:33 | filtering by a status keeps every property with that status, as often as it occurs, and no other |
| PropertyList.FilteredIsExactSelection | src/components/PropertyList.tsx:30-33 | under `all` the list is shown unchanged; under a status it is exactly the properties with that status, in order, as many as the count |
| PropertyList.OccupiedCount | src/components/PropertyList.tsx:27 | the occupied count is at most the number of properties and equals the length of the list the "Occupied" filter shows |
| PropertyList.VacantCount | src/components/PropertyList.tsx:28 | the vacant count is at most the number of properties and equals the length of the list the "Vacant" filter shows |
| PropertyList.Filtered | src/components/PropertyList.tsx:30-33 | the shown list is never longer than the list; under `all` it is the list itself; under a status it has that status's count of properties, each with that status |
| PropertyList.PropertyWord | src/components/PropertyList.tsx:55 | the word after the total is " property" exactly for one property and " properties" otherwise |
| PropertyList.SummaryHead | src/components/PropertyList.tsx:55 | the head of the line is the total's digits, then its word, then " total · ", each at its place |
| PropertyList.SummaryCounts | src/components/PropertyList.tsx:56-57 | the rest of the line is the occupied digits, " occupied · ", the vacant digits and " vacant", each at its place and nothing else |
| PropertyList.SummaryCountsReadBack | src/components/PropertyList.tsx:56-57 | in the rest of the line, the leading digits read back as the occupied count and the digits after " occupied · " as the vacant count |
| PropertyList.SummaryText | src/components/PropertyList.tsx:54-58 | the line is the head for the total followed by the counts part; it leads with the total's digits, which read back as the total, then " property" for exactly one and " properties" otherwise, and closes with " vacant" |
| PropertyList.Summary | src/components/PropertyList.tsx:54-58 | the summary's leading number reads back as the number of properties, and its counts part is the one for the list's occupied and vacant counts |
| PropertyList.Card | src/components/PropertyList.tsx:79-98 | a property row shows its name and suburb and a badge that reads "Occupied" exactly for status `occupied` and "Vacant" otherwise |
| PropertyList.SummaryOfKnownStatuses | src/components/PropertyList.tsx:54-58 | with known statuses, the summary reports N in total, k occupied and N - k vacant |
| PropertyList.Render | src/components/PropertyList.tsx:47-98 | an empty list shows only the "no properties yet" message; otherwise the summary and one row per filtered property, badge "Occupied" for occupied and "Vacant" for anything else |
| PropertyListContainer.MapProperty | src/components/PropertyListContainer.tsx:29-34 | id, name and status are copied; a missing suburb becomes "" and a present one is kept |
| PropertyListContainer.MapProperties | src/components/PropertyListContainer.tsx:28-34 | one property per row, same length and order |
| PropertyListContainer.ActiveRows | src/components/PropertyListContainer.tsx:17-20 | the query returns only rows that are not archived, drawn from the table |
| PropertyListContainer.ActiveRowsKeepsOrder | src/components/PropertyListContainer.tsx:17-20 | the selected rows keep the table's order (a subsequence) |
| PropertyListContainer.ActiveRowsExactly | src/components/PropertyListContainer.tsx:17-20 | the selection holds every row that is not archived, as often as it occurs in the table, and no archived row |
| PropertyListContainer.ActiveRowsAppend | src/components/PropertyListContainer.tsx:17-20 | the query's selection respects the table's order: a table that grows at its end answers with its old answer plus the new rows' selection |
| PropertyListContainer.Query | src/components/PropertyListContainer.tsx:17-26 | the list query fails exactly when the service reports an error, and otherwise returns every non-archived row and no other, in table order |
| PropertyListContainer.NewRow | src/components/PropertyListContainer.tsx:46-54 | the inserted row has `street` = name, state "WA", no postcode, not archived, and the form's suburb and status |
| PropertyListContainer.ArchiveRows | src/components/PropertyListContainer.tsx:66-69 | the archive update sets `is_archived` only on the rows with the given id and changes nothing else |
| PropertyListContainer.WithoutId | src/components/PropertyListContainer.tsx:66-69 | the rows left once an id is dropped have another id and come from the list |
| PropertyListContainer.WithoutIdKeepsOrder | src/components/PropertyListContainer.tsx:66-69 | dropping an id keeps the remaining rows in order (a subsequence) |
| PropertyListContainer.WithoutIdExactly | src/components/PropertyListContainer.tsx:66-69 | dropping an id keeps every row with another id, as often as it occurs, and no row with that id |
| PropertyListContainer.ArchiveHidesOnlyId | src/components/PropertyListContainer.tsx:66-69 | after archiving an id, the query returns what it returned before, less the rows with that id |
| PropertyListContainer.Settle | src/components/PropertyListContainer.tsx:14-38 | a load ends out of `loading`; `error` exactly on a query error, with the held properties unchanged; otherwise `success` with the mapping of the rows (no data gives an empty list) |
| PropertyListContainer.ReloadAfterArchive | src/components/PropertyListContainer.tsx:65-78 | the reload after a successful archive holds no property with that id and every other active property, in order |
| PropertyListContainer.ReloadAfterAdd | src/components/PropertyListContainer.tsx:44-63 | the reload after a successful insert shows the previous list with the new property at its end |
| PropertyListContainer.PropertyTable.Insert | src/components/PropertyListContainer.tsx:46-54 | the table gains exactly the inserted row |
| PropertyListContainer.PropertyTable.ArchiveById | src/components/PropertyListContainer.tsx:66-69 | the table becomes `ArchiveRows` of itself |
| PropertyListContainer.Container.constructor | src/components/PropertyListContainer.tsx:11-12 | the container starts with no properties, `loading` |
| PropertyListContainer.Container.BeginLoad | src/components/PropertyListContainer.tsx:15 | a load first shows `loading` and keeps the held properties |
| PropertyListContainer.Container.FinishLoad | src/components/PropertyListContainer.tsx:22-37 | the query's answer settles the state as `Settle` says |
| PropertyListContainer.Container.LoadProperties | src/components/PropertyListContainer.tsx:14-38 | `loadProperties` against the table ends in `Settle` of the loading state and the query's answer |
| PropertyListContainer.Container.HandleAddProperty | src/components/PropertyListContainer.tsx:44-63 | an insert error is rethrown with the table and the state unchanged (no reload); otherwise the row is inserted and the state is that of a fresh reload of the updated table |
| PropertyListContainer.Container.HandleArchiveProperty | src/components/PropertyListContainer.tsx:65-78 | an update error leaves the table and state unchanged (no reload); otherwise the row is archived and the state is that of a fresh reload of the updated table |
| LeaseListContainer.PropertyName | src/components/LeaseListContainer.tsx:43 | the joined property's name, or "Unknown property" when the join or its name is missing (`??` keeps an empty name, which is then the only way to get an empty property name) |
| LeaseListContainer.LinkName | src/components/LeaseListContainer.tsx:46-51 | a link contributes a non-empty trimmed name or nothing; nothing when it has no tenant; a tenant contributes exactly its trimmed "first last" line, and is dropped exactly when both name parts are missing or blank |
| LeaseListContainer.TenantNames | src/components/LeaseListContainer.tsx:45-51 | at most one name per link, each non-empty and trimmed |
| LeaseListContainer.TenantNamesAppend | src/components/LeaseListContainer.tsx:45-51 | names keep the order of the links |
| LeaseListContainer.LinkNameDroppedIff | src/components/LeaseListContainer.tsx:46-51 | a link is dropped exactly when it has no tenant or both name parts are missing or blank |
| LeaseListContainer.EveryNamedTenantListed | src/components/LeaseListContainer.tsx:45-51 | when every link has a tenant with at least one name part that is not blank, there is one name per link, each the trimmed "first last" |
| LeaseListContainer.MapLease | src/components/LeaseListContainer.tsx:42-61 | id and start date copied, property name as above, tenant names as above (no links gives none), rent 0 / frequency "weekly" / status "pending" when missing |
| LeaseListContainer.MapLeases | src/components/LeaseListContainer.tsx:41-62 | one lease per row, same length and order |
| LeaseListContainer.Settle | src/components/LeaseListContainer.tsx:13-66 | a load ends out of `loading`; `error` exactly on a query error, with the held leases unchanged; otherwise `success` with the mapping of the rows (no data gives an empty list) |
| LeaseListContainer.Container.constructor | src/components/LeaseListContainer.tsx:10-11 | the container starts with no leases, `loading` |
| LeaseListContainer.Container.BeginLoad | src/components/LeaseListContainer.tsx:14 | a load first shows `loading` and keeps the held leases |
| LeaseListContainer.Container.FinishLoad | src/components/LeaseListContainer.tsx:35-65 | the query's answer settles the state as `Settle` says |
| LeaseListContainer.Container.LoadLeases | src/components/LeaseListContainer.tsx:13-66 | `loadLeases` ends in `Settle` of the loading state and the query's answer |
| TenantsListContainer.FullName | src/components/TenantsListContainer.tsx:37-45 | the display name is never empty and has no outer whitespace: "Unnamed tenant" when both parts are missing or blank, else the trimmed "first last" |
| TenantsListContainer.IsActiveLink | src/components/TenantsListContainer.tsx:39-41 | a link counts only when its lease is there with a status, and then exactly when that status is "active"; a missing lease or status never counts |
| TenantsListContainer.ActiveLeasesCount | src/components/TenantsListContainer.tsx:39-41 | the active-lease count never exceeds the number of links |
| TenantsListContainer.ActiveLeasesCountAppend | src/components/TenantsListContainer.tsx:39-41 | the count over two runs of links is the sum of their counts |
| TenantsListContainer.NoActiveLeasesIff | src/components/TenantsListContainer.tsx:39-41 | the count is 0 exactly when no link has a lease whose status is exactly "active" |
| TenantsListContainer.AllLeasesActiveIff | src/components/TenantsListContainer.tsx:39-41 | the count equals the number of links exactly when every link has a lease whose status is exactly "active" |
| TenantsListContainer.MapTenant | src/components/TenantsListContainer.tsx:36-50 | id copied, display name as above, email and phone kept (missing stays missing), active-lease count as above (0 with no links) |
| TenantsListContainer.MapTenants | src/components/TenantsListContainer.tsx:35-50 | one item per row, same length and order |
| TenantsListContainer.Settle | src/components/TenantsListContainer.tsx:13-54 | a load ends out of `loading`; `error` exactly on a query error, with the held tenants unchanged; otherwise `success` with the mapping of the rows |
| TenantsListContainer.Container.constructor | src/components/TenantsListContainer.tsx:10-11 | the container starts with no tenants, `loading` |
| TenantsListContainer.Container.BeginLoad | src/components/TenantsListContainer.tsx:14 | a load first shows `loading` and keeps the held tenants |
| TenantsListContainer.Container.FinishLoad | src/components/TenantsListContainer.tsx:29-53 | the query's answer settles the state as `Settle` says |
| TenantsListContainer.Container.LoadTenants | src/components/TenantsListContainer.tsx:13-54 | `loadTenants` ends in `Settle` of the loading state and the query's answer |
| LeaseList.TenantLine | src/components/LeaseList.tsx:73-75 | "No tenants linked" for no names; otherwise the names joined with ", " (a single name alone), as long as all names plus one separator between each two neighbours, the first name leading |
| LeaseList.TenantLineHoldsEveryName | src/components/LeaseList.tsx:73-75 | every name stands in the line in its own place, after the names before it and one ", " for each of them, and is followed by ", " unless it is the last |
| Text.Join | src/components/LeaseList.tsx:74 | a join of at least one part starts with the first part |
| Text.JoinLength | src/components/LeaseList.tsx:74 | a join is as long as all parts plus one separator between each two neighbours |
| Text.JoinPart | src/components/LeaseList.tsx:74 | in `parts.join(sep)`, part i sits at the total length of the parts before it plus i separators |
| Text.JoinSeparator | src/components/LeaseList.tsx:74 | in `parts.join(sep)`, every part but the last is followed directly by the separator |
| LeaseList.StatusLabel | src/components/LeaseList.tsx:91-95 | "Active" exactly for `active`, "Pending" exactly for `pending`, "Ended" for anything else |
| LeaseList.StatusClasses | src/components/LeaseList.tsx:33-43 | the green classes exactly for `active`, the amber ones exactly for `pending`, one shared default for `ended` and any other value |
| LeaseList.ClassesFollowLabel | src/components/LeaseList.tsx:33-43 | two statuses share badge classes exactly when they share a badge label |
| LeaseList.FormatDate | src/components/LeaseList.tsx:18-27 | an empty date renders as ""; text that is not a date is shown as it is; a date renders in the user's locale |
| LeaseList.FormatRent | src/components/LeaseList.tsx:29-31 | the rent text is "$", then the two-decimal amount, then " / ", then the frequency, each at its place and nothing else |
| LeaseList.Card | src/components/LeaseList.tsx:68-96 | a lease row shows the property name, the tenant line, "Start: " followed by the formatted date, the rent text, and the badge for the lease's own status: its label and classes, "Active" exactly for `active` and "Pending" exactly for `pending`, label and colour always agreeing |
| Text.DecimalString | src/components/TenantsList.tsx:53 | a count renders as a non-empty run of decimal digits whose first digit is 0 exactly for the count 0, so there is never a leading zero |
| Text.DecimalUnique | src/components/TenantsList.tsx:53 | any non-empty digit run without a leading zero is the rendering of the number it denotes, so with the round trip the rendering of a count is unique |
| Text.DecimalRoundTrip | src/components/TenantsList.tsx:53 | the rendered digits of a count read back as that count |
| Text.ReadsBackAt | src/components/PropertyList.tsx:55-57 | a count rendered inside a line and followed by a non-digit reads back, from its position, as that count |
| LeaseList.Render | src/components/LeaseList.tsx:45-104 | no leases shows only "No leases recorded yet. …"; otherwise one row per lease, in order |
| TenantsList.ActiveLeaseLabel | src/components/TenantsList.tsx:51-60 | 0 gives "No active leases"; otherwise the badge is the count's digits, which read back as the count, followed by " active lease" and an "s" exactly when the count is above 1 |
| TenantsList.EmailLine | src/components/TenantsList.tsx:41 | a missing or empty email shows "No email recorded", any other email is shown; the line is never empty |
| TenantsList.PhoneLine | src/components/TenantsList.tsx:43-47 | the phone line appears exactly when the phone is present and non-empty, and then shows it (never an empty line) |
| TenantsList.Card | src/components/TenantsList.tsx:36-61 | a tenant row shows the name, an email line that is never empty, a phone line exactly when a non-empty phone is present, and the lease badge, which is "No active leases" exactly for a count of 0 |
| TenantsList.Render | src/components/TenantsList.tsx:13-68 | no tenants shows only "No tenants captured yet. …"; otherwise one row per tenant, in order |

## Left out

- Calls into the remote data and auth services (`supabase.from(...)`,
  `supabase.auth.*`, src/lib/supabaseClient.ts) are foreign code. Their
  answers are parameters. The `properties` table is a sequence of rows read
  back in insertion order; the real query fixes no order.
- Overlapping asynchronous requests and the order in which they settle are
  not modelled. Each handler runs from its first statement to its last with
  the service's answer given up front. A load is split into `BeginLoad` and
  `FinishLoad` so that the `loading` state in between can be observed.
- Logging with `console.error` is not modelled.
- AddLeaseForm.ParseNumber: JavaScript's `Number(...)` and the not-a-number
  test are the parameter `toNumber`; the numeric grammar is not modelled.
- LeaseListContainer.MapLease: `rent_amount` is taken to arrive as a number,
  so `Number(...)` on it is the identity. A start date that is missing in
  the row is not modelled; the source casts it to a string unchecked.
- LeaseList.FormatDate: parsing a date and `toLocaleDateString` are the
  parameter `localize`.
- LeaseList.FormatRent: `toFixed(2)` is the parameter `toFixed2`.
- The test-only bypass of the auth gate (src/components/AuthGate.tsx:14-16)
  only applies under the test runner and is left out. So is the gate's
  rendering.
- The property list's action buttons (archive, edit, manage tenants) and
  the badge colours are markup. The archive flow they start is modelled in
  the container.
- The lease form's property and tenant option lists are render-only.
- Navigation, layout and page components are routing and DOM glue, and are
  not part of this model. The new-property page reads fields that the
  property form does not define, and is not part of this model either.
- Nothing prevents a second submit while a form is busy, other than the
  disabled button. Each submit here is one step, so that window is not
  modelled.
