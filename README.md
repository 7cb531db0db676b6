# Emergency alert dispatch — a verified model

This project models the decision and aggregation logic of a women's-safety
web application. A user in distress presses one button. The application gets
a location fix and invokes a server function. That function sends a WhatsApp
message to every emergency contact through a messaging provider (Twilio) and
reports how many messages went out. The model covers four parts:

- **The `send-sos-sms` handler** (module `SendSos`). Its pre-flight checks run
  in a fixed order: CORS preflight, bearer header, claims, provider
  credentials, request body, non-empty contacts. The alert message follows a
  fixed template. For each contact the handler builds a provider request, with
  the `whatsapp:` prefix on both addresses and the form fields To, From, Body.
  The fan-out (`Promise.all`) is a loop that fills result slot *i* for contact
  *i*. Every provider reply is reduced to `{contact, success, sid|error}`. The
  handler then counts the sent and failed messages and returns 200, even when
  nothing was sent.
- **`handleSOS` on the home screen** (module `SosAlert`). It refuses to start
  without contacts. The payload lists the contacts in their cached order. The
  user name is the profile's full name, or the e-mail when there is none. The
  logged `sos_alerts` row takes its `status` and `contacts_notified` from the
  function's reply.
- **The contacts hook** (module `Contacts`). The database table is
  `emergency_contacts`. The hook fetches the user's rows, primary first and then
  by creation time. Adding a contact makes it primary iff the cached list is
  empty, and an empty relationship is stored as null. Contacts are deleted by
  id. Set-primary first clears every flag of the user and then sets one.
- **The geolocation hook** (module `Geolocation`). It steps a state record
  through no support, start, success and failure. It maps each position-error
  code to a message and builds the Google Maps link.

Services the code only calls into are parameters of the model:

- Supabase auth's `getClaims`.
- The provider's HTTP endpoint. Its reply may also depend on the position of the contact.
- `supabase.functions.invoke`.
- The browser's geolocation: whether it is supported, and what the position request reports.
- Whether each database call fails.
- The clock reading the database stamps on an insert.
- JavaScript's rendering of numbers: `toFixed(6)` and number-to-string.

The provider environment variables are an `Env` value.

What is proved, in short:

- Every early rejection of the handler issues no provider request.
- When all checks pass, there is exactly one outcome per contact, in input
  order, carrying the contact's name. Each outcome is the normalised provider
  reply. `sent + failed` equals the number of contacts.
- The fetched contact list holds exactly the user's rows, each as often as in
  the table, sorted.
- A complete set-primary leaves exactly one primary contact, and a refetch puts
  it first.
- An add made while the cache reflects the table keeps at most one primary.
  An add made while the cache is still empty can give a user a second one.
- Deleting an id removes exactly that row.
- A map link gives back its coordinates.
- The alert record says "failed" exactly when no message went out. In that case
  it still counts every contact as notified.

## Model

| member | source | states |
|---|---|---|
| `Js.Or` | src/pages/Index.tsx:66 | the `or` operator on optional strings: `a` when truthy, else `b`; the result is truthy iff either is |
| `Js.RemoveFirst` | supabase/functions/send-sos-sms/index.ts:42 | `replace(pattern, "")` removes at most one occurrence; on a string that starts with the pattern it drops exactly that prefix |
| `SendSos.Preflight` | supabase/functions/send-sos-sms/index.ts:22-73 | the checks in source order; going ahead always comes with a non-empty contact list |
| `SendSos.Handle` | supabase/functions/send-sos-sms/index.ts:20-135 | OPTIONS gets a body-less CORS reply before any auth check; a missing or non-`Bearer ` header, or claims with an error or without claims, give 401 Unauthorized; a throwing claims lookup or body parse gives 500 with the error; missing credentials give 500 "SMS service not configured" whatever the body holds; missing or empty contacts give 400; each of these issues no provider request; otherwise 200 with `success: true`, one result per contact in order named after it, request i is `Outbound` for contact i with the configured account, token and sender and the same message for all, and `sent + failed ==` the number of contacts |
| `SendSos.BearerPresented` | supabase/functions/send-sos-sms/index.ts:28-29 | an `Authorization` header is present and starts with `Bearer ` |
| `SendSos.BearerToken` | supabase/functions/send-sos-sms/index.ts:42 | the token is the header with its first `Bearer ` removed |
| `SendSos.ClaimsAccepted` | supabase/functions/send-sos-sms/index.ts:43-45 | the claims lookup returned no error and some claims |
| `SendSos.Configured` | supabase/functions/send-sos-sms/index.ts:54-58 | the account sid, auth token and sender number are all truthy |
| `SendSos.Message` | supabase/functions/send-sos-sms/index.ts:78 | the alert text: header, actor name or "Someone", " needs help!", the map link, both coordinates at six decimals, and the closing instruction |
| `SendSos.FormFields` | supabase/functions/send-sos-sms/index.ts:89-92 | three fields named To, From, Body, in that order |
| `SendSos.Outbound` | supabase/functions/send-sos-sms/index.ts:83-101 | the provider request for one contact: the account's Messages URL, the account sid and token, and the form with To = `whatsapp:` + phone, From = `whatsapp:` + sender, Body = message |
| `SendSos.ActorName` | supabase/functions/send-sos-sms/index.ts:78 | the actor is the user name when truthy and "Someone" otherwise; never empty |
| `SendSos.MessageLayout` | supabase/functions/send-sos-sms/index.ts:78 | the message begins with the alert header, then the actor name, then " needs help!" and the location line carrying the map link |
| `SendSos.FormBuilder.Append` | supabase/functions/send-sos-sms/index.ts:89-92 | `append` adds one field at the end and keeps the earlier ones |
| `SendSos.BuildRequest` | supabase/functions/send-sos-sms/index.ts:83-101 | three `append` calls on the builder give exactly the `Outbound` request for the contact: the account's Messages endpoint, its credentials, and To, From, Body in that order |
| `SendSos.Normalise` | supabase/functions/send-sos-sms/index.ts:103-115 | the outcome names the contact; it succeeds iff a reply came with `ok`, then carrying the sid; a non-ok reply fails with its `message`; a thrown error fails with that error |
| `SendSos.Dispatch` | supabase/functions/send-sos-sms/index.ts:81-118 | one result slot and one provider request per contact, in input order; slot i holds the normalised reply to the request for contact i |
| `SendSos.Successes` | supabase/functions/send-sos-sms/index.ts:119 | the filter keeps exactly the successful outcomes: everything kept is a successful outcome of the input, and every successful outcome of the input is kept |
| `SendSos.Failures` | supabase/functions/send-sos-sms/index.ts:120 | the filter keeps exactly the failed outcomes: everything kept is a failed outcome of the input, and every failed outcome of the input is kept |
| `SendSos.SentCount` | supabase/functions/send-sos-sms/index.ts:119 | `successCount`: the length of the successful outcomes |
| `SendSos.FailedCount` | supabase/functions/send-sos-sms/index.ts:120 | `failedCount`: the length of the failed outcomes |
| `SendSos.TalliesSplitOutcomes` | supabase/functions/send-sos-sms/index.ts:119-120 | the two filters split the outcomes as multisets: each outcome is counted in exactly one tally, as often as it occurs |
| `SendSos.TalliesPartition` | supabase/functions/send-sos-sms/index.ts:119-120 | sent + failed equals the number of outcomes |
| `SendSos.NoneSentIffAllFailed` | supabase/functions/send-sos-sms/index.ts:119 | sent is 0 iff every outcome failed |
| `SendSos.AllSentIffNoneFailed` | supabase/functions/send-sos-sms/index.ts:119-120 | sent equals the number of outcomes iff every outcome succeeded |
| `Geolocation.ErrorMessage` | src/hooks/useGeolocation.ts:41-52 | the message for a position-error code: one for each of codes 1, 2 and 3, "Unable to retrieve your location" for any other |
| `Geolocation.Unsupported` | src/hooks/useGeolocation.ts:20-22 | the state with the unsupported message stored and loading cleared, everything else kept |
| `Geolocation.Started` | src/hooks/useGeolocation.ts:27 | the state with loading set and the error cleared, everything else kept |
| `Geolocation.Located` | src/hooks/useGeolocation.ts:31-37 | the whole state replaced by the fix, with no error and no loading |
| `Geolocation.Faulted` | src/hooks/useGeolocation.ts:53 | the state with the code's message stored and loading cleared, everything else kept |
| `Geolocation.AfterRequest` | src/hooks/useGeolocation.ts:18-62 | the state after one whole request: unsupported, or started and then located or faulted |
| `Geolocation.ErrorMessageCases` | src/hooks/useGeolocation.ts:41-53 | each of PERMISSION_DENIED, POSITION_UNAVAILABLE, TIMEOUT has a message of its own; exactly the other codes get "Unable to retrieve your location" |
| `Geolocation.AfterRequestSettles` | src/hooks/useGeolocation.ts:20-54 | after a request loading is off; the error is cleared iff a fix came; coordinates change only on a fix; otherwise the unsupported or code message is stored |
| `Geolocation.Tracker.Start` | src/hooks/useGeolocation.ts:20-27 | without support the error is set, loading cleared, coordinates kept and the request rejected; with support loading is set and the error cleared, coordinates kept |
| `Geolocation.Tracker.OnPosition` | src/hooks/useGeolocation.ts:31-38 | the state becomes exactly the fix with no error and no loading, and the fix is resolved |
| `Geolocation.Tracker.OnError` | src/hooks/useGeolocation.ts:40-54 | the message for the code is stored, loading cleared, coordinates kept, and the request rejected with that message |
| `Geolocation.Tracker.GetLocation` | src/hooks/useGeolocation.ts:18-62 | the promise resolves iff geolocation is supported and a fix came, with that fix; it rejects with the unsupported or the code's message otherwise; the state follows the transitions above |
| `Geolocation.MapsLink` | src/hooks/useGeolocation.ts:65-67 | `generateMapsLink`: `https://www.google.com/maps?q=` followed by the latitude, a comma and the longitude |
| `Geolocation.FirstComma` | src/hooks/useGeolocation.ts:65-67 | the offset of the first comma in a string, or its length (used to read a map link back) |
| `Geolocation.MapsLinkRoundTrip` | src/hooks/useGeolocation.ts:65-67 | a link `https://www.google.com/maps?q=<lat>,<lon>` reads back as the same two coordinates |
| `Contacts.OwnedBy` | src/hooks/useContacts.ts:24-27 | the selection holds exactly the rows of the given user |
| `Contacts.InsertOrdered` | src/hooks/useContacts.ts:28-29 | inserting into an ordered list keeps it ordered and adds exactly that row |
| `Contacts.SortForDisplay` | src/hooks/useContacts.ts:28-29 | the sort returns the same rows, primary rows first, then by ascending creation time |
| `Contacts.Query` | src/hooks/useContacts.ts:24-29 | the fetch's query: the user's rows sorted primary first, then by ascending creation time |
| `Contacts.QueryIsOrderedSelection` | src/hooks/useContacts.ts:24-32 | the fetched list is ordered and holds exactly the user's rows, each as often as in the table |
| `Contacts.PrimaryComesFirst` | src/hooks/useContacts.ts:28 | in an ordered list holding a primary contact, the first is primary |
| `Contacts.StoredRelationship` | src/hooks/useContacts.ts:52 | an empty relationship is stored as null, any other is stored unchanged |
| `Contacts.AddKeepsAtMostOnePrimary` | src/hooks/useContacts.ts:48-54 | when the cache reflects the table, an add keeps at most one primary contact for the user |
| `Contacts.ClearPrimary` | src/hooks/useContacts.ts:84-87 | exactly the user's rows lose the flag; no other column and no other row changes |
| `Contacts.MarkPrimary` | src/hooks/useContacts.ts:90-93 | exactly the row with the id gains the flag; no other column and no other row changes |
| `Contacts.OnlyMarkedIsPrimary` | src/hooks/useContacts.ts:84-93 | when ids increase and exactly the row with the id is primary, there is one primary row if that row is present and none otherwise |
| `Contacts.SetPrimaryLeavesOnePrimary` | src/hooks/useContacts.ts:84-93 | clearing then marking one of the user's rows leaves that row as the user's only primary contact, with nothing but flags changed |
| `Contacts.SetPrimaryThenFetch` | src/hooks/useContacts.ts:84-97 | after a complete set-primary, the fetched list starts with the new primary contact |
| `Contacts.UncheckedClearCanLeaveTwoPrimaries` | src/hooks/useContacts.ts:84-93 | since the clear's error is unchecked, a failed clear and a successful mark can leave two primary contacts |
| `Contacts.AddBeforeFetchCanLeaveTwoPrimaries` | src/hooks/useContacts.ts:48-54 | since the flag is decided from the cache, an add made while the cache is still empty gives a user who already has a primary contact a second one |
| `Contacts.WithoutId` | src/hooks/useContacts.ts:66-69 | `.delete().eq("id", …)` drops rows and never adds any, so the table does not grow |
| `Contacts.WithoutIdMembers` | src/hooks/useContacts.ts:66-69 | the rows left after a delete are exactly the rows whose id differs |
| `Contacts.DeleteRemovesOne` | src/hooks/useContacts.ts:66-69 | deleting an id held by one row removes exactly that row and keeps all others, in order |
| `Contacts.DeleteByIdRemovesRow` | src/hooks/useContacts.ts:66-69 | with database-issued increasing ids, deleting a row's id removes exactly that row |
| `Contacts.Table.Insert` | src/hooks/useContacts.ts:48-56 | a successful insert appends one row with the next id and the given columns; a failed one changes nothing |
| `Contacts.Table.DeleteById` | src/hooks/useContacts.ts:66-71 | the table loses exactly the rows with the id, or is unchanged on failure |
| `Contacts.Table.ClearPrimaryOf` | src/hooks/useContacts.ts:84-87 | the user's flags are cleared, or the table is unchanged on failure |
| `Contacts.Table.MarkPrimaryById` | src/hooks/useContacts.ts:90-95 | the row with the id is flagged, or the table is unchanged on failure |
| `Contacts.ContactsHook.constructor` | src/hooks/useContacts.ts:16-18 | the hook starts with no contacts and loading on |
| `Contacts.ContactsHook.FetchContacts` | src/hooks/useContacts.ts:20-38 | without a user (`userId` undefined or empty) nothing changes; otherwise loading ends, and the cache becomes the query result or stays as it was on an error |
| `Contacts.ContactsHook.AddContact` | src/hooks/useContacts.ts:44-62 | without a user (undefined or empty) or on an insert error nothing changes; otherwise one row is inserted for the user, with the name and phone copied, the relationship stored as null when empty, primary iff the cache was empty, and the list refetched |
| `Contacts.ContactsHook.DeleteContact` | src/hooks/useContacts.ts:64-77 | deletes by id alone, with no user check; on success refetches, which again does nothing without a user |
| `Contacts.ContactsHook.SetPrimaryContact` | src/hooks/useContacts.ts:79-101 | without a user (undefined or empty) nothing changes; the table is cleared then marked, and a failed clear is not noticed; with both updates done and the id among the user's rows, that row is the user's only primary and a successful refetch puts it first |
| `SosAlert.Recipients` | src/pages/Index.tsx:65 | one `{name, phone_number}` per cached contact, in the same order |
| `SosAlert.UserName` | src/pages/Index.tsx:66 | the profile's full name if truthy, otherwise the user's e-mail |
| `SosAlert.Payload` | src/pages/Index.tsx:61-67 | the invoke body: the fix's two coordinates, the map link, the contacts as recipients and the user name |
| `SosAlert.PayloadActor` | src/pages/Index.tsx:66 | the message names the full name, else the e-mail, else "Someone" |
| `SosAlert.PayloadPassesPreflight` | src/pages/Index.tsx:60-68 | a payload from a non-empty contact list never meets the function's 400 path; once auth and configuration pass, the function proceeds with exactly these recipients |
| `SosAlert.ContactsNotified` | src/pages/Index.tsx:78 | `contacts_notified` is `sent` when non-zero, else the number of contacts |
| `SosAlert.Status` | src/pages/Index.tsx:79 | the status is "sent" iff `sent > 0` |
| `SosAlert.Record` | src/pages/Index.tsx:73-80 | the `sos_alerts` row: user id, the fix, the map link, `contacts_notified` and `status` from the reply's `sent` |
| `SosAlert.RecordOfDispatch` | src/pages/Index.tsx:73-80 | with `sent` the function's own tally, the record counts between 1 and all contacts; "sent" iff some message went out, and then the count is `sent`; "failed" records every contact as notified |
| `SosAlert.IndexPage.constructor` | src/pages/Index.tsx:17-18 | the screen starts neither loading nor successful, with a fresh geolocation tracker |
| `SosAlert.IndexPage.HandleSos` | src/pages/Index.tsx:41-99 | with no contacts nothing happens: no location request, no invoke, `sosLoading` untouched; otherwise loading ends in every case; with no fix nothing is invoked; with a fix the payload holds the contacts, link and user name; an invoke error logs nothing and leaves `sosSuccess`; a reply sets `sosSuccess` and logs one record unless the insert fails |

## Left out

- Rendering, animation, toasts, navigation and the three-second `setTimeout`
  that resets `sosSuccess`: presentation only.
- Supabase auth sessions, the profile query, `createClient` and `Deno.env`. The
  claims lookup, the environment and the user/profile are inputs.
- Row-level security. `deleteContact` and the second update of
  `setPrimaryContact` filter by id alone. The model applies them to any user's
  row, which is what the query says; whether the database lets them through
  is not modelled.
- The Basic-auth header (`btoa`), URL-encoding of the form, and JSON
  serialisation. They are library behaviour. A provider request carries the
  credentials and the field list instead.
- Floating-point formatting (`toFixed(6)`, number-to-string) is a function
  parameter. No range check on coordinates is modelled, because the code has
  none.
- Concurrency and timing of `Promise.all`. Sends run one after the other. The
  order of results is input order either way.
- The refetch that add, delete and set-primary start without awaiting is
  modelled as completing before the operation returns. Interleavings with
  other fetches are not modelled.
- The initial fetch that `useEffect` triggers. The hook's constructor leaves
  the cache empty and loading on, and the fetch is a method to call.
- Contacts.Contact: ids are natural numbers issued in increasing order, and
  timestamps are integers. The database uses UUIDs and `timestamptz`. Only
  uniqueness and order matter to the code.
- Contacts.SortForDisplay: rows with an equal flag and creation time keep their
  table order. The database leaves that tie order unspecified.
- A `null` data with no error from the fetch (`data || []`). The client never
  returns that for a select.
- Exceptions the handler could raise elsewhere, e.g. `toFixed` on a missing
  latitude, or a `contacts` value that is not an array. Only the claims lookup
  and the body parse are modelled as throwing into the outer `catch`.
- `SosAlert.IndexPage.HandleSos`: the intermediate `sosLoading = true` while
  the request is in flight is set but not observable in the method's
  postcondition, which describes the settled state.

The handler does not range-check coordinates: `toFixed` only formats them. It
notifies every contact, not only the primary one. It starts every send at once,
with no limit on how many run together.
