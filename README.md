# foreman_ptable in Dafny

A model of the Ansible module `foreman_ptable`, which makes a Foreman
partition table match a desired state. One run of its `ensure` routine:

1. searches the partition table by name;
2. turns the `locations` names into location ids (`get_location_ids`), when
   `locations` is a non-empty list;
3. checks that exactly one of `layout` and `template_file` is given (Python
   truthiness: `None` and `''` both count as not given), and takes the layout
   from the parameter or from the template file's full contents;
4. decides: no record and `present` → create; record and `absent` →
   delete; record and `present` → fetch it, and update it unless its layout
   equals the raw `layout` parameter or the resolved layout; no record and
   `absent` → nothing;
5. returns `(changed, ptable)`, or stops with a `fail_json` error.

Files:

- `wrappers.dfy` — `Option` and `Result`.
- `foreman_api.dfy` (module `ForemanApi`) — the Foreman server as seen
  through the python-foreman client. `Server` holds the partition tables keyed
  by id, the next id, and an `Env`: the locations by name and the set of
  requests the server rejects with a `ForemanError`. One pure function per
  client call (`SearchReply`, `FetchReply`, `CreateStep`, `UpdateStep`,
  `DeleteStep`, `LocationReply`). The class `Foreman` is the client object:
  its methods change `ptables` and `nextId` in place, append each request to
  `log`, and are proved to agree with those functions.
- `foreman_ptable.dfy` (module `ForemanPtable`) — the routine. `Reconcile`
  specifies one run as a function of the server state: its result, the new
  server state and the requests sent, built from `Prepare` (steps 1–3) and
  `Decide` (step 4). The imperative `GetLocationIds`, `Ensure`,
  `PrepareRequest` and `ApplyDecision` act on a `Foreman` object. Their postconditions say they
  return what `Reconcile` returns, leave the object in the state it gives and
  append the requests it lists.
- `foreman_ptable_proofs.dfy` (module `ForemanPtableProofs`) — the
  properties of `Reconcile`.

Inputs that come from outside: reading `template_file` is the parameter
`templateRead: Option<string>` (None: the file could not be opened or read).
Client errors are fixed in advance by `Env.rejects`. A request in that set
fails and changes nothing.

Three points where the code's behaviour is easy to misread:
- The name search and the location lookups run before the layout check is
  made (`foreman_ptable.py:115-134`), so these run even when the layout
  parameters are invalid. Their failures are reported in preference to the
  layout error: `SearchFailureStopsRun` and `UnresolvableLocationStopsRun`
  hold whatever the layout parameters are.
- The no-change test compares the fetched layout with the raw `layout`
  parameter as well as with the resolved layout (`foreman_ptable.py:156`).
  With `layout: ''` and a template file, a stored empty layout therefore
  counts as up to date, and the template is never applied. This is stated
  in `RawLayoutComparisonKeepsStaleRecord`.
- A client error during a location search is reported without the location's
  name (`foreman_ptable.py:100-101`). Only a location that is not found is
  named (`:97-98`).

## Model

| member | source | states |
|---|---|---|
| `ForemanApi.FindByName` | foreman_ptable.py:116 | the name search finds a record exactly when some stored record has that name, and the record it returns is stored under its own id with that name |
| `ForemanApi.LocationReply` | foreman_ptable.py:96 | a location search fails exactly when the server rejects it; otherwise it finds the location exactly when the name is known, with that location's id |
| `ForemanApi.SearchReply` | foreman_ptable.py:116 | a name search fails exactly when rejected; otherwise it finds a record exactly when the name is taken, and the found record is the stored one |
| `ForemanApi.FetchReply` | foreman_ptable.py:153 | fetching by id succeeds exactly when not rejected and the id is stored, and returns the stored record |
| `ForemanApi.CreateStep` | foreman_ptable.py:139 | a create succeeds exactly when not rejected and the name is free; it stores the body under a fresh id and leaves every other record alone; a failure changes nothing; the server invariant is kept |
| `ForemanApi.UpdateStep` | foreman_ptable.py:160 | an update succeeds exactly when not rejected, the id is stored and no other record has the name; only that record is patched; a failure changes nothing; the invariant is kept |
| `ForemanApi.DeleteStep` | foreman_ptable.py:146 | a delete succeeds exactly when not rejected and the id is stored; it returns the removed record and removes only it; a failure changes nothing; the invariant is kept |
| `ForemanApi.Foreman.SearchLocation` | foreman_ptable.py:96 | the client's location search answers as `LocationReply` and logs one request |
| `ForemanApi.Foreman.SearchPartitionTable` | foreman_ptable.py:116 | the client's name search answers as `SearchReply`, changes no record and logs one request |
| `ForemanApi.Foreman.GetPartitionTable` | foreman_ptable.py:153 | the client's fetch answers as `FetchReply`, changes no record and logs one request |
| `ForemanApi.Foreman.CreatePartitionTable` | foreman_ptable.py:139 | the client's create changes the object as `CreateStep` and logs one request |
| `ForemanApi.Foreman.UpdatePartitionTable` | foreman_ptable.py:160 | the client's update changes the object as `UpdateStep` and logs one request |
| `ForemanApi.Foreman.DeletePartitionTable` | foreman_ptable.py:146 | the client's delete changes the object as `DeleteStep` and logs one request |
| `ForemanPtable.ResolveLayout` | foreman_ptable.py:123-134 | layout resolution succeeds exactly when exactly one of layout and template_file is given and, for a template, the file was read; the error says which of neither, both or unreadable it was; the layout is the parameter or the file's full contents |
| `ForemanPtable.ResolveLocations` | foreman_ptable.py:92-102 | the lookup sends at most one search per name, starting with the first name; on success it returns one id per name after exactly one search per name; a failure is a location error after at least one search |
| `ForemanPtable.LocationIdsFor` | foreman_ptable.py:120-121 | without a non-empty `locations` list no search is sent and the body gets no `location_ids`; with one, between one and one-per-name searches are sent and success gives one id per name |
| `ForemanPtable.Prepare` | foreman_ptable.py:113-135 | steps 1 to 3 always send the name search first; failures are pre-decision errors; on success the body carries the name, the os family, and `location_ids` exactly when locations were given |
| `ForemanPtable.SameLayout` | foreman_ptable.py:156 | the no-change test holds whenever the stored layout equals the resolved one; when the `layout` parameter is None, or the raw layout is the one used, it holds exactly then (a `layout: ''` compared raw still matches a stored empty layout) |
| `ForemanPtable.Decide` | foreman_ptable.py:137-165 | the decision keeps the locations, the rejected requests and the server invariant; a failure is a post-decision error that changes nothing; at most two requests, only the last of them mutating; a change is reported only after a mutating request, and no change leaves the server as it was |
| `ForemanPtable.Reconcile` | foreman_ptable.py:105-165 | a run keeps the server invariant and never changes the locations or the rejected requests |
| `ForemanPtable.GetLocationIds` | foreman_ptable.py:92-102 | the loop returns exactly the lookup `ResolveLocations` specifies and sends exactly its searches, in order |
| `ForemanPtable.Ensure` | foreman_ptable.py:105-165 | the routine returns the result of `Reconcile`, leaves the client object in the state it gives, and sends exactly the requests it lists |
| `ForemanPtable.PrepareRequest` | foreman_ptable.py:113-135 | the first part of the routine changes no record, returns exactly what `Prepare` specifies and sends exactly its requests |
| `ForemanPtable.ApplyDecision` | foreman_ptable.py:137-165 | the decision table on the client object does exactly what `Decide` specifies |
| `ForemanPtableProofs.ResolveLocationsSucceeds` | foreman_ptable.py:92-102 | when every name resolves, the lookup returns one id per name, in input order, each the id of that name, after one search per name |
| `ForemanPtableProofs.ResolveLocationsStops` | foreman_ptable.py:94-101 | at the first name that does not resolve, the lookup fails with an error for that name (not-found names it), having searched exactly the names up to it |
| `ForemanPtableProofs.ResolveLocationsSuccessIff` | foreman_ptable.py:92-102 | the lookup succeeds if and only if every name resolves |
| `ForemanPtableProofs.ResolveLocationsShape` | foreman_ptable.py:92-102 | the lookup sends only location searches and fails only with a location error |
| `ForemanPtableProofs.PrepareOnlyQueries` | foreman_ptable.py:113-135 | steps 1 to 3 send the name search first, then only location searches, never a mutating request, and fail only with a pre-decision error |
| `ForemanPtableProofs.PrepareSucceeds` | foreman_ptable.py:113-135 | steps 1 to 3 succeed if and only if the search is answered, every given location resolves and the layout resolves; the body then holds the name, the resolved layout, the os family and, only when locations were given, their ids in order; the search result is the record with that name |
| `ForemanPtableProofs.FailedRunChangesNothing` | foreman_ptable.py:115-163 | a run that fails leaves the stored tables untouched |
| `ForemanPtableProofs.EarlyFailureSendsNoChange` | foreman_ptable.py:115-135 | a search, location, layout or file failure stops the run before any create, update or delete is sent |
| `ForemanPtableProofs.LayoutErrorStopsRun` | foreman_ptable.py:123-134 | neither or both layout sources, or an unreadable template, make the run fail without change in either state, with that error once the search and location lookups succeed |
| `ForemanPtableProofs.SearchFailureStopsRun` | foreman_ptable.py:115-118 | a rejected name search fails the run with SearchFailed after that one request, changing nothing, whatever the locations and layout parameters |
| `ForemanPtableProofs.UnresolvableLocationStopsRun` | foreman_ptable.py:120-121 | the first unresolvable location stops the run with its error after exactly the name search and the searches up to it, changing nothing |
| `ForemanPtableProofs.CreateWhenMissing` | foreman_ptable.py:137-142 | no record and present: exactly one create, with the prepared body; success returns changed and the created record, which is added under a fresh id; failure is CreateFailed with no change |
| `ForemanPtableProofs.NothingWhenMissingAndAbsent` | foreman_ptable.py:165 | no record and absent: changed is false, the payload is empty, nothing is sent after step 3 and nothing changes |
| `ForemanPtableProofs.DeleteWhenAbsent` | foreman_ptable.py:144-149 | record and absent: one delete by the found id; success returns changed and the deleted record and removes only that record; failure is DeleteFailed with no change |
| `ForemanPtableProofs.UpdateWhenPresent` | foreman_ptable.py:151-163 | record and present: fetch by id; a matching layout returns no change with the fetched record; otherwise one update by that id with the body, returning changed and the patched record; fetch or update failures change nothing |
| `ForemanPtableProofs.OnlyLayoutDecides` | foreman_ptable.py:156-163 | records that differ only in os family and location ids get the same outcome and the same changed flag |
| `ForemanPtableProofs.PresentRunConverges` | foreman_ptable.py:137-163 | after a successful present run a record with the name is stored, the run returned it, and its layout passes the no-change test |
| `ForemanPtableProofs.PresentRunIsIdempotent` | foreman_ptable.py:137-163 | a second present run with the same inputs changes nothing, sends no mutating request, and returns changed false with the stored record unless the fetch fails |
| `ForemanPtableProofs.AbsentRunIsIdempotent` | foreman_ptable.py:144-165 | after a successful absent run no record has the name, and a second run returns changed false and no payload without sending anything after step 3 |
| `ForemanPtableProofs.CreateFreeBsdExample` | foreman_ptable.py:72-82 | the documented example (name FreeBSD, layout 'some layout', no os family, no locations, present) on an empty server sends one search and one create with exactly that body, and returns changed with the new record stored under id 0 |
| `ForemanPtableProofs.RawLayoutComparisonKeepsStaleRecord` | foreman_ptable.py:156 | with layout '' and a template file, a stored empty layout is reported unchanged although the resolved layout differs |

## Left out

- `main` (`foreman_ptable.py:168-204`): argument parsing, `exit_json` and
  building the client from host, port, user, password and SSL flag. Password
  handling (`no_log`) goes with it.
- The optional import of python-foreman (`foreman_ptable.py:84-89`): it only
  reports a missing library.
- HTTP transport and the internals of python-foreman. Each client call is a
  function of the abstract server. Its errors are the requests listed in
  `Env.rejects`, so the model does not capture intermittent failures that
  differ from run to run. Search is exact name match. Delete returns the
  removed record. Server-side validation other than name uniqueness is
  covered only by rejection.
- Opening and reading `template_file`: its outcome is the `templateRead` input.
- The wording of error messages. An `Error` names the failing step, the
  missing location, or the unreadable path.
- Parameters of the wrong Python type, and location records without an
  `id`: the argument spec and the server rule these out.
- A failure after a mutating request has taken effect on the server. The
  model treats every request as atomic: a rejected request changes nothing.
- ForemanPtable.Reconcile: its own postcondition only says that the
  invariant is kept. The properties of a run are the lemmas of
  `ForemanPtableProofs`.
- The two location `fail_json` calls (`foreman_ptable.py:98` and `:101`)
  pass the message as a positional argument, not as `msg=`. On Ansible
  versions whose `fail_json` accepts only keyword arguments, each raises a
  `TypeError` instead. The run still stops before any change, but no message
  is reported. The model treats both as ordinary failures with their
  `Error`.
- String encoding. Layouts are compared as exact character sequences, and
  the server stores a layout verbatim. Under Python 2, the template's
  contents (`foreman_ptable.py:132`) are a byte string, while the layout the
  server returns is unicode. So for a non-ASCII layout the comparison at
  `:156` is false, and every `present` run updates again. The model does not
  capture this, so `PresentRunIsIdempotent` holds for every layout. Under
  Python 3, reading `e.message` at `:134` raises `AttributeError` in place
  of the `fail_json` message. The run still stops before any change, as
  `TemplateUnreadable` does in the model.
