/**
 * The foreman_ptable module's reconciliation of one partition table: find
 * the record by name, resolve the location names to ids, resolve the layout
 * from either the `layout` or the `template_file` parameter, then create,
 * delete, update or leave the record alone, and report `(changed, ptable)`.
 *
 * `Reconcile` is the specification of one run as a function of the server
 * state; the methods `GetLocationIds` and `Ensure` are the imperative routine,
 * proved to do exactly what the specification says to the client object.
 */
module ForemanPtable {
  import opened Wrappers
  import opened ForemanApi

  /** The `state` parameter. */
  datatype State = Present | Absent

  /** The module parameters the routine reads. */
  datatype Params = Params(
    name: string,
    layout: Option<string>,
    templateFile: Option<string>,
    osFamily: Option<string>,
    locations: Option<seq<string>>,
    state: State)

  /** Why a run stopped (the `fail_json` calls of the routine). */
  datatype Error =
    | SearchFailed                        // the name search raised
    | LocationNotFound(location: string)  // a location name has no match
    | LocationsLookupFailed               // a location search raised
    | NoLayoutSource                      // neither layout nor template_file
    | BothLayoutSources                   // both layout and template_file
    | TemplateUnreadable(path: string)    // opening or reading template_file failed
    | CreateFailed
    | DeleteFailed
    | FetchFailed                         // fetching the found record by id raised
    | UpdateFailed
  {
    /** Errors raised before the decision table is reached. */
    predicate BeforeDecision() {
      !(CreateFailed? || DeleteFailed? || FetchFailed? || UpdateFailed?)
    }
  }

  /** What a successful run returns: the `changed` flag and the partition table payload. */
  datatype Response = Response(changed: bool, ptable: Option<Ptable>)

  /** The result of a phase that only queries the server, with the requests it sent. */
  datatype Query<T> = Query(result: Result<T, Error>, calls: seq<Call>)

  /** The result of a phase that may change the server: the new state and the requests sent. */
  datatype Run<T> = Run(result: Result<T, Error>, server: Server, calls: seq<Call>)

  /** What the routine has gathered before it decides: the search result and the request body. */
  datatype Prepared = Prepared(found: Option<Ptable>, data: PtableData)

  /** Python truthiness of an optional string parameter: None and '' are both "not given". */
  predicate Given(o: Option<string>) {
    o.Some? && o.value != ""
  }

  /** Python truthiness of the optional `locations` list. */
  predicate HasLocations(o: Option<seq<string>>) {
    o.Some? && o.value != []
  }

  /**
   * The layout that goes into the request body. Exactly one of `layout` and
   * `template_file` must be given; a template file contributes its full
   * contents, `templateRead`, which is None when opening or reading it fails.
   */
  function ResolveLayout(layout: Option<string>, templateFile: Option<string>, templateRead: Option<string>): (r: Result<string, Error>)
    ensures r.Success? <==> Given(layout) != Given(templateFile) && (Given(layout) || templateRead.Some?)
    ensures r == Failure(NoLayoutSource) <==> !Given(layout) && !Given(templateFile)
    ensures r == Failure(BothLayoutSources) <==> Given(layout) && Given(templateFile)
    ensures Given(layout) && r.Success? ==> r.value == layout.value
    ensures Given(templateFile) && r.Success? ==> r.value == templateRead.value
    ensures r.Failure? && Given(templateFile) && !Given(layout) ==> r.error == TemplateUnreadable(templateFile.value)
  {
    if !Given(layout) && !Given(templateFile) then Failure(NoLayoutSource)
    else if Given(layout) && Given(templateFile) then Failure(BothLayoutSources)
    else if Given(layout) then Success(layout.value)
    else if templateRead.Some? then Success(templateRead.value)
    else Failure(TemplateUnreadable(templateFile.value))
  }

  /**
   * The location lookups of `get_location_ids`: one search per name, in
   * order, stopping at the first search that raises or finds nothing.
   */
  function ResolveLocations(env: Env, names: seq<string>): (r: Query<seq<nat>>)
    ensures |r.calls| <= |names|
    ensures names != [] ==> |r.calls| >= 1 && r.calls[0] == LocationQuery(names[0])
    ensures r.result.Success? ==> |r.result.value| == |names| == |r.calls|
    ensures r.result.Failure? ==> 1 <= |r.calls| && (r.result.error.LocationNotFound? || r.result.error.LocationsLookupFailed?)
    decreases |names|
  {
    if names == [] then Query(Success([]), [])
    else
      var first := LocationQuery(names[0]);
      match LocationReply(env, names[0])
      case Failure(_) => Query(Failure(LocationsLookupFailed), [first])
      case Success(None) => Query(Failure(LocationNotFound(names[0])), [first])
      case Success(Some(id)) =>
        var rest := ResolveLocations(env, names[1..]);
        Query(if rest.result.Success? then Success([id] + rest.result.value) else rest.result, [first] + rest.calls)
  }

  /** The `location_ids` entry of the request body: looked up only when `locations` is a non-empty list. */
  function LocationIdsFor(env: Env, locations: Option<seq<string>>): (r: Query<Option<seq<nat>>>)
    ensures !HasLocations(locations) ==> r.result == Success(None) && r.calls == []
    ensures r.result.Success? && HasLocations(locations) ==>
      r.result.value.Some? && |r.result.value.value| == |locations.value|
    ensures HasLocations(locations) ==> 1 <= |r.calls| <= |locations.value|
  {
    if HasLocations(locations) then
      var lookup := ResolveLocations(env, locations.value);
      Query(if lookup.result.Success? then Success(Some(lookup.result.value)) else Failure(lookup.result.error), lookup.calls)
    else Query(Success(None), [])
  }

  /** Steps 1 to 3 of the routine: name search, location lookup, layout resolution. */
  function Prepare(s: Server, p: Params, templateRead: Option<string>): (r: Query<Prepared>)
    requires WellFormed(s)
    ensures |r.calls| >= 1 && r.calls[0] == PtableQuery(p.name)
    ensures r.result.Failure? ==> r.result.error.BeforeDecision()
    ensures r.result.Success? ==>
      && r.result.value.data.name == p.name
      && r.result.value.data.osFamily == p.osFamily
      && (r.result.value.data.locationIds.Some? <==> HasLocations(p.locations))
  {
    var search := PtableQuery(p.name);
    match SearchReply(s, p.name)
    case Failure(_) => Query(Failure(SearchFailed), [search])
    case Success(found) =>
      var ids := LocationIdsFor(s.env, p.locations);
      if ids.result.Failure? then Query(Failure(ids.result.error), [search] + ids.calls)
      else
        match ResolveLayout(p.layout, p.templateFile, templateRead)
        case Failure(e) => Query(Failure(e), [search] + ids.calls)
        case Success(layout) =>
          Query(Success(Prepared(found, PtableData(p.name, layout, p.osFamily, ids.result.value))), [search] + ids.calls)
  }

  /**
   * The no-change test: the fetched layout equals the raw `layout` parameter
   * (compared even when it was not used) or the layout in the request body.
   */
  predicate SameLayout(stored: string, layout: Option<string>, resolved: string)
    ensures stored == resolved ==> SameLayout(stored, layout, resolved)
    ensures layout.None? ==> (SameLayout(stored, layout, resolved) <==> stored == resolved)
    ensures Given(layout) && resolved == layout.value ==> (SameLayout(stored, layout, resolved) <==> stored == resolved)
  {
    (layout.Some? && stored == layout.value) || stored == resolved
  }

  /** Step 4, the decision table, on what `Prepare` gathered. */
  function Decide(s: Server, p: Params, prep: Prepared): (r: Run<Response>)
    ensures r.server.env == s.env
    ensures WellFormed(s) ==> WellFormed(r.server)
    ensures r.result.Failure? ==> r.server == s && !r.result.error.BeforeDecision()
    ensures |r.calls| <= 2
    ensures |r.calls| == 2 ==> !r.calls[0].Mutating()
    ensures r.result.Success? && r.result.value.changed ==> |r.calls| >= 1 && r.calls[|r.calls| - 1].Mutating()
    ensures r.result.Success? && !r.result.value.changed ==> r.server == s
  {
    match prep.found
    case None =>
      if p.state == Present then
        var created := CreateStep(s, prep.data);
        Run(if created.result.Success? then Success(Response(true, Some(created.result.value))) else Failure(CreateFailed),
            created.server, [PtableCreate(prep.data)])
      else
        Run(Success(Response(false, None)), s, [])
    case Some(ptable) =>
      if p.state == Absent then
        var deleted := DeleteStep(s, ptable.id);
        Run(if deleted.result.Success? then Success(Response(true, Some(deleted.result.value))) else Failure(DeleteFailed),
            deleted.server, [PtableDelete(ptable.id)])
      else
        var fetch := PtableFetch(ptable.id);
        match FetchReply(s, ptable.id)
        case Failure(_) => Run(Failure(FetchFailed), s, [fetch])
        case Success(current) =>
          if SameLayout(current.layout, p.layout, prep.data.layout) then
            Run(Success(Response(false, Some(current))), s, [fetch])
          else
            var updated := UpdateStep(s, current.id, prep.data);
            Run(if updated.result.Success? then Success(Response(true, Some(updated.result.value))) else Failure(UpdateFailed),
                updated.server, [fetch, PtableUpdate(current.id, prep.data)])
  }

  /** One whole run of the routine against server state `s`. */
  function Reconcile(s: Server, p: Params, templateRead: Option<string>): (run: Run<Response>)
    requires WellFormed(s)
    ensures WellFormed(run.server) && run.server.env == s.env
  {
    var prep := Prepare(s, p, templateRead);
    if prep.result.Failure? then Run(Failure(prep.result.error), s, prep.calls)
    else
      var decided := Decide(s, p, prep.result.value);
      Run(decided.result, decided.server, prep.calls + decided.calls)
  }

  /** `lookup` preceded by the ids and requests of the names already resolved. */
  ghost function After(ids: seq<nat>, calls: seq<Call>, lookup: Query<seq<nat>>): Query<seq<nat>> {
    Query(if lookup.result.Success? then Success(ids + lookup.result.value) else lookup.result, calls + lookup.calls)
  }

  /** A location search that raises ends the lookup with LocationsLookupFailed. */
  lemma LookupRaises(env: Env, names: seq<string>, i: nat, ids: seq<nat>, calls: seq<Call>)
    requires i < |names| && LocationReply(env, names[i]).Failure?
    ensures After(ids, calls, ResolveLocations(env, names[i..])) ==
      Query(Failure(LocationsLookupFailed), calls + [LocationQuery(names[i])])
  {
    assert names[i..][0] == names[i];
  }

  /** A location search that finds nothing ends the lookup with LocationNotFound for that name. */
  lemma LookupMisses(env: Env, names: seq<string>, i: nat, ids: seq<nat>, calls: seq<Call>)
    requires i < |names| && LocationReply(env, names[i]) == Success(None)
    ensures After(ids, calls, ResolveLocations(env, names[i..])) ==
      Query(Failure(LocationNotFound(names[i])), calls + [LocationQuery(names[i])])
  {
    assert names[i..][0] == names[i];
  }

  /** A location search that finds an id moves that id and its request to the prefix. */
  lemma LookupFinds(env: Env, names: seq<string>, i: nat, ids: seq<nat>, calls: seq<Call>, id: nat)
    requires i < |names| && LocationReply(env, names[i]) == Success(Some(id))
    ensures After(ids, calls, ResolveLocations(env, names[i..])) ==
      After(ids + [id], calls + [LocationQuery(names[i])], ResolveLocations(env, names[i + 1..]))
  {
    assert names[i..][0] == names[i] && names[i..][1..] == names[i + 1..];
    var rest := ResolveLocations(env, names[i + 1..]);
    assert calls + ([LocationQuery(names[i])] + rest.calls) == (calls + [LocationQuery(names[i])]) + rest.calls;
    if rest.result.Success? {
      assert ids + ([id] + rest.result.value) == (ids + [id]) + rest.result.value;
    }
  }

  /** Nothing left to look up: the lookup so far is the whole lookup. */
  lemma LookupDone(env: Env, names: seq<string>, ids: seq<nat>, calls: seq<Call>)
    ensures After(ids, calls, ResolveLocations(env, names[|names|..])) == Query(Success(ids), calls)
  {
    assert names[|names|..] == [];
    assert ids + [] == ids && calls + [] == calls;
  }

  /** Nothing looked up yet. */
  lemma LookupStart(env: Env, names: seq<string>)
    ensures ResolveLocations(env, names) == After([], [], ResolveLocations(env, names[0..]))
  {
    var whole := ResolveLocations(env, names);
    assert names[0..] == names;
    assert [] + whole.calls == whole.calls;
    assert whole.result.Success? ==> [] + whole.result.value == whole.result.value;
  }

  /** `get_location_ids`: resolves each location name to its id, in order. */
  method GetLocationIds(foreman: Foreman, locations: seq<string>) returns (r: Result<seq<nat>, Error>)
    modifies foreman`log
    ensures r == ResolveLocations(foreman.env, locations).result
    ensures foreman.log == old(foreman.log) + ResolveLocations(foreman.env, locations).calls
  {
    ghost var env := foreman.env;
    ghost var whole := ResolveLocations(env, locations);
    var result: seq<nat> := [];
    ghost var calls: seq<Call> := [];
    LookupStart(env, locations);
    for i := 0 to |locations|
      invariant foreman.log == old(foreman.log) + calls
      invariant whole == After(result, calls, ResolveLocations(env, locations[i..]))
    {
      var location := foreman.SearchLocation(locations[i]);
      if location.Failure? {
        LookupRaises(env, locations, i, result, calls);
        calls := calls + [LocationQuery(locations[i])];
        return Failure(LocationsLookupFailed);
      }
      if location.value.None? {
        LookupMisses(env, locations, i, result, calls);
        calls := calls + [LocationQuery(locations[i])];
        return Failure(LocationNotFound(locations[i]));
      }
      LookupFinds(env, locations, i, result, calls, location.value.value);
      calls := calls + [LocationQuery(locations[i])];
      result := result + [location.value.value];
    }
    LookupDone(env, locations, result, calls);
    return Success(result);
  }

  /** `ensure`: one run of the routine against the client object. */
  method Ensure(foreman: Foreman, p: Params, templateRead: Option<string>) returns (r: Result<Response, Error>)
    requires foreman.Valid()
    modifies foreman
    ensures foreman.Valid()
    ensures var run := Reconcile(old(foreman.Snapshot()), p, templateRead);
      && r == run.result
      && foreman.Snapshot() == run.server
      && foreman.log == old(foreman.log) + run.calls
  {
    var prepared := PrepareRequest(foreman, p, templateRead);
    if prepared.Failure? {
      return Failure(prepared.error);
    }
    r := ApplyDecision(foreman, p, prepared.value.found, prepared.value.data);
  }

  /**
   * The first part of `ensure`: search the record by name, build the request
   * body (`location_ids` when locations are given, then the layout and the
   * os family), stopping at the first failure.
   */
  method PrepareRequest(foreman: Foreman, p: Params, templateRead: Option<string>) returns (r: Result<Prepared, Error>)
    requires foreman.Valid()
    modifies foreman`log
    ensures foreman.Snapshot() == old(foreman.Snapshot())
    ensures var prep := Prepare(old(foreman.Snapshot()), p, templateRead);
      r == prep.result && foreman.log == old(foreman.log) + prep.calls
  {
    ghost var s := foreman.Snapshot();
    var search := foreman.SearchPartitionTable(p.name);
    if search.Failure? {
      return Failure(SearchFailed);
    }
    var ptable := search.value;
    ghost var ids := LocationIdsFor(s.env, p.locations);

    var locationIds: Option<seq<nat>> := None;
    if HasLocations(p.locations) {
      var lookup := GetLocationIds(foreman, p.locations.value);
      if lookup.Failure? {
        assert ids.result == Failure(lookup.error);
        return Failure(lookup.error);
      }
      locationIds := Some(lookup.value);
    }
    assert ids.result == Success(locationIds);
    assert foreman.log == old(foreman.log) + [PtableQuery(p.name)] + ids.calls;

    var layout := ResolveLayout(p.layout, p.templateFile, templateRead);
    if layout.Failure? {
      return Failure(layout.error);
    }
    var data := PtableData(p.name, layout.value, p.osFamily, locationIds);
    return Success(Prepared(ptable, data));
  }

  /**
   * The decision table of `ensure` (create, delete, fetch-compare-update or
   * nothing), applied to the client object.
   */
  method ApplyDecision(foreman: Foreman, p: Params, ptable: Option<Ptable>, data: PtableData) returns (r: Result<Response, Error>)
    requires foreman.Valid()
    modifies foreman
    ensures foreman.Valid()
    ensures var run := Decide(old(foreman.Snapshot()), p, Prepared(ptable, data));
      && r == run.result
      && foreman.Snapshot() == run.server
      && foreman.log == old(foreman.log) + run.calls
  {
    if ptable.None? && p.state == Present {
      var created := foreman.CreatePartitionTable(data);
      if created.Failure? {
        return Failure(CreateFailed);
      }
      return Success(Response(true, Some(created.value)));
    }

    if ptable.Some? && p.state == Absent {
      var deleted := foreman.DeletePartitionTable(ptable.value.id);
      if deleted.Failure? {
        return Failure(DeleteFailed);
      }
      return Success(Response(true, Some(deleted.value)));
    }

    if ptable.Some? && p.state == Present {
      var current := foreman.GetPartitionTable(ptable.value.id);
      if current.Failure? {
        return Failure(FetchFailed);
      }
      if SameLayout(current.value.layout, p.layout, data.layout) {
        return Success(Response(false, Some(current.value)));
      }
      var updated := foreman.UpdatePartitionTable(current.value.id, data);
      if updated.Failure? {
        return Failure(UpdateFailed);
      }
      return Success(Response(true, Some(updated.value)));
    }

    return Success(Response(false, ptable));
  }
}
