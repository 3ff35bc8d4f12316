/**
 * Properties of one reconciliation run (`ForemanPtable.Reconcile`), and so,
 * through the postcondition of `ForemanPtable.Ensure`, of the routine itself.
 */
module ForemanPtableProofs {
  import opened Wrappers
  import opened ForemanApi
  import opened ForemanPtable

  /** A location name the server resolves: its search is answered and finds it. */
  predicate Resolvable(env: Env, name: string) {
    LocationQuery(name) !in env.rejects && name in env.locations
  }

  /** The error reported for a location name that does not resolve. */
  function LookupError(env: Env, name: string): Error {
    if LocationQuery(name) in env.rejects then LocationsLookupFailed else LocationNotFound(name)
  }

  /** The location searches for the given names, in order. */
  function Queries(names: seq<string>): seq<Call> {
    seq(|names|, i requires 0 <= i < |names| => LocationQuery(names[i]))
  }

  predicate AllResolvable(env: Env, names: seq<string>) {
    forall i :: 0 <= i < |names| ==> Resolvable(env, names[i])
  }

  /** Only requests that cannot change the stored tables. */
  predicate ReadOnly(calls: seq<Call>) {
    forall i :: 0 <= i < |calls| ==> !calls[i].Mutating()
  }

  // ---------------------------------------------------------------------
  // get_location_ids

  /**
   * When every name resolves, the lookup returns one id per name, in the
   * order of the names, after one search per name.
   */
  lemma {:induction false} ResolveLocationsSucceeds(env: Env, names: seq<string>)
    requires AllResolvable(env, names)
    ensures var lookup := ResolveLocations(env, names);
      && lookup.result.Success?
      && |lookup.result.value| == |names|
      && (forall i :: 0 <= i < |names| ==> lookup.result.value[i] == env.locations[names[i]])
      && lookup.calls == Queries(names)
  {
    if names != [] {
      assert forall i :: 0 <= i < |names| - 1 ==> names[1..][i] == names[i + 1];
      ResolveLocationsSucceeds(env, names[1..]);
      assert Queries(names) == [LocationQuery(names[0])] + Queries(names[1..]);
    }
  }

  /**
   * When the name at index k is the first that does not resolve, the lookup
   * fails with an error for that name after searching exactly names[..k+1].
   */
  lemma {:induction false} ResolveLocationsStops(env: Env, names: seq<string>, k: nat)
    requires k < |names|
    requires forall j :: 0 <= j < k ==> Resolvable(env, names[j])
    requires !Resolvable(env, names[k])
    ensures ResolveLocations(env, names) == Query(Failure(LookupError(env, names[k])), Queries(names[..k + 1]))
  {
    if k == 0 {
      assert Queries(names[..1]) == [LocationQuery(names[0])];
    } else {
      assert forall j :: 0 <= j < |names| - 1 ==> names[1..][j] == names[j + 1];
      ResolveLocationsStops(env, names[1..], k - 1);
      assert names[1..][..k] == names[1..k + 1];
      assert Queries(names[..k + 1]) == [LocationQuery(names[0])] + Queries(names[1..][..k]);
    }
  }

  /** The lookup succeeds exactly when every name resolves. */
  lemma {:induction false} ResolveLocationsSuccessIff(env: Env, names: seq<string>)
    ensures ResolveLocations(env, names).result.Success? <==> AllResolvable(env, names)
  {
    if names != [] {
      assert forall i :: 0 <= i < |names| - 1 ==> names[1..][i] == names[i + 1];
      ResolveLocationsSuccessIff(env, names[1..]);
      if AllResolvable(env, names[1..]) && Resolvable(env, names[0]) {
        assert forall i :: 0 <= i < |names| ==> i == 0 || names[i] == names[1..][i - 1];
      }
    }
  }

  /** The lookup sends only location searches and fails only with a location error. */
  lemma {:induction false} ResolveLocationsShape(env: Env, names: seq<string>)
    ensures var lookup := ResolveLocations(env, names);
      && ReadOnly(lookup.calls)
      && (forall i :: 0 <= i < |lookup.calls| ==> lookup.calls[i].LocationQuery?)
      && (lookup.result.Failure? ==> lookup.result.error.LocationNotFound? || lookup.result.error.LocationsLookupFailed?)
  {
    if names != [] {
      ResolveLocationsShape(env, names[1..]);
    }
  }

  // ---------------------------------------------------------------------
  // Preparation: name search, location ids, layout

  /**
   * The preparation phase starts with the name search, then sends only
   * location searches, and fails only with a preparation error.
   */
  lemma PrepareOnlyQueries(s: Server, p: Params, templateRead: Option<string>)
    requires WellFormed(s)
    ensures var prep := Prepare(s, p, templateRead);
      && |prep.calls| >= 1
      && prep.calls[0] == PtableQuery(p.name)
      && (forall i :: 1 <= i < |prep.calls| ==> prep.calls[i].LocationQuery?)
      && ReadOnly(prep.calls)
      && (prep.result.Failure? ==> prep.result.error.BeforeDecision())
  {
    if HasLocations(p.locations) {
      ResolveLocationsShape(s.env, p.locations.value);
    }
  }

  /**
   * When preparation succeeds, and exactly then: the request body holds the
   * name, the resolved layout and the os family, plus the location ids, one
   * per name and in order, only when locations were given; the search result
   * is the record with that name.
   */
  lemma PrepareSucceeds(s: Server, p: Params, templateRead: Option<string>)
    requires WellFormed(s)
    ensures var prep := Prepare(s, p, templateRead);
      prep.result.Success? <==>
        && PtableQuery(p.name) !in s.env.rejects
        && (HasLocations(p.locations) ==> AllResolvable(s.env, p.locations.value))
        && ResolveLayout(p.layout, p.templateFile, templateRead).Success?
    ensures var prep := Prepare(s, p, templateRead);
      prep.result.Success? ==>
        var data := prep.result.value.data;
        && prep.result.value.found == FindByName(s.ptables, p.name)
        && data.name == p.name
        && data.layout == ResolveLayout(p.layout, p.templateFile, templateRead).value
        && data.osFamily == p.osFamily
        && (data.locationIds.Some? <==> HasLocations(p.locations))
        && (data.locationIds.Some? ==>
              && |data.locationIds.value| == |p.locations.value|
              && forall i :: 0 <= i < |p.locations.value| ==>
                   data.locationIds.value[i] == s.env.locations[p.locations.value[i]])
  {
    if HasLocations(p.locations) {
      ResolveLocationsSuccessIff(s.env, p.locations.value);
      if AllResolvable(s.env, p.locations.value) {
        ResolveLocationsSucceeds(s.env, p.locations.value);
      }
    }
  }

  // ---------------------------------------------------------------------
  // Errors

  /** A run that fails leaves the stored tables as they were. */
  lemma FailedRunChangesNothing(s: Server, p: Params, templateRead: Option<string>)
    requires WellFormed(s)
    requires Reconcile(s, p, templateRead).result.Failure?
    ensures Reconcile(s, p, templateRead).server == s
  {
  }

  /**
   * A failure before the decision table (search, locations, layout or
   * template file) comes before any create, update or delete request.
   */
  lemma EarlyFailureSendsNoChange(s: Server, p: Params, templateRead: Option<string>)
    requires WellFormed(s)
    requires Reconcile(s, p, templateRead).result.Failure?
    requires Reconcile(s, p, templateRead).result.error.BeforeDecision()
    ensures var run := Reconcile(s, p, templateRead);
      run.server == s && ReadOnly(run.calls) && run.calls == Prepare(s, p, templateRead).calls
  {
    PrepareOnlyQueries(s, p, templateRead);
  }

  /**
   * Neither or both layout sources, or an unreadable template file: the run
   * fails before any change, in either state. The name search and the
   * location lookups run first, so their failures take precedence.
   */
  lemma LayoutErrorStopsRun(s: Server, p: Params, templateRead: Option<string>)
    requires WellFormed(s)
    requires ResolveLayout(p.layout, p.templateFile, templateRead).Failure?
    ensures var run := Reconcile(s, p, templateRead);
      && run.result.Failure?
      && run.server == s
      && ReadOnly(run.calls)
    ensures PtableQuery(p.name) !in s.env.rejects && (HasLocations(p.locations) ==> AllResolvable(s.env, p.locations.value)) ==>
      Reconcile(s, p, templateRead).result == Failure(ResolveLayout(p.layout, p.templateFile, templateRead).error)
  {
    PrepareOnlyQueries(s, p, templateRead);
    PrepareSucceeds(s, p, templateRead);
    if HasLocations(p.locations) {
      ResolveLocationsSuccessIff(s.env, p.locations.value);
    }
  }

  /**
   * A rejected name search stops the run with SearchFailed before any other
   * request, whatever the locations and layout parameters are.
   */
  lemma SearchFailureStopsRun(s: Server, p: Params, templateRead: Option<string>)
    requires WellFormed(s)
    requires PtableQuery(p.name) in s.env.rejects
    ensures Reconcile(s, p, templateRead) == Run(Failure(SearchFailed), s, [PtableQuery(p.name)])
  {
  }

  /**
   * The first location name that does not resolve stops the run with an
   * error for it, after the name search and the searches up to that name,
   * and before anything else.
   */
  lemma UnresolvableLocationStopsRun(s: Server, p: Params, templateRead: Option<string>, k: nat)
    requires WellFormed(s)
    requires PtableQuery(p.name) !in s.env.rejects
    requires HasLocations(p.locations) && k < |p.locations.value|
    requires forall j :: 0 <= j < k ==> Resolvable(s.env, p.locations.value[j])
    requires !Resolvable(s.env, p.locations.value[k])
    ensures Reconcile(s, p, templateRead) ==
      Run(Failure(LookupError(s.env, p.locations.value[k])), s, [PtableQuery(p.name)] + Queries(p.locations.value[..k + 1]))
  {
    ResolveLocationsStops(s.env, p.locations.value, k);
  }

  // ---------------------------------------------------------------------
  // The decision table

  /**
   * No record and state present: exactly one create request, with the
   * prepared body; success reports changed and the created record.
   */
  lemma CreateWhenMissing(s: Server, p: Params, templateRead: Option<string>, data: PtableData)
    requires WellFormed(s)
    requires p.state == Present
    requires Prepare(s, p, templateRead).result == Success(Prepared(None, data))
    ensures var run := Reconcile(s, p, templateRead);
      && run.calls == Prepare(s, p, templateRead).calls + [PtableCreate(data)]
      && (run.result.Success? <==> PtableCreate(data) !in s.env.rejects)
      && (run.result.Success? ==>
            && run.result.value == Response(true, Some(NewPtable(s.nextId, data)))
            && s.nextId !in s.ptables
            && run.server.ptables == s.ptables[s.nextId := NewPtable(s.nextId, data)])
      && (run.result.Failure? ==> run.result == Failure(CreateFailed) && run.server == s)
  {
    PrepareSucceeds(s, p, templateRead);
  }

  /** No record and state absent: nothing is sent after preparation, changed is false, the payload is empty. */
  lemma NothingWhenMissingAndAbsent(s: Server, p: Params, templateRead: Option<string>, data: PtableData)
    requires WellFormed(s)
    requires p.state == Absent
    requires Prepare(s, p, templateRead).result == Success(Prepared(None, data))
    ensures Reconcile(s, p, templateRead) == Run(Success(Response(false, None)), s, Prepare(s, p, templateRead).calls)
  {
  }

  /**
   * A record and state absent: one delete request by the found id; success
   * reports changed and the deleted record, and removes only that record.
   */
  lemma DeleteWhenAbsent(s: Server, p: Params, templateRead: Option<string>, found: Ptable, data: PtableData)
    requires WellFormed(s)
    requires p.state == Absent
    requires Prepare(s, p, templateRead).result == Success(Prepared(Some(found), data))
    ensures var run := Reconcile(s, p, templateRead);
      && run.calls == Prepare(s, p, templateRead).calls + [PtableDelete(found.id)]
      && (run.result.Success? <==> PtableDelete(found.id) !in s.env.rejects)
      && (run.result.Success? ==>
            && run.result.value == Response(true, Some(found))
            && run.server.ptables == s.ptables - {found.id}
            && (forall id :: id in s.ptables && id != found.id ==> id in run.server.ptables && run.server.ptables[id] == s.ptables[id]))
      && (run.result.Failure? ==> run.result == Failure(DeleteFailed) && run.server == s)
  {
    PrepareSucceeds(s, p, templateRead);
  }

  /**
   * A record and state present: fetch it by id; when its layout matches the
   * raw `layout` parameter or the resolved layout, report no change and the
   * fetched record; otherwise one update by the same id with the prepared
   * body, reporting changed and the updated record.
   */
  lemma UpdateWhenPresent(s: Server, p: Params, templateRead: Option<string>, found: Ptable, data: PtableData)
    requires WellFormed(s)
    requires p.state == Present
    requires Prepare(s, p, templateRead).result == Success(Prepared(Some(found), data))
    ensures var run := Reconcile(s, p, templateRead);
      var prepCalls := Prepare(s, p, templateRead).calls;
      PtableFetch(found.id) in s.env.rejects ==> run == Run(Failure(FetchFailed), s, prepCalls + [PtableFetch(found.id)])
    ensures var run := Reconcile(s, p, templateRead);
      var prepCalls := Prepare(s, p, templateRead).calls;
      PtableFetch(found.id) !in s.env.rejects && SameLayout(found.layout, p.layout, data.layout) ==>
        run == Run(Success(Response(false, Some(found))), s, prepCalls + [PtableFetch(found.id)])
    ensures var run := Reconcile(s, p, templateRead);
      var prepCalls := Prepare(s, p, templateRead).calls;
      PtableFetch(found.id) !in s.env.rejects && !SameLayout(found.layout, p.layout, data.layout) ==>
        && run.calls == prepCalls + [PtableFetch(found.id), PtableUpdate(found.id, data)]
        && (run.result.Success? <==> PtableUpdate(found.id, data) !in s.env.rejects)
        && (run.result.Success? ==>
              && run.result.value == Response(true, Some(Patched(found, data)))
              && run.server.ptables == s.ptables[found.id := Patched(found, data)])
        && (run.result.Failure? ==> run.result == Failure(UpdateFailed) && run.server == s)
  {
    PrepareSucceeds(s, p, templateRead);
    assert found.id in s.ptables && s.ptables[found.id] == found;
    assert !NameTakenByOther(s.ptables, data.name, found.id);
  }

  /**
   * Only the layout decides whether an existing record is updated: records
   * that differ only in os family and location ids lead to the same outcome
   * and the same `changed` flag.
   */
  lemma OnlyLayoutDecides(s: Server, p: Params, templateRead: Option<string>, osFamily: Option<string>, locationIds: seq<nat>)
    requires WellFormed(s)
    requires p.state == Present
    requires FindByName(s.ptables, p.name).Some?
    ensures var found := FindByName(s.ptables, p.name).value;
      var s' := s.(ptables := s.ptables[found.id := found.(osFamily := osFamily, locationIds := locationIds)]);
      && WellFormed(s')
      && Reconcile(s', p, templateRead).result.Success? == Reconcile(s, p, templateRead).result.Success?
      && (Reconcile(s, p, templateRead).result.Success? ==>
            Reconcile(s', p, templateRead).result.value.changed == Reconcile(s, p, templateRead).result.value.changed)
  {
    var found := FindByName(s.ptables, p.name).value;
    var other := found.(osFamily := osFamily, locationIds := locationIds);
    var s' := s.(ptables := s.ptables[found.id := other]);
    assert WellFormed(s') by {
      forall i, j | i in s'.ptables && j in s'.ptables && s'.ptables[i].name == s'.ptables[j].name
        ensures i == j
      {
        assert s'.ptables[i].name == s.ptables[i].name && s'.ptables[j].name == s.ptables[j].name;
      }
    }
    assert FindByName(s'.ptables, p.name) == Some(other) by {
      assert found.id in s'.ptables && s'.ptables[found.id].name == p.name;
      var r := FindByName(s'.ptables, p.name).value;
      assert r.id == found.id;
    }
    PrepareSucceeds(s, p, templateRead);
    PrepareSucceeds(s', p, templateRead);
    if Prepare(s, p, templateRead).result.Success? {
      var data := Prepare(s, p, templateRead).result.value.data;
      assert Prepare(s', p, templateRead).result == Success(Prepared(Some(other), data));
      UpdateWhenPresent(s, p, templateRead, found, data);
      UpdateWhenPresent(s', p, templateRead, other, data);
    }
  }

  // ---------------------------------------------------------------------
  // Re-running

  /**
   * After a successful present run the server holds a record with the
   * requested name whose layout passes the no-change test, and the run
   * returned that record.
   */
  lemma PresentRunConverges(s: Server, p: Params, templateRead: Option<string>)
    requires WellFormed(s)
    requires p.state == Present
    requires Reconcile(s, p, templateRead).result.Success?
    ensures var run := Reconcile(s, p, templateRead);
      var stored := FindByName(run.server.ptables, p.name);
      && stored.Some?
      && run.result.value.ptable == stored
      && SameLayout(stored.value.layout, p.layout, Prepare(s, p, templateRead).result.value.data.layout)
  {
    PrepareSucceeds(s, p, templateRead);
    var run := Reconcile(s, p, templateRead);
    var prep := Prepare(s, p, templateRead).result.value;
    match prep.found
    case None =>
      CreateWhenMissing(s, p, templateRead, prep.data);
      var created := NewPtable(s.nextId, prep.data);
      assert run.server.ptables[created.id] == created;
      assert FindByName(run.server.ptables, p.name) == Some(created);
    case Some(found) =>
      UpdateWhenPresent(s, p, templateRead, found, prep.data);
      if !SameLayout(found.layout, p.layout, prep.data.layout) {
        var updated := Patched(found, prep.data);
        assert run.server.ptables[found.id] == updated;
        assert FindByName(run.server.ptables, p.name) == Some(updated);
      }
  }

  /**
   * Idempotence: running again with the same parameters after a successful
   * present run changes nothing and sends no create, update or delete; it
   * reports no change and the stored record, unless fetching that record fails.
   */
  lemma PresentRunIsIdempotent(s: Server, p: Params, templateRead: Option<string>)
    requires WellFormed(s)
    requires p.state == Present
    requires Reconcile(s, p, templateRead).result.Success?
    ensures var s1 := Reconcile(s, p, templateRead).server;
      var again := Reconcile(s1, p, templateRead);
      && again.server == s1
      && ReadOnly(again.calls)
      && (again.result.Success? ==> again.result.value == Response(false, FindByName(s1.ptables, p.name)))
      && (again.result.Failure? ==> again.result.error == FetchFailed)
  {
    var s1 := Reconcile(s, p, templateRead).server;
    PresentRunConverges(s, p, templateRead);
    PrepareSucceeds(s, p, templateRead);
    PrepareSucceeds(s1, p, templateRead);
    PrepareOnlyQueries(s1, p, templateRead);
    var data := Prepare(s, p, templateRead).result.value.data;
    var stored := FindByName(s1.ptables, p.name).value;
    assert Prepare(s1, p, templateRead).result == Success(Prepared(Some(stored), data));
    UpdateWhenPresent(s1, p, templateRead, stored, data);
  }

  /**
   * After a successful absent run no record has the requested name, and
   * running again reports no change, sends nothing after preparation and
   * changes nothing.
   */
  lemma AbsentRunIsIdempotent(s: Server, p: Params, templateRead: Option<string>)
    requires WellFormed(s)
    requires p.state == Absent
    requires Reconcile(s, p, templateRead).result.Success?
    ensures var s1 := Reconcile(s, p, templateRead).server;
      && FindByName(s1.ptables, p.name).None?
      && Reconcile(s1, p, templateRead) == Run(Success(Response(false, None)), s1, Prepare(s1, p, templateRead).calls)
  {
    var s1 := Reconcile(s, p, templateRead).server;
    PrepareSucceeds(s, p, templateRead);
    PrepareSucceeds(s1, p, templateRead);
    var prep := Prepare(s, p, templateRead).result.value;
    if prep.found.Some? {
      DeleteWhenAbsent(s, p, templateRead, prep.found.value, prep.data);
      assert !NameTaken(s1.ptables, p.name) by {
        forall id | id in s1.ptables ensures s1.ptables[id].name != p.name {
          assert id in s.ptables && id != prep.found.value.id;
        }
      }
    }
    assert Prepare(s1, p, templateRead).result == Success(Prepared(None, prep.data));
  }

  // ---------------------------------------------------------------------
  // Examples

  /**
   * The module's own usage example (name FreeBSD, layout 'some layout',
   * state present) on a server without partition tables: one search and one
   * create with exactly name, layout and an empty os family.
   */
  lemma CreateFreeBsdExample()
    ensures var s := Server(map[], 0, Env(map[], {}));
      var p := Params("FreeBSD", Some("some layout"), None, None, None, Present);
      var data := PtableData("FreeBSD", "some layout", None, None);
      var run := Reconcile(s, p, None);
      && run.calls == [PtableQuery("FreeBSD"), PtableCreate(data)]
      && run.result == Success(Response(true, Some(Ptable(0, "FreeBSD", "some layout", None, []))))
      && run.server.ptables == map[0 := Ptable(0, "FreeBSD", "some layout", None, [])]
  {
  }

  /**
   * The no-change test also compares against the raw `layout` parameter.
   * With `layout: ''` (not given, by Python truthiness) and a template file,
   * a stored empty layout counts as up to date although the file's contents
   * differ, so the record is never updated to the template.
   */
  lemma RawLayoutComparisonKeepsStaleRecord()
    ensures var stored := Ptable(1, "FreeBSD", "", None, []);
      var s := Server(map[1 := stored], 2, Env(map[], {}));
      var p := Params("FreeBSD", Some(""), Some("freebsd.ptable"), None, None, Present);
      var run := Reconcile(s, p, Some("zfs on root"));
      && ResolveLayout(p.layout, p.templateFile, Some("zfs on root")) == Success("zfs on root")
      && run.result == Success(Response(false, Some(stored)))
      && run.server == s
      && stored.layout != "zfs on root"
  {
    var stored := Ptable(1, "FreeBSD", "", None, []);
    assert FindByName(map[1 := stored], "FreeBSD") == Some(stored) by {
      assert NameTaken(map[1 := stored], "FreeBSD") by { assert map[1 := stored][1].name == "FreeBSD"; }
    }
  }
}
