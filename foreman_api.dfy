/**
 * The Foreman server as the partition-table module sees it through the
 * python-foreman client: partition tables stored by id, locations found by
 * name, and requests the server may answer with a ForemanError.
 *
 * The server state is a value (`Server`) with one pure function per client
 * call; the class `Foreman` is the client object the module mutates, and each
 * of its methods is proved to behave as the matching function.
 */
module ForemanApi {
  import opened Wrappers

  /** A partition table record as the server stores and returns it. */
  datatype Ptable = Ptable(
    id: nat,
    name: string,
    layout: string,
    osFamily: Option<string>,
    locationIds: seq<nat>)

  /**
   * The request body sent on create and update. `locationIds` is None when
   * the `location_ids` key is absent from the request.
   */
  datatype PtableData = PtableData(
    name: string,
    layout: string,
    osFamily: Option<string>,
    locationIds: Option<seq<nat>>)

  /** One request to the server. */
  datatype Call =
    | LocationQuery(location: string)
    | PtableQuery(name: string)
    | PtableFetch(id: nat)
    | PtableCreate(data: PtableData)
    | PtableUpdate(id: nat, data: PtableData)
    | PtableDelete(id: nat)
  {
    /** Requests that may change the stored partition tables. */
    predicate Mutating() {
      PtableCreate? || PtableUpdate? || PtableDelete?
    }
  }

  /** A client-level error; it records the request that failed. */
  datatype ForemanError = ForemanError(call: Call)

  /**
   * What the module cannot change: the locations known by name, and the
   * requests the server rejects (transport errors, permission errors,
   * server-side validation the model does not spell out).
   */
  datatype Env = Env(locations: map<string, nat>, rejects: set<Call>)

  /** The server: stored partition tables keyed by id, the next id to hand out, and its environment. */
  datatype Server = Server(ptables: map<nat, Ptable>, nextId: nat, env: Env)

  /** The answer to one mutating request, with the server state after it. */
  datatype Reply<T> = Reply(result: Result<T, ForemanError>, server: Server)

  /** Every record is stored under its own id. */
  predicate Keyed(ptables: map<nat, Ptable>) {
    forall id :: id in ptables ==> ptables[id].id == id
  }

  /** Partition table names are unique: Foreman validates this on create and update. */
  predicate UniqueNames(ptables: map<nat, Ptable>) {
    forall i, j :: i in ptables && j in ptables && ptables[i].name == ptables[j].name ==> i == j
  }

  /** The invariant of the server state. */
  predicate WellFormed(s: Server) {
    && Keyed(s.ptables)
    && UniqueNames(s.ptables)
    && (forall id :: id in s.ptables ==> id < s.nextId)
  }

  predicate NameTaken(ptables: map<nat, Ptable>, name: string) {
    exists id :: id in ptables && ptables[id].name == name
  }

  predicate NameTakenByOther(ptables: map<nat, Ptable>, name: string, id: nat) {
    exists other :: other in ptables && other != id && ptables[other].name == name
  }

  /** The record with the given name, if there is one. */
  function FindByName(ptables: map<nat, Ptable>, name: string): (r: Option<Ptable>)
    requires Keyed(ptables) && UniqueNames(ptables)
    ensures r.None? <==> !NameTaken(ptables, name)
    ensures r.Some? ==> r.value.name == name && r.value.id in ptables && ptables[r.value.id] == r.value
  {
    if NameTaken(ptables, name) then
      var id :| id in ptables && ptables[id].name == name;
      Some(ptables[id])
    else
      None
  }

  /** The record a create request stores under a fresh id. */
  function NewPtable(id: nat, data: PtableData): Ptable {
    Ptable(id, data.name, data.layout, data.osFamily,
           if data.locationIds.Some? then data.locationIds.value else [])
  }

  /**
   * A record after an update request: name, layout and os family are
   * replaced (an absent os family is sent as null and clears it); the
   * location ids are replaced only when the request carries them.
   */
  function Patched(ptable: Ptable, data: PtableData): Ptable {
    ptable.(name := data.name, layout := data.layout, osFamily := data.osFamily,
            locationIds := if data.locationIds.Some? then data.locationIds.value else ptable.locationIds)
  }

  /** `search_location(data={'name': name})`: the location's id, or None when there is no such location. */
  function LocationReply(env: Env, name: string): (r: Result<Option<nat>, ForemanError>)
    ensures r.Success? <==> LocationQuery(name) !in env.rejects
    ensures r.Success? ==> (r.value.Some? <==> name in env.locations)
    ensures r.Success? && r.value.Some? ==> r.value.value == env.locations[name]
  {
    if LocationQuery(name) in env.rejects then Failure(ForemanError(LocationQuery(name)))
    else if name in env.locations then Success(Some(env.locations[name]))
    else Success(None)
  }

  /** `search_partition_table(data={'name': name})`: the record with that exact name, if any. */
  function SearchReply(s: Server, name: string): (r: Result<Option<Ptable>, ForemanError>)
    requires WellFormed(s)
    ensures r.Success? <==> PtableQuery(name) !in s.env.rejects
    ensures r.Success? ==> (r.value.Some? <==> NameTaken(s.ptables, name))
    ensures r.Success? && r.value.Some? ==> r.value.value.name == name && r.value.value.id in s.ptables && s.ptables[r.value.value.id] == r.value.value
  {
    if PtableQuery(name) in s.env.rejects then Failure(ForemanError(PtableQuery(name)))
    else Success(FindByName(s.ptables, name))
  }

  /** `get_partition_table(id=id)`: fails when the request is rejected or there is no record with that id. */
  function FetchReply(s: Server, id: nat): (r: Result<Ptable, ForemanError>)
    ensures r.Success? <==> PtableFetch(id) !in s.env.rejects && id in s.ptables
    ensures r.Success? ==> r.value == s.ptables[id]
  {
    if PtableFetch(id) in s.env.rejects || id !in s.ptables then Failure(ForemanError(PtableFetch(id)))
    else Success(s.ptables[id])
  }

  /**
   * `create_partition_table(data)`: stores a new record under a fresh id and
   * returns it; fails, changing nothing, when rejected or when the name is taken.
   */
  function CreateStep(s: Server, data: PtableData): (r: Reply<Ptable>)
    ensures r.server.env == s.env
    ensures r.result.Success? <==> PtableCreate(data) !in s.env.rejects && !NameTaken(s.ptables, data.name)
    ensures r.result.Failure? ==> r.server == s
    ensures r.result.Success? ==>
      var created := r.result.value;
      && created == NewPtable(s.nextId, data)
      && r.server.ptables == s.ptables[created.id := created]
    ensures WellFormed(s) ==> WellFormed(r.server)
    ensures WellFormed(s) && r.result.Success? ==> r.result.value.id !in s.ptables
  {
    if PtableCreate(data) in s.env.rejects || NameTaken(s.ptables, data.name) then
      Reply(Failure(ForemanError(PtableCreate(data))), s)
    else
      var created := NewPtable(s.nextId, data);
      Reply(Success(created), s.(ptables := s.ptables[s.nextId := created], nextId := s.nextId + 1))
  }

  /**
   * `update_partition_table(id=id, data=data)`: patches the record with that
   * id and returns it; fails, changing nothing, when rejected, when there is
   * no such record, or when another record already has the requested name.
   */
  function UpdateStep(s: Server, id: nat, data: PtableData): (r: Reply<Ptable>)
    ensures r.server.env == s.env && r.server.nextId == s.nextId
    ensures r.result.Success? <==>
      PtableUpdate(id, data) !in s.env.rejects && id in s.ptables && !NameTakenByOther(s.ptables, data.name, id)
    ensures r.result.Failure? ==> r.server == s
    ensures r.result.Success? ==>
      && r.result.value == Patched(s.ptables[id], data)
      && r.server.ptables == s.ptables[id := r.result.value]
    ensures WellFormed(s) ==> WellFormed(r.server)
  {
    if PtableUpdate(id, data) in s.env.rejects || id !in s.ptables || NameTakenByOther(s.ptables, data.name, id) then
      Reply(Failure(ForemanError(PtableUpdate(id, data))), s)
    else
      var updated := Patched(s.ptables[id], data);
      Reply(Success(updated), s.(ptables := s.ptables[id := updated]))
  }

  /**
   * `delete_partition_table(id=id)`: removes the record with that id and
   * returns it; fails, changing nothing, when rejected or when there is no such record.
   */
  function DeleteStep(s: Server, id: nat): (r: Reply<Ptable>)
    ensures r.server.env == s.env && r.server.nextId == s.nextId
    ensures r.result.Success? <==> PtableDelete(id) !in s.env.rejects && id in s.ptables
    ensures r.result.Failure? ==> r.server == s
    ensures r.result.Success? ==> r.result.value == s.ptables[id] && r.server.ptables == s.ptables - {id}
    ensures WellFormed(s) ==> WellFormed(r.server)
  {
    if PtableDelete(id) in s.env.rejects || id !in s.ptables then
      Reply(Failure(ForemanError(PtableDelete(id))), s)
    else
      Reply(Success(s.ptables[id]), s.(ptables := s.ptables - {id}))
  }

  /**
   * The python-foreman client object. Its stored tables change in place;
   * `log` is the sequence of requests the server has received.
   */
  class Foreman {
    var ptables: map<nat, Ptable>
    var nextId: nat
    ghost var log: seq<Call>
    const env: Env

    /** The server state, without the request log. */
    function Snapshot(): Server
      reads this
    {
      Server(ptables, nextId, env)
    }

    predicate Valid()
      reads this
    {
      WellFormed(Snapshot())
    }

    constructor (initial: Server)
      requires WellFormed(initial)
      ensures Valid() && Snapshot() == initial && log == []
    {
      ptables := initial.ptables;
      nextId := initial.nextId;
      env := initial.env;
      log := [];
    }

    method SearchLocation(name: string) returns (r: Result<Option<nat>, ForemanError>)
      modifies this`log
      ensures r == LocationReply(env, name)
      ensures log == old(log) + [LocationQuery(name)]
    {
      log := log + [LocationQuery(name)];
      if LocationQuery(name) in env.rejects {
        return Failure(ForemanError(LocationQuery(name)));
      }
      if name in env.locations {
        return Success(Some(env.locations[name]));
      }
      return Success(None);
    }

    method SearchPartitionTable(name: string) returns (r: Result<Option<Ptable>, ForemanError>)
      requires Valid()
      modifies this`log
      ensures r == SearchReply(Snapshot(), name)
      ensures log == old(log) + [PtableQuery(name)]
    {
      log := log + [PtableQuery(name)];
      if PtableQuery(name) in env.rejects {
        return Failure(ForemanError(PtableQuery(name)));
      }
      if NameTaken(ptables, name) {
        var id :| id in ptables && ptables[id].name == name;
        return Success(Some(ptables[id]));
      }
      return Success(None);
    }

    method GetPartitionTable(id: nat) returns (r: Result<Ptable, ForemanError>)
      modifies this`log
      ensures r == FetchReply(Snapshot(), id)
      ensures log == old(log) + [PtableFetch(id)]
    {
      log := log + [PtableFetch(id)];
      if PtableFetch(id) in env.rejects || id !in ptables {
        return Failure(ForemanError(PtableFetch(id)));
      }
      return Success(ptables[id]);
    }

    method CreatePartitionTable(data: PtableData) returns (r: Result<Ptable, ForemanError>)
      requires Valid()
      modifies this
      ensures Valid()
      ensures Reply(r, Snapshot()) == CreateStep(old(Snapshot()), data)
      ensures log == old(log) + [PtableCreate(data)]
    {
      log := log + [PtableCreate(data)];
      if PtableCreate(data) in env.rejects || NameTaken(ptables, data.name) {
        return Failure(ForemanError(PtableCreate(data)));
      }
      var created := NewPtable(nextId, data);
      ptables := ptables[nextId := created];
      nextId := nextId + 1;
      return Success(created);
    }

    method UpdatePartitionTable(id: nat, data: PtableData) returns (r: Result<Ptable, ForemanError>)
      requires Valid()
      modifies this
      ensures Valid()
      ensures Reply(r, Snapshot()) == UpdateStep(old(Snapshot()), id, data)
      ensures log == old(log) + [PtableUpdate(id, data)]
    {
      log := log + [PtableUpdate(id, data)];
      if PtableUpdate(id, data) in env.rejects || id !in ptables || NameTakenByOther(ptables, data.name, id) {
        return Failure(ForemanError(PtableUpdate(id, data)));
      }
      var updated := Patched(ptables[id], data);
      ptables := ptables[id := updated];
      return Success(updated);
    }

    method DeletePartitionTable(id: nat) returns (r: Result<Ptable, ForemanError>)
      requires Valid()
      modifies this
      ensures Valid()
      ensures Reply(r, Snapshot()) == DeleteStep(old(Snapshot()), id)
      ensures log == old(log) + [PtableDelete(id)]
    {
      log := log + [PtableDelete(id)];
      if PtableDelete(id) in env.rejects || id !in ptables {
        return Failure(ForemanError(PtableDelete(id)));
      }
      var deleted := ptables[id];
      ptables := ptables - {id};
      return Success(deleted);
    }
  }
}
