/**
 * The admin API over the `service_nextcloud_server` table (src/Api/Admin.php).
 *
 * The table is an in-memory map from id to row with an auto-increment
 * counter; the host validator's required-parameter test and PHP's
 * `FILTER_VALIDATE_URL` are predicates given to the registry when it is
 * built; the clock is a parameter of each method that stamps a row.
 */
module AdminApi {
  import opened Common
  import opened Php
  import opened Nextcloud

  /** A row of `service_nextcloud_server`. `config` holds the value that was JSON-encoded. */
  datatype Server = Server(
    name: string,
    url: string,
    username: Option<string>,
    password: Option<string>,
    config: Value,
    active: int,
    createdAt: Timestamp,
    updatedAt: Timestamp)

  /**
   * The `$data` array of an admin call, one field per key the API reads;
   * None is an unset key or a null value.
   */
  datatype ServerParams = ServerParams(
    id: Option<int>,
    name: Option<string>,
    url: Option<string>,
    username: Option<string>,
    password: Option<string>,
    config: Option<Value>,
    active: Option<int>)

  /** The four keys `server_list` and `server_get` expose: never the credentials. */
  datatype ServerSummary = ServerSummary(id: int, name: string, url: string, active: int)

  datatype AdminError =
    | MissingParam(field: string)  // the validator's InformationException, naming the field
    | InvalidServerUrl             // InformationException 'Invalid server URL', code 400
    | ServerNotFound               // NotFoundException 'Server not found', code 404
    | ClientTypeError              // a NULL username or password given to NextcloudAPI's `string` parameters
    | Remote(cause: ApiError)      // an exception from the client's probes

  function SummaryOf(id: int, s: Server): ServerSummary {
    ServerSummary(id, s.name, s.url, s.active)
  }

  /** `json_encode($data['config'])` takes null when the key is unset. */
  function ConfigOf(data: ServerParams): Value {
    data.config.GetOr(VNull)
  }

  /** The row `server_create` stores for `data`. */
  function NewServer(data: ServerParams, now: Timestamp): Server
    requires data.name.Some? && data.url.Some?
  {
    Server(data.name.value, data.url.value, data.username, data.password, ConfigOf(data), 1, now, now)
  }

  /**
   * The row `server_update` stores: each `$data[k] ?? $server->k` keeps the
   * old value when k is not supplied, except `config`, whose `??` falls back
   * on nothing since `json_encode` never returns null.
   */
  function Patched(s: Server, data: ServerParams, now: Timestamp): (p: Server)
    ensures data.name.None? ==> p.name == s.name
    ensures data.name.Some? ==> p.name == data.name.value
    ensures data.url.None? ==> p.url == s.url
    ensures data.url.Some? ==> p.url == data.url.value
    ensures data.username.None? ==> p.username == s.username
    ensures data.username.Some? ==> p.username == data.username
    ensures data.password.None? ==> p.password == s.password
    ensures data.password.Some? ==> p.password == data.password
    ensures data.active.None? ==> p.active == s.active
    ensures data.active.Some? ==> p.active == data.active.value
    ensures p.config == ConfigOf(data)
    ensures p.createdAt == s.createdAt && p.updatedAt == now
  {
    Server(
      data.name.GetOr(s.name),
      data.url.GetOr(s.url),
      if data.username.Some? then data.username else s.username,
      if data.password.Some? then data.password else s.password,
      ConfigOf(data),
      data.active.GetOr(s.active),
      s.createdAt,
      now)
  }

  /** An update that does not mention `config` still replaces a stored config with null. */
  lemma UpdateDropsUnmentionedConfig(s: Server, data: ServerParams, now: Timestamp)
    requires data.config.None? && s.config != VNull
    ensures Patched(s, data, now).config == VNull != s.config
  {
  }

  /** The client `server_test_connection` builds from a stored row. */
  function ClientFor(s: Server): NextcloudApi
    requires s.username.Some? && s.password.Some?
  {
    NextcloudApi(s.url, s.username.value, s.password.value)
  }

  /** An exception from a probe passes through `server_test_connection` unchanged. */
  function Lift(r: Result<bool, ApiError>): Result<bool, AdminError> {
    match r
    case Success(b) => Success(b)
    case Failure(e) => Failure(Remote(e))
  }

  /**
   * The summaries of the rows with ids below `hi`, in increasing id order:
   * what the `foreach` over the table appends.
   */
  function Listing(servers: map<int, Server>, hi: int): seq<ServerSummary>
    decreases hi
  {
    if hi <= 1 then []
    else Listing(servers, hi - 1) + (if hi - 1 in servers then [SummaryOf(hi - 1, servers[hi - 1])] else [])
  }

  /** Every entry of the listing is the summary of a stored row with an id in [1, hi). */
  lemma {:induction false} ListingSound(servers: map<int, Server>, hi: int)
    ensures forall k :: 0 <= k < |Listing(servers, hi)| ==>
              && Listing(servers, hi)[k].id in servers
              && 1 <= Listing(servers, hi)[k].id < hi
              && Listing(servers, hi)[k] == SummaryOf(Listing(servers, hi)[k].id, servers[Listing(servers, hi)[k].id])
    decreases hi
  {
    if hi > 1 {
      ListingSound(servers, hi - 1);
    }
  }

  /** The listing is in strictly increasing id order, so no row appears twice. */
  lemma {:induction false} ListingSorted(servers: map<int, Server>, hi: int)
    ensures forall k, l :: 0 <= k < l < |Listing(servers, hi)| ==> Listing(servers, hi)[k].id < Listing(servers, hi)[l].id
    decreases hi
  {
    if hi > 1 {
      ListingSorted(servers, hi - 1);
      ListingSound(servers, hi - 1);
    }
  }

  /** Some entry of `r` summarises row `id`. */
  predicate Listed(r: seq<ServerSummary>, id: int) {
    exists k :: 0 <= k < |r| && r[k].id == id
  }

  /** Every stored row with an id in [1, hi) appears in the listing. */
  lemma {:induction false} ListingComplete(servers: map<int, Server>, hi: int)
    ensures forall id :: id in servers && 1 <= id < hi ==> Listed(Listing(servers, hi), id)
    decreases hi
  {
    if hi > 1 {
      ListingComplete(servers, hi - 1);
      var before := Listing(servers, hi - 1);
      var r := Listing(servers, hi);
      assert forall k :: 0 <= k < |before| ==> r[k] == before[k];
      forall id | id in servers && 1 <= id < hi
        ensures Listed(r, id)
      {
        if id < hi - 1 {
          var k :| 0 <= k < |before| && before[k].id == id;
          assert r[k].id == id;
        } else {
          assert r[|r| - 1].id == id;
        }
      }
    }
  }

  class ServerRegistry {
    /** The table, by id. */
    var servers: map<int, Server>
    /** The id the next stored row receives (AUTO_INCREMENT=1). */
    var nextId: int
    /** The validator's test of a present string parameter. */
    const filled: string -> bool
    /** `filter_var($url, FILTER_VALIDATE_URL)` succeeds. */
    const validUrl: string -> bool

    /** Every stored id was handed out by the counter. */
    ghost predicate Valid()
      reads this
    {
      1 <= nextId && forall id :: id in servers ==> 1 <= id < nextId
    }

    constructor (filled: string -> bool, validUrl: string -> bool)
      ensures Valid() && servers == map[] && nextId == 1
      ensures this.filled == filled && this.validUrl == validUrl
    {
      servers := map[];
      nextId := 1;
      this.filled := filled;
      this.validUrl := validUrl;
    }

    /** `checkRequiredParamsForArray` accepts the string parameter `v`. */
    predicate Supplied(v: Option<string>) {
      v.Some? && filled(v.value)
    }

    /**
     * `server_list`: one summary per stored server, in id order. Id order
     * is a fixed stand-in for the unspecified order of a SELECT without
     * ORDER BY.
     */
    method ServerList() returns (r: seq<ServerSummary>)
      requires Valid()
      ensures r == Listing(servers, nextId)
      ensures forall k :: 0 <= k < |r| ==> r[k].id in servers && r[k] == SummaryOf(r[k].id, servers[r[k].id])
      ensures forall k, l :: 0 <= k < l < |r| ==> r[k].id < r[l].id
      ensures forall id :: id in servers ==> Listed(r, id)
    {
      r := [];
      var id := 1;
      while id < nextId
        invariant 1 <= id <= nextId
        invariant r == Listing(servers, id)
      {
        if id in servers {
          r := r + [SummaryOf(id, servers[id])];
        }
        id := id + 1;
      }
      ListingSound(servers, nextId);
      ListingSorted(servers, nextId);
      ListingComplete(servers, nextId);
    }

    /** `server_get`: NotFound for an absent id, otherwise the summary. */
    method ServerGet(id: int) returns (r: Result<ServerSummary, AdminError>)
      ensures id !in servers <==> r == Failure(ServerNotFound)
      ensures id in servers ==> r.Success? && r.value.id == id && r.value.name == servers[id].name
                                && r.value.url == servers[id].url && r.value.active == servers[id].active
    {
      if id !in servers {
        return Failure(ServerNotFound);
      }
      r := Success(SummaryOf(id, servers[id]));
    }

    /**
     * `server_create`: name, then url, must be supplied; then the url must
     * validate; only then is one active row stored.
     */
    method ServerCreate(data: ServerParams, now: Timestamp) returns (r: Result<bool, AdminError>)
      requires Valid()
      modifies this
      ensures Valid()
      ensures !Supplied(data.name) ==> r == Failure(MissingParam("Name"))
      ensures Supplied(data.name) && !Supplied(data.url) ==> r == Failure(MissingParam("Server URL"))
      ensures Supplied(data.name) && Supplied(data.url) && !validUrl(data.url.value) ==> r == Failure(InvalidServerUrl)
      ensures r.Failure? ==> servers == old(servers) && nextId == old(nextId)
      ensures r.Success? <==> Supplied(data.name) && Supplied(data.url) && validUrl(data.url.value)
      ensures r.Success? ==>
                && r.value
                && nextId == old(nextId) + 1
                && old(nextId) !in old(servers)
                && servers == old(servers)[old(nextId) := NewServer(data, now)]
    {
      if !Supplied(data.name) {
        return Failure(MissingParam("Name"));
      }
      if !Supplied(data.url) {
        return Failure(MissingParam("Server URL"));
      }
      if !validUrl(data.url.value) {
        return Failure(InvalidServerUrl);
      }
      var server := NewServer(data, now);
      servers := servers[nextId := server];
      nextId := nextId + 1;
      r := Success(true);
    }

    /**
     * `server_update`: id must be supplied; a supplied url must validate,
     * before the id is looked up; then the row is patched.
     */
    method ServerUpdate(data: ServerParams, now: Timestamp) returns (r: Result<bool, AdminError>)
      requires Valid()
      modifies this
      ensures Valid() && nextId == old(nextId)
      ensures data.id.None? ==> r == Failure(MissingParam("Server ID"))
      ensures data.id.Some? && data.url.Some? && !validUrl(data.url.value) ==> r == Failure(InvalidServerUrl)
      ensures data.id.Some? && (data.url.Some? ==> validUrl(data.url.value)) && data.id.value !in old(servers) ==>
                r == Failure(ServerNotFound)
      ensures r.Success? <==>
                data.id.Some? && (data.url.Some? ==> validUrl(data.url.value)) && data.id.value in old(servers)
      ensures r.Failure? ==> servers == old(servers)
      ensures r.Success? ==>
                && r.value
                && data.id.Some? && data.id.value in old(servers)
                && servers == old(servers)[data.id.value := Patched(old(servers)[data.id.value], data, now)]
    {
      if data.id.None? {
        return Failure(MissingParam("Server ID"));
      }
      if data.url.Some? && !validUrl(data.url.value) {
        return Failure(InvalidServerUrl);
      }
      var id := data.id.value;
      if id !in servers {
        return Failure(ServerNotFound);
      }
      servers := servers[id := Patched(servers[id], data, now)];
      r := Success(true);
    }

    /** `server_delete`: id must be supplied and present; the row is removed. */
    method ServerDelete(data: ServerParams) returns (r: Result<bool, AdminError>)
      requires Valid()
      modifies this
      ensures Valid() && nextId == old(nextId)
      ensures data.id.None? ==> r == Failure(MissingParam("Server ID"))
      ensures data.id.Some? && data.id.value !in old(servers) ==> r == Failure(ServerNotFound)
      ensures r.Success? <==> data.id.Some? && data.id.value in old(servers)
      ensures r.Failure? ==> servers == old(servers)
      ensures r.Success? ==>
                && r.value
                && data.id.Some? && data.id.value in old(servers)
                && servers == old(servers) - {data.id.value}
    {
      if data.id.None? {
        return Failure(MissingParam("Server ID"));
      }
      var id := data.id.value;
      if id !in servers {
        return Failure(ServerNotFound);
      }
      servers := servers - {id};
      r := Success(true);
    }

    /**
     * `server_test_connection`: builds a client from the stored row and
     * returns `testConnection() && testAuthentication()`. `sent` lists the
     * probes issued: the authentication probe only follows a true
     * connection probe.
     */
    method ServerTestConnection(data: ServerParams, send: Network, decode: Decoder)
      returns (r: Result<bool, AdminError>, sent: seq<Request>)
      ensures data.id.None? ==> r == Failure(MissingParam("Server ID")) && sent == []
      ensures data.id.Some? && data.id.value !in servers ==> r == Failure(ServerNotFound) && sent == []
      ensures data.id.Some? && data.id.value in servers ==>
                var s := servers[data.id.value];
                (s.username.None? || s.password.None?) ==> r == Failure(ClientTypeError) && sent == []
      ensures data.id.Some? && data.id.value in servers ==>
                var s := servers[data.id.value];
                s.username.Some? && s.password.Some? ==>
                  var api := ClientFor(s);
                  var conn := api.TestConnection(send, decode);
                  && |sent| >= 1 && sent[0] == api.ProbeRequest(CapabilitiesPath)
                  && (conn != Success(true) ==> r == Lift(conn) && |sent| == 1)
                  && (conn == Success(true) ==>
                        r == Lift(api.TestAuthentication(send, decode))
                        && sent == [api.ProbeRequest(CapabilitiesPath), api.ProbeRequest(UsersPath)])
      // true only when both probes answered true
      ensures r == Success(true) ==>
                && data.id.Some? && data.id.value in servers
                && servers[data.id.value].username.Some? && servers[data.id.value].password.Some?
                && ClientFor(servers[data.id.value]).TestConnection(send, decode) == Success(true)
                && ClientFor(servers[data.id.value]).TestAuthentication(send, decode) == Success(true)
    {
      sent := [];
      if data.id.None? {
        return Failure(MissingParam("Server ID")), sent;
      }
      var id := data.id.value;
      if id !in servers {
        return Failure(ServerNotFound), sent;
      }
      var server := servers[id];
      if server.username.None? || server.password.None? {
        return Failure(ClientTypeError), sent;
      }
      var nextcloud := ClientFor(server);
      var conn := nextcloud.TestConnection(send, decode);
      sent := sent + [nextcloud.ProbeRequest(CapabilitiesPath)];
      if conn != Success(true) {
        return Lift(conn), sent;
      }
      var auth := nextcloud.TestAuthentication(send, decode);
      sent := sent + [nextcloud.ProbeRequest(UsersPath)];
      r := Lift(auth);
    }
  }

  /**
   * Register one server, list it, delete it and list again: what the
   * registry's contracts let a caller conclude.
   */
  method RegistryScenario(filled: string -> bool, validUrl: string -> bool)
    requires filled("S1") && filled("https://cloud.example.com") && validUrl("https://cloud.example.com")
  {
    var registry := new ServerRegistry(filled, validUrl);
    var data := ServerParams(None, Some("S1"), Some("https://cloud.example.com"), None, None, None, None);
    var created := registry.ServerCreate(data, "2024-01-01 10:00:00");
    assert created == Success(true);
    assert registry.servers.Keys == {1};

    var listed := registry.ServerList();
    assert listed == [ServerSummary(1, "S1", "https://cloud.example.com", 1)];

    var fetched := registry.ServerGet(1);
    assert fetched.Success? && fetched.value.url == "https://cloud.example.com";

    var renamed := registry.ServerUpdate(ServerParams(Some(1), Some("S2"), None, None, None, None, None), "2024-01-01 11:00:00");
    assert renamed == Success(true);
    fetched := registry.ServerGet(1);
    assert fetched.Success? && fetched.value.name == "S2" && fetched.value.url == "https://cloud.example.com";

    var deleted := registry.ServerDelete(ServerParams(Some(1), None, None, None, None, None, None));
    assert deleted == Success(true);
    listed := registry.ServerList();
    assert listed == [];
    fetched := registry.ServerGet(1);
    assert fetched == Failure(ServerNotFound);
  }
}
