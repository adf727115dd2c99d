/** The Cloud DNS service as the zone controller uses it: the managed-zone and operation
    shapes, how its errors are told apart, the calls it receives, and a service whose
    answers are fixed in advance and which records every call made to it. */
module CloudDns {
  import opened Wrappers

  datatype DnsSecConfig = DnsSecConfig(nonExistence: string, state: string)

  datatype ManagedZone = ManagedZone(
    name: string,
    description: string,
    dnsName: string,
    visibility: string,
    dnssecConfig: DnsSecConfig,
    nameServers: seq<string>)

  /** A zone operation; `status` is "DONE" once it has finished. */
  datatype DnsOperation = DnsOperation(id: string, status: string)

  /** An error from the DNS API: an HTTP error with its status code, or one that carries
      no HTTP status (a transport or client-construction failure). */
  datatype DnsError = ApiError(httpCode: int) | TransportError

  /** googleapi.IsNotModified: an HTTP 304. */
  predicate IsNotModified(e: DnsError) {
    e.ApiError? && e.httpCode == 304
  }

  /** An API error whose HTTP code is 404. */
  predicate IsZoneNotFound(e: DnsError) {
    e.ApiError? && e.httpCode == 404
  }

  /** The answer the service gives to each kind of call during one pass. */
  datatype DnsScript = DnsScript(
    getZone: Result<ManagedZone, DnsError>,
    createZone: Result<ManagedZone, DnsError>,
    updateZone: Result<DnsOperation, DnsError>,
    getOperation: Result<DnsOperation, DnsError>,
    deleteZone: Option<DnsError>)

  datatype DnsCall =
    | GetZoneCall(project: string, zoneName: string)
    | CreateZoneCall(project: string, zone: ManagedZone)
    | UpdateZoneCall(project: string, zoneName: string, zone: ManagedZone)
    | DeleteZoneCall(project: string, zoneName: string)
    | GetOperationCall(project: string, zoneName: string, operation: string)
  {
    predicate IsMutating() {
      CreateZoneCall? || UpdateZoneCall? || DeleteZoneCall?
    }
  }

  /** Whether a pass's calls include a zone update, a zone creation, a zone deletion. */
  predicate IssuesUpdate(calls: seq<DnsCall>) {
    exists i :: 0 <= i < |calls| && calls[i].UpdateZoneCall?
  }

  predicate IssuesCreate(calls: seq<DnsCall>) {
    exists i :: 0 <= i < |calls| && calls[i].CreateZoneCall?
  }

  predicate IssuesDelete(calls: seq<DnsCall>) {
    exists i :: 0 <= i < |calls| && calls[i].DeleteZoneCall?
  }

  /** How many of the calls change the remote zone. */
  function MutatingCount(calls: seq<DnsCall>): nat {
    if calls == [] then 0
    else (if calls[0].IsMutating() then 1 else 0) + MutatingCount(calls[1..])
  }

  /** Two calls, of which the first changes nothing remotely, make at most one change. */
  lemma ReadThenMutateCountsOne(a: DnsCall, b: DnsCall)
    requires !a.IsMutating()
    ensures MutatingCount([a, b]) <= 1
  {
    assert [a, b][1..] == [b];
    assert [b][1..] == [];
    assert MutatingCount([b]) <= 1;
    assert MutatingCount([a, b]) == MutatingCount([b]);
  }

  class DnsService {
    const script: DnsScript
    var calls: seq<DnsCall>

    constructor (script: DnsScript)
      ensures this.script == script && calls == []
    {
      this.script := script;
      calls := [];
    }

    method GetZone(project: string, zoneName: string) returns (r: Result<ManagedZone, DnsError>)
      modifies this
      ensures calls == old(calls) + [GetZoneCall(project, zoneName)] && r == script.getZone
    {
      calls := calls + [GetZoneCall(project, zoneName)];
      r := script.getZone;
    }

    method CreateZone(project: string, zone: ManagedZone) returns (r: Result<ManagedZone, DnsError>)
      modifies this
      ensures calls == old(calls) + [CreateZoneCall(project, zone)] && r == script.createZone
    {
      calls := calls + [CreateZoneCall(project, zone)];
      r := script.createZone;
    }

    method UpdateZone(project: string, zoneName: string, zone: ManagedZone) returns (r: Result<DnsOperation, DnsError>)
      modifies this
      ensures calls == old(calls) + [UpdateZoneCall(project, zoneName, zone)] && r == script.updateZone
    {
      calls := calls + [UpdateZoneCall(project, zoneName, zone)];
      r := script.updateZone;
    }

    method DeleteZone(project: string, zoneName: string) returns (err: Option<DnsError>)
      modifies this
      ensures calls == old(calls) + [DeleteZoneCall(project, zoneName)] && err == script.deleteZone
    {
      calls := calls + [DeleteZoneCall(project, zoneName)];
      err := script.deleteZone;
    }

    method GetOperation(project: string, zoneName: string, operation: string) returns (r: Result<DnsOperation, DnsError>)
      modifies this
      ensures calls == old(calls) + [GetOperationCall(project, zoneName, operation)] && r == script.getOperation
    {
      calls := calls + [GetOperationCall(project, zoneName, operation)];
      r := script.getOperation;
    }
  }
}
