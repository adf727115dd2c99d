/** The CloudDnsZone custom resource: its desired state, its observed state, the DNSSEC
    state enum, the defaults and validation its schema markers declare, and the name of
    the managed zone it stands for. */
module CloudDnsZoneTypes {
  import opened Wrappers
  import opened Kube

  /** DNSSEC configuration as stored. `state` is a string: the schema restricts it to
      the enum below when the configuration is given. */
  datatype DnsSecSpec = DnsSecSpec(state: string, nonExistence: bool)

  /** Desired state. `dnsName` is any string: its pattern marker is misspelled, so no
      format is enforced. `privateZone` is serialised under the key "public". */
  datatype CloudDnsZoneSpec = CloudDnsZoneSpec(
    projectId: string,
    dnsName: string,
    privateZone: bool,
    dnsSecSpec: DnsSecSpec,
    cleanupOnDelete: bool)

  /** Observed state. `operation` is the id of an outstanding zone operation ("" when
      none); the controller reads and writes it although the Go status type lacks it. */
  datatype CloudDnsZoneStatus = CloudDnsZoneStatus(nameservers: seq<string>, operation: string)

  type CloudDnsZone = KubeObject<CloudDnsZoneSpec, CloudDnsZoneStatus>

  /** The managed zone's name: namespace, a dash, then the object's name. */
  function GetCloudDnsZoneFullName(z: CloudDnsZone): (r: string)
    ensures |r| == |z.meta.namespace| + 1 + |z.meta.name|
    ensures r[..|z.meta.namespace|] == z.meta.namespace
    ensures r[|z.meta.namespace|] == '-'
    ensures r[|z.meta.namespace| + 1..] == z.meta.name
  {
    z.meta.namespace + "-" + z.meta.name
  }

  // ---------------------------------------------------------------------------
  // DNSSEC state enum
  // ---------------------------------------------------------------------------

  datatype DnsSecState = On | Off | Transfer {
    function Name(): string {
      match this
      case On => "On"
      case Off => "Off"
      case Transfer => "Transfer"
    }
  }

  /** The enum validation: exactly the three names, compared exactly. */
  function ParseDnsSecState(s: string): (r: Option<DnsSecState>)
    ensures r.Some? ==> r.value.Name() == s
  {
    if s == "On" then Some(On)
    else if s == "Off" then Some(Off)
    else if s == "Transfer" then Some(Transfer)
    else None
  }

  lemma DnsSecStateRoundTrip(t: DnsSecState, s: string)
    ensures ParseDnsSecState(t.Name()) == Some(t)
    ensures ParseDnsSecState(s).Some? <==> s == "On" || s == "Off" || s == "Transfer"
  {
  }

  // ---------------------------------------------------------------------------
  // Admission: defaults then validation, as the schema markers declare
  // ---------------------------------------------------------------------------

  /** A spec as submitted: every field may be omitted. */
  datatype DnsSecSpecInput = DnsSecSpecInput(state: Option<string>, nonExistence: Option<bool>)

  datatype CloudDnsZoneSpecInput = CloudDnsZoneSpecInput(
    projectId: Option<string>,
    dnsName: Option<string>,
    privateZone: Option<bool>,
    dnsSecSpec: Option<DnsSecSpecInput>,
    cleanupOnDelete: Option<bool>)

  const DefaultDnsSecState: DnsSecState := On
  const DefaultNonExistence: bool := true
  const DefaultPrivateZone: bool := false
  const DefaultCleanupOnDelete: bool := false

  /** A given DNSSEC configuration: State defaults to On and must be in the enum,
      NonExistence defaults to true. An omitted configuration keeps the zero value: the
      server applies nested defaults only inside an object that is present. */
  function AdmitDnsSecSpec(i: Option<DnsSecSpecInput>): (r: Result<DnsSecSpec, AdmissionError>)
    ensures i.None? ==> r == Ok(DnsSecSpec("", false))
    ensures r.Err? ==> i.Some? && r.error.NotInEnum? && r.error.field == "dnsSecSpec.state"
                       && ParseDnsSecState(r.error.value).None?
    ensures r.Ok? && i.Some? ==> ParseDnsSecState(r.value.state).Some?
    ensures r.Ok? && i.Some? ==>
      && (i.value.state.Some? ==> r.value.state == i.value.state.value)
      && (i.value.state.None? ==> r.value.state == "On")
      && (i.value.nonExistence.Some? ==> r.value.nonExistence == i.value.nonExistence.value)
      && (i.value.nonExistence.None? ==> r.value.nonExistence)
  {
    match i
    case None => Ok(DnsSecSpec("", false))
    case Some(d) =>
      var state := if d.state.Some? then d.state.value else DefaultDnsSecState.Name();
      var nonExistence := if d.nonExistence.Some? then d.nonExistence.value else DefaultNonExistence;
      if ParseDnsSecState(state).None? then Err(NotInEnum("dnsSecSpec.state", state))
      else Ok(DnsSecSpec(state, nonExistence))
  }

  function AdmitCloudDnsZoneSpec(i: CloudDnsZoneSpecInput): (r: Result<CloudDnsZoneSpec, AdmissionError>)
    ensures r == Err(MissingRequired("projectID")) <==> i.projectId.None?
    ensures r == Err(MissingRequired("dnsName")) <==> i.projectId.Some? && i.dnsName.None?
    ensures r.Ok? ==> i.projectId == Some(r.value.projectId) && i.dnsName == Some(r.value.dnsName)
  {
    if i.projectId.None? then Err(MissingRequired("projectID"))
    else if i.dnsName.None? then Err(MissingRequired("dnsName"))
    else match AdmitDnsSecSpec(i.dnsSecSpec)
      case Err(e) => Err(e)
      case Ok(dnsSec) =>
        Ok(CloudDnsZoneSpec(
          i.projectId.value,
          i.dnsName.value,
          if i.privateZone.Some? then i.privateZone.value else DefaultPrivateZone,
          dnsSec,
          if i.cleanupOnDelete.Some? then i.cleanupOnDelete.value else DefaultCleanupOnDelete))
  }

  // ---------------------------------------------------------------------------
  // Writing a stored spec back: serialisation, then admission again
  // ---------------------------------------------------------------------------

  /** The request body a controller's Update carries for a spec it read. ProjectID,
      DnsName and the "public" key have no omitempty and are always sent; the DNSSEC
      configuration is a struct, which omitempty never drops, so it is always sent too;
      inside it an empty State and a false NonExistence are dropped, as is a false
      CleanupOnDelete. */
  function Serialized(s: CloudDnsZoneSpec): (i: CloudDnsZoneSpecInput)
    ensures i.projectId == Some(s.projectId) && i.dnsName == Some(s.dnsName) && i.privateZone == Some(s.privateZone)
    ensures i.dnsSecSpec.Some?
    ensures i.dnsSecSpec.value.state.None? <==> s.dnsSecSpec.state == ""
    ensures i.dnsSecSpec.value.state.Some? ==> i.dnsSecSpec.value.state.value == s.dnsSecSpec.state
    ensures i.dnsSecSpec.value.nonExistence.None? <==> !s.dnsSecSpec.nonExistence
    ensures i.cleanupOnDelete.None? <==> !s.cleanupOnDelete
    ensures i.dnsSecSpec.value.nonExistence.Some? ==> i.dnsSecSpec.value.nonExistence.value
    ensures i.cleanupOnDelete.Some? ==> i.cleanupOnDelete.value
  {
    CloudDnsZoneSpecInput(
      Some(s.projectId),
      Some(s.dnsName),
      Some(s.privateZone),
      Some(DnsSecSpecInput(
        if s.dnsSecSpec.state == "" then None else Some(s.dnsSecSpec.state),
        if s.dnsSecSpec.nonExistence then Some(true) else None)),
      if s.cleanupOnDelete then Some(true) else None)
  }

  /** The spec the server stores when a controller writes `s` back. The write is refused
      only for a state outside the enum; otherwise an empty State becomes On and
      NonExistence becomes true, whatever it was, and the rest is kept. */
  function Rewritten(s: CloudDnsZoneSpec): (r: Result<CloudDnsZoneSpec, AdmissionError>)
    ensures r.Ok? <==> s.dnsSecSpec.state == "" || ParseDnsSecState(s.dnsSecSpec.state).Some?
    ensures r.Ok? ==>
      r.value == s.(dnsSecSpec := DnsSecSpec(if s.dnsSecSpec.state == "" then "On" else s.dnsSecSpec.state, true))
  {
    AdmitCloudDnsZoneSpec(Serialized(s))
  }

  /** Writing back is idempotent: a spec the server stored is stored unchanged when it
      is written back again. */
  lemma RewriteIsIdempotent(s: CloudDnsZoneSpec)
    requires Rewritten(s).Ok?
    ensures Rewritten(Rewritten(s).value) == Rewritten(s)
  {
  }

  /** What a controller's write-back does to an admitted spec: an omitted DNSSEC
      configuration, stored empty, is filled with State On and NonExistence true; a given
      configuration keeps its State, and its NonExistence becomes true, so a user's
      explicit false does not survive the write; everything else is kept. */
  lemma RewriteOfAdmittedSpec(i: CloudDnsZoneSpecInput)
    requires AdmitCloudDnsZoneSpec(i).Ok?
    ensures var s := AdmitCloudDnsZoneSpec(i).value;
      && Rewritten(s).Ok?
      && Rewritten(s).value.(dnsSecSpec := s.dnsSecSpec) == s
      && (i.dnsSecSpec.None? ==> Rewritten(s).value.dnsSecSpec == DnsSecSpec("On", true))
      && (i.dnsSecSpec.Some? ==> Rewritten(s).value.dnsSecSpec == s.dnsSecSpec.(nonExistence := true))
      && (Rewritten(s).value == s <==> i.dnsSecSpec.Some? && i.dnsSecSpec.value.nonExistence != Some(false))
  {
    AdmittedZoneSpec(i);
  }

  /** What admission guarantees of a zone spec: ProjectID and DnsName are required (any
      string); PrivateZone and CleanupOnDelete default to false; a given DNSSEC state is
      one of On, Off, Transfer and defaults to On; NonExistence defaults to true. A
      default only fills an omitted field: every value given is kept. */
  lemma AdmittedZoneSpec(i: CloudDnsZoneSpecInput)
    ensures AdmitCloudDnsZoneSpec(i).Ok? <==>
      i.projectId.Some? && i.dnsName.Some? &&
      (i.dnsSecSpec.Some? && i.dnsSecSpec.value.state.Some? ==> ParseDnsSecState(i.dnsSecSpec.value.state.value).Some?)
    ensures AdmitCloudDnsZoneSpec(i).Ok? ==>
      var s := AdmitCloudDnsZoneSpec(i).value;
      && s.projectId == i.projectId.value
      && s.dnsName == i.dnsName.value
      && s.privateZone == (i.privateZone == Some(true))
      && s.cleanupOnDelete == (i.cleanupOnDelete == Some(true))
      && (i.dnsSecSpec.None? ==> s.dnsSecSpec == DnsSecSpec("", false))
      && (i.dnsSecSpec.Some? ==>
            && ParseDnsSecState(s.dnsSecSpec.state).Some?
            && (i.dnsSecSpec.value.state.None? ==> s.dnsSecSpec.state == "On")
            && (i.dnsSecSpec.value.state.Some? ==> s.dnsSecSpec.state == i.dnsSecSpec.value.state.value)
            && (i.dnsSecSpec.value.nonExistence.None? ==> s.dnsSecSpec.nonExistence)
            && (i.dnsSecSpec.value.nonExistence.Some? ==>
                  s.dnsSecSpec.nonExistence == i.dnsSecSpec.value.nonExistence.value))
  {
  }
}
