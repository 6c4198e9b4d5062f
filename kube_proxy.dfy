/** The proxy agent's per-firing decision logic: two fail-fast sync pipelines that
    commit a controller snapshot and raise a dirty flag only after every stage
    succeeded, and a report firing that reads the cache without changing it.
    HTTP fetches and the iptables / hosts controllers are collaborators whose
    outcomes are parameters; each firing is one atomic step. */
module KubeProxyApp {
  import opened Wrappers

  /** The only HTTP status code a fetch accepts. */
  const STATUS_OK := 200

  /** Desired state fetched from the control plane; the agent never inspects it. */
  datatype ServiceList = ServiceList(services: seq<string>)
  datatype EndpointList = EndpointList(endpoints: seq<string>)
  datatype DnsList = DnsList(records: seq<string>)

  /** Snapshots returned by the controllers, cached and never inspected. */
  datatype ServicesStatus = ServicesStatus(entries: seq<string>)
  datatype DnsStatus = DnsStatus(entries: seq<string>)

  /** The zero values `KpServicesStatus{}` and `KpDnsStatus{}`. */
  const EMPTY_SERVICES_STATUS := ServicesStatus([])
  const EMPTY_DNS_STATUS := DnsStatus([])

  /** The error a controller call may return. */
  datatype ControllerError = ControllerError

  /** One GET against the control plane: the status code, whether the call
      returned an error, and the decoded body. */
  datatype Fetch<T> = Fetch(status: int, failed: bool, body: T)

  /** A fetch is accepted only with status 200 and no error. */
  predicate Fetched<T>(f: Fetch<T>)
  {
    f.status == STATUS_OK && !f.failed
  }

  /** The iptables controller's SyncConfig and the hosts controller's SyncEtcHosts. */
  type SyncConfigFn = (ServiceList, EndpointList) -> Result<ServicesStatus, ControllerError>
  type SyncEtcHostsFn = DnsList -> Result<DnsStatus, ControllerError>

  /** A collaborator stage that a firing invoked. */
  datatype Stage = GetServices | GetEndpoints | SyncConfig | SyncIptables | GetDns | SyncEtcHosts

  /** The status cache: both snapshots and both dirty flags. */
  datatype Cache = Cache(
    servicesStatus: ServicesStatus,
    dnsStatus: DnsStatus,
    serviceNeedSend: bool,
    dnsNeedSend: bool)

  /** The cache of a fresh agent: empty snapshots, both flags false. */
  const INITIAL_CACHE := Cache(EMPTY_SERVICES_STATUS, EMPTY_DNS_STATUS, false, false)

  /** The cache after one firing, and the stages it invoked in order. */
  datatype StepResult = StepResult(cache: Cache, stages: seq<Stage>)

  /** The snapshot a service sync commits: the one SyncConfig computed from this
      firing's lists, present exactly when all four stages succeed. */
  function ServicesCommitted(services: Fetch<ServiceList>, endpoints: Fetch<EndpointList>,
                             syncConfig: SyncConfigFn, syncIptables: Outcome<ControllerError>): (r: Option<ServicesStatus>)
    ensures r.Some? <==> Fetched(services) && Fetched(endpoints)
                         && syncConfig(services.body, endpoints.body).Success? && syncIptables.Pass?
    ensures r.Some? ==> r.value == syncConfig(services.body, endpoints.body).value
  {
    if !Fetched(services) || !Fetched(endpoints) then None
    else match syncConfig(services.body, endpoints.body)
      case Failure(_) => None
      case Success(status) => if syncIptables.Pass? then Some(status) else None
  }

  /** The snapshot a DNS sync commits, present exactly when both stages succeed. */
  function DnsCommitted(dns: Fetch<DnsList>, syncEtcHosts: SyncEtcHostsFn): (r: Option<DnsStatus>)
    ensures r.Some? <==> Fetched(dns) && syncEtcHosts(dns.body).Success?
    ensures r.Some? ==> r.value == syncEtcHosts(dns.body).value
  {
    if !Fetched(dns) then None
    else match syncEtcHosts(dns.body)
      case Failure(_) => None
      case Success(status) => Some(status)
  }

  /** One firing of `syncServices`: fetch services, fetch endpoints, SyncConfig,
      SyncIptables, each aborting the firing on failure; only after the commit
      stage succeeds are the snapshot and the flag written. */
  function SyncServicesStep(c: Cache, services: Fetch<ServiceList>, endpoints: Fetch<EndpointList>,
                            syncConfig: SyncConfigFn, syncIptables: Outcome<ControllerError>): (r: StepResult)
    // the DNS half of the cache is never read or written
    ensures r.cache.dnsStatus == c.dnsStatus && r.cache.dnsNeedSend == c.dnsNeedSend
    // commit exactly when all four stages succeed, with this firing's SyncConfig result
    ensures ServicesCommitted(services, endpoints, syncConfig, syncIptables).Some? ==>
              r.cache.servicesStatus == syncConfig(services.body, endpoints.body).value && r.cache.serviceNeedSend
    ensures ServicesCommitted(services, endpoints, syncConfig, syncIptables).None? ==> r.cache == c
    // fail fast: the stages run in pipeline order, each only if every earlier one succeeded
    ensures r.stages <= [GetServices, GetEndpoints, SyncConfig, SyncIptables] && GetServices in r.stages
    ensures GetEndpoints in r.stages <==> Fetched(services)
    ensures SyncConfig in r.stages <==> Fetched(services) && Fetched(endpoints)
    ensures SyncIptables in r.stages <==>
              Fetched(services) && Fetched(endpoints) && syncConfig(services.body, endpoints.body).Success?
  {
    if !Fetched(services) then
      StepResult(c, [GetServices])
    else if !Fetched(endpoints) then
      StepResult(c, [GetServices, GetEndpoints])
    else
      match syncConfig(services.body, endpoints.body)
      case Failure(_) =>
        StepResult(c, [GetServices, GetEndpoints, SyncConfig])
      case Success(newService) =>
        var stages := [GetServices, GetEndpoints, SyncConfig, SyncIptables];
        if syncIptables.Fail? then StepResult(c, stages)
        else StepResult(c.(servicesStatus := newService, serviceNeedSend := true), stages)
  }

  /** One firing of `syncDns`: fetch the DNS records, then SyncEtcHosts; only if
      both succeed are the DNS snapshot and flag written. */
  function SyncDnsStep(c: Cache, dns: Fetch<DnsList>, syncEtcHosts: SyncEtcHostsFn): (r: StepResult)
    // the service half of the cache is never read or written
    ensures r.cache.servicesStatus == c.servicesStatus && r.cache.serviceNeedSend == c.serviceNeedSend
    ensures DnsCommitted(dns, syncEtcHosts).Some? ==>
              r.cache.dnsStatus == syncEtcHosts(dns.body).value && r.cache.dnsNeedSend
    ensures DnsCommitted(dns, syncEtcHosts).None? ==> r.cache == c
    ensures r.stages <= [GetDns, SyncEtcHosts] && GetDns in r.stages
    ensures SyncEtcHosts in r.stages <==> Fetched(dns)
  {
    if !Fetched(dns) then
      StepResult(c, [GetDns])
    else
      match syncEtcHosts(dns.body)
      case Failure(_) => StepResult(c, [GetDns, SyncEtcHosts])
      case Success(newDnsStatus) =>
        StepResult(c.(dnsStatus := newDnsStatus, dnsNeedSend := true), [GetDns, SyncEtcHosts])
  }

  /** Repeating a service sync with the same outcomes changes nothing more: the
      snapshot stays the last SyncConfig result and the flag stays raised. */
  lemma SyncServicesIdempotent(c: Cache, services: Fetch<ServiceList>, endpoints: Fetch<EndpointList>,
                               syncConfig: SyncConfigFn, syncIptables: Outcome<ControllerError>)
    ensures var once := SyncServicesStep(c, services, endpoints, syncConfig, syncIptables);
            var twice := SyncServicesStep(once.cache, services, endpoints, syncConfig, syncIptables);
            twice.cache == once.cache && twice.stages == once.stages
  {
  }

  /** Repeating a DNS sync with the same outcomes changes nothing more. */
  lemma SyncDnsIdempotent(c: Cache, dns: Fetch<DnsList>, syncEtcHosts: SyncEtcHostsFn)
    ensures var once := SyncDnsStep(c, dns, syncEtcHosts);
            SyncDnsStep(once.cache, dns, syncEtcHosts).cache == once.cache
  {
  }

  /** The two syncs are independent: running them in either order gives the same
      cache, so a failing DNS sync never stops a service sync from committing. */
  lemma SyncsCommute(c: Cache, services: Fetch<ServiceList>, endpoints: Fetch<EndpointList>,
                     syncConfig: SyncConfigFn, syncIptables: Outcome<ControllerError>,
                     dns: Fetch<DnsList>, syncEtcHosts: SyncEtcHostsFn)
    ensures var servicesFirst := SyncServicesStep(c, services, endpoints, syncConfig, syncIptables).cache;
            var dnsFirst := SyncDnsStep(c, dns, syncEtcHosts).cache;
            SyncDnsStep(servicesFirst, dns, syncEtcHosts).cache
              == SyncServicesStep(dnsFirst, services, endpoints, syncConfig, syncIptables).cache
  {
  }

  /** One firing of any of the three periodic actions, with its collaborator outcomes. */
  datatype Firing =
    | ServicesTick(services: Fetch<ServiceList>, endpoints: Fetch<EndpointList>,
                   syncConfig: SyncConfigFn, syncIptables: Outcome<ControllerError>)
    | DnsTick(dns: Fetch<DnsList>, syncEtcHosts: SyncEtcHostsFn)
    | ReportTick

  /** The snapshots a firing commits, if any. */
  function ServicesCommit(f: Firing): Option<ServicesStatus>
  {
    if f.ServicesTick? then ServicesCommitted(f.services, f.endpoints, f.syncConfig, f.syncIptables) else None
  }

  function DnsCommit(f: Firing): Option<DnsStatus>
  {
    if f.DnsTick? then DnsCommitted(f.dns, f.syncEtcHosts) else None
  }

  /** The cache after one firing; the report firing leaves it as it is. */
  function Fire(c: Cache, f: Firing): (r: Cache)
    ensures ServicesCommit(f).Some? ==> r.servicesStatus == ServicesCommit(f).value && r.serviceNeedSend
    ensures ServicesCommit(f).None? ==> r.servicesStatus == c.servicesStatus && r.serviceNeedSend == c.serviceNeedSend
    ensures DnsCommit(f).Some? ==> r.dnsStatus == DnsCommit(f).value && r.dnsNeedSend
    ensures DnsCommit(f).None? ==> r.dnsStatus == c.dnsStatus && r.dnsNeedSend == c.dnsNeedSend
  {
    match f
    case ServicesTick(services, endpoints, syncConfig, syncIptables) =>
      SyncServicesStep(c, services, endpoints, syncConfig, syncIptables).cache
    case DnsTick(dns, syncEtcHosts) =>
      SyncDnsStep(c, dns, syncEtcHosts).cache
    case ReportTick =>
      c
  }

  /** The cache after a sequence of firings, each one atomic, in any interleaving
      the three pollers produce. */
  function RunFirings(c: Cache, fs: seq<Firing>): Cache
    decreases |fs|
  {
    if fs == [] then c else Fire(RunFirings(c, fs[..|fs| - 1]), fs[|fs| - 1])
  }

  /** The index of the last firing that committed a services snapshot, or -1. */
  function LastServicesCommit(fs: seq<Firing>): (i: int)
    ensures -1 <= i < |fs|
    ensures i >= 0 ==> ServicesCommit(fs[i]).Some?
    ensures forall j :: i < j < |fs| ==> ServicesCommit(fs[j]).None?
    decreases |fs|
  {
    if fs == [] then -1
    else if ServicesCommit(fs[|fs| - 1]).Some? then |fs| - 1
    else LastServicesCommit(fs[..|fs| - 1])
  }

  /** The index of the last firing that committed a DNS snapshot, or -1. */
  function LastDnsCommit(fs: seq<Firing>): (i: int)
    ensures -1 <= i < |fs|
    ensures i >= 0 ==> DnsCommit(fs[i]).Some?
    ensures forall j :: i < j < |fs| ==> DnsCommit(fs[j]).None?
    decreases |fs|
  {
    if fs == [] then -1
    else if DnsCommit(fs[|fs| - 1]).Some? then |fs| - 1
    else LastDnsCommit(fs[..|fs| - 1])
  }

  /** After any run, the cached services snapshot is the one committed by the
      last committing service sync (a snapshot whose commit stage failed is
      never cached), and the flag is raised exactly when some firing committed
      or it was raised already. */
  lemma {:induction false} ServicesCacheIsLastCommit(c: Cache, fs: seq<Firing>)
    ensures var i := LastServicesCommit(fs);
            && RunFirings(c, fs).servicesStatus == (if i >= 0 then ServicesCommit(fs[i]).value else c.servicesStatus)
            && RunFirings(c, fs).serviceNeedSend == (c.serviceNeedSend || i >= 0)
    decreases |fs|
  {
    if fs != [] {
      ServicesCacheIsLastCommit(c, fs[..|fs| - 1]);
    }
  }

  /** The same for the DNS snapshot and flag. */
  lemma {:induction false} DnsCacheIsLastCommit(c: Cache, fs: seq<Firing>)
    ensures var i := LastDnsCommit(fs);
            && RunFirings(c, fs).dnsStatus == (if i >= 0 then DnsCommit(fs[i]).value else c.dnsStatus)
            && RunFirings(c, fs).dnsNeedSend == (c.dnsNeedSend || i >= 0)
    decreases |fs|
  {
    if fs != [] {
      DnsCacheIsLastCommit(c, fs[..|fs| - 1]);
    }
  }

  /** No code path clears a dirty flag: once raised after some prefix of a run,
      it is still raised at the end. */
  lemma {:induction false} FlagsNeverCleared(c: Cache, fs: seq<Firing>, k: nat)
    requires k <= |fs|
    ensures RunFirings(c, fs[..k]).serviceNeedSend ==> RunFirings(c, fs).serviceNeedSend
    ensures RunFirings(c, fs[..k]).dnsNeedSend ==> RunFirings(c, fs).dnsNeedSend
    decreases |fs| - k
  {
    if k < |fs| {
      FlagsNeverCleared(c, fs, k + 1);
      assert fs[..k + 1][..k] == fs[..k];
    } else {
      assert fs[..k] == fs;
    }
  }

  /** From a fresh agent, a dirty flag is raised exactly when some firing of
      its sync committed a snapshot. */
  lemma FreshFlagsRecordCommits(fs: seq<Firing>)
    ensures RunFirings(INITIAL_CACHE, fs).serviceNeedSend <==> exists i :: 0 <= i < |fs| && ServicesCommit(fs[i]).Some?
    ensures RunFirings(INITIAL_CACHE, fs).dnsNeedSend <==> exists i :: 0 <= i < |fs| && DnsCommit(fs[i]).Some?
  {
    ServicesCacheIsLastCommit(INITIAL_CACHE, fs);
    DnsCacheIsLastCommit(INITIAL_CACHE, fs);
  }

  /** What the report firing would forward: each snapshot whose flag is raised.
      Forwarding itself is not implemented in the agent. */
  datatype PendingReport = PendingReport(services: Option<ServicesStatus>, dns: Option<DnsStatus>)

  /** The proxy agent object: the cached snapshots, the two dirty flags (package
      variables in the agent, one agent per process) and the stages invoked so far. */
  class KubeProxy {
    var servicesStatus: ServicesStatus
    var dnsStatus: DnsStatus
    var serviceNeedSend: bool
    var dnsNeedSend: bool
    var stages: seq<Stage>

    function Snapshot(): Cache
      reads this
    {
      Cache(servicesStatus, dnsStatus, serviceNeedSend, dnsNeedSend)
    }

    /** `NewKubeProxy`: empty snapshots, flags at their initial false. */
    constructor ()
      ensures Snapshot() == INITIAL_CACHE && stages == []
    {
      servicesStatus := EMPTY_SERVICES_STATUS;
      dnsStatus := EMPTY_DNS_STATUS;
      serviceNeedSend := false;
      dnsNeedSend := false;
      stages := [];
    }

    method SyncDns(dns: Fetch<DnsList>, syncEtcHosts: SyncEtcHostsFn)
      modifies this
      ensures var r := SyncDnsStep(old(Snapshot()), dns, syncEtcHosts);
              Snapshot() == r.cache && stages == old(stages) + r.stages
    {
      stages := stages + [GetDns];
      if dns.status != STATUS_OK || dns.failed {
        return;
      }
      stages := stages + [SyncEtcHosts];
      var newDnsStatus := syncEtcHosts(dns.body);
      if newDnsStatus.Failure? {
        return;
      }
      // one atomic step under the mutex
      dnsStatus := newDnsStatus.value;
      dnsNeedSend := true;
    }

    method SyncServices(services: Fetch<ServiceList>, endpoints: Fetch<EndpointList>,
                        syncConfig: SyncConfigFn, syncIptables: Outcome<ControllerError>)
      modifies this
      ensures var r := SyncServicesStep(old(Snapshot()), services, endpoints, syncConfig, syncIptables);
              Snapshot() == r.cache && stages == old(stages) + r.stages
    {
      stages := stages + [GetServices];
      if services.status != STATUS_OK || services.failed {
        return;
      }
      stages := stages + [GetEndpoints];
      if endpoints.status != STATUS_OK || endpoints.failed {
        return;
      }
      stages := stages + [SyncConfig];
      var newService := syncConfig(services.body, endpoints.body);
      if newService.Failure? {
        return;
      }
      stages := stages + [SyncIptables];
      if syncIptables.Fail? {
        return;
      }
      // one atomic step under the mutex
      servicesStatus := newService.value;
      serviceNeedSend := true;
    }

    /** `syncServicesAndDnsToKubelet`: the branches it enters are those whose flag
        is raised. Both branches are placeholders that forward nothing, so
        `pending` only records which snapshots a branch was entered for. The
        method has no `modifies` clause: it changes no field, so both snapshots
        and both flags (a raised flag stays raised) are as before the call. */
    method SyncServicesAndDnsToKubelet() returns (pending: PendingReport)
      ensures pending.services == (if serviceNeedSend then Some(servicesStatus) else None)
      ensures pending.dns == (if dnsNeedSend then Some(dnsStatus) else None)
    {
      pending := PendingReport(None, None);
      if serviceNeedSend || dnsNeedSend {
        if dnsNeedSend {
          pending := pending.(dns := Some(dnsStatus));
        }
        if serviceNeedSend {
          pending := pending.(services := Some(servicesStatus));
        }
      }
    }
  }
}
