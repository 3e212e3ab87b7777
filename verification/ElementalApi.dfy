/** internal/api: the PATCH and DELETE endpoints of an ElementalHost and the values they exchange. */
module ElementalApi {
  import opened Common
  import opened Objects
  import opened Patches
  import opened Store

  datatype HostPatchRequest = HostPatchRequest(
    annotations: map<string, string>,
    labels: Labels,
    bootstrapped: Option<bool>,
    installed: Option<bool>,
    reset: Option<bool>,
    inPlaceUpdate: Option<string>,
    condition: Option<(ConditionType, Condition)>,
    phase: Option<HostPhase>)

  const EMPTY_PATCH := HostPatchRequest(map[], map[], None, None, None, None, None, None)

  datatype HostResponse = HostResponse(
    labels: Labels,
    bootstrapReady: bool,
    bootstrapped: bool,
    installed: bool,
    needsReset: bool,
    inPlaceUpgrade: string,
    osVersion: OsVersion)

  datatype Reply = NotFound | Denied | BadRequest | InternalError | Accepted | Ok(response: HostResponse)

  function WithLabel(labels: Labels, write: bool, key: LabelKey, value: string): Labels {
    if write then labels[key := value] else labels
  }

  /** A flag counts as soon as it is present, whatever its value. */
  function AppliedLabels(labels: Labels, p: HostPatchRequest): Labels {
    var l0 := labels + p.labels;
    var l1 := WithLabel(l0, p.installed.Some?, Installed, TRUE);
    var l2 := WithLabel(l1, p.bootstrapped.Some?, Bootstrapped, TRUE);
    var l3 := WithLabel(l2, p.reset.Some?, Reset, TRUE);
    if p.inPlaceUpdate.Some? then l3[InPlaceUpdate := p.inPlaceUpdate.value] else l3
  }

  function Applied(h: Host, p: HostPatchRequest): Host {
    h.(annotations := h.annotations + p.annotations,
       labels := AppliedLabels(h.labels, p),
       conditions := if p.condition.Some? then h.conditions[p.condition.value.0 := p.condition.value.1]
         else h.conditions,
       phase := if p.phase.Some? then p.phase.value else h.phase)
  }

  /** What a request makes of a host, entry by entry: every flag that is present becomes "true", whatever its value;
      labels, annotations, condition and phase of the request replace those of the host; nothing else changes. */
  ghost predicate PatchedAs(h: Host, p: HostPatchRequest, after: Host) {
    && (forall k :: Get(after.labels, k) ==
                      if k == Installed && p.installed.Some? then Some("true")
                      else if k == Bootstrapped && p.bootstrapped.Some? then Some("true")
                      else if k == Reset && p.reset.Some? then Some("true")
                      else if k == InPlaceUpdate && p.inPlaceUpdate.Some? then p.inPlaceUpdate
                      else if k in p.labels then Some(p.labels[k])
                      else Get(h.labels, k))
    && (forall a :: Get(after.annotations, a) ==
                      if a in p.annotations then Some(p.annotations[a]) else Get(h.annotations, a))
    && (forall t :: Get(after.conditions, t) ==
                      if p.condition.Some? && p.condition.value.0 == t then Some(p.condition.value.1)
                      else Get(h.conditions, t))
    && after.phase == (if p.phase.Some? then p.phase.value else h.phase)
    && after.finalizers == h.finalizers && after.deleting == h.deleting && after.machineRef == h.machineRef
    && after.bootstrapSecret == h.bootstrapSecret && after.osVersion == h.osVersion
  }

  lemma PatchOutcome(h: Host, p: HostPatchRequest)
    ensures PatchedAs(h, p, Applied(h, p))
  {
  }

  method ApplyToElementalHost(p: HostPatchRequest, host: HostObject)
    modifies host
    ensures host.Value() == Applied(old(host.Value()), p)
    ensures PatchedAs(old(host.Value()), p, host.Value())
  {
    PatchOutcome(host.Value(), p);
    host.annotations := host.annotations + p.annotations;
    host.labels := host.labels + p.labels;
    if p.installed.Some? {
      host.SetLabel(Installed, TRUE);
    }
    if p.bootstrapped.Some? {
      host.SetLabel(Bootstrapped, TRUE);
    }
    if p.reset.Some? {
      host.SetLabel(Reset, TRUE);
    }
    if p.inPlaceUpdate.Some? {
      host.SetLabel(InPlaceUpdate, p.inPlaceUpdate.value);
    }
    assert host.labels == AppliedLabels(old(host.labels), p);
    if p.condition.Some? {
      host.SetCondition(p.condition.value.0, p.condition.value.1.status, p.condition.value.1.reason);
    }
    if p.phase.Some? {
      host.phase := p.phase.value;
    }
    assert host.Value() == Applied(old(host.Value()), p);
  }

  /** A stored host without labels reads back with a nil label map, and the response then stops early. */
  function FromElementalHost(h: Host): HostResponse {
    var bootstrapReady := h.bootstrapSecret.Some?;
    if h.labels == map[] then
      HostResponse(h.labels, bootstrapReady, false, false, false, "", map[])
    else
      HostResponse(
        h.labels, bootstrapReady,
        IsTrue(h.labels, Bootstrapped), IsTrue(h.labels, Installed), IsTrue(h.labels, NeedsReset),
        if InPlaceUpdate in h.labels then h.labels[InPlaceUpdate] else "",
        h.osVersion)
  }

  /** The validation of a PATCH against the fetched host. */
  predicate Admissible(h: Host, p: HostPatchRequest) {
    p.bootstrapped.Some? && p.bootstrapped.value ==> h.bootstrapSecret.Some?
  }

  /** What the environment answers to one request. */
  datatype RequestEnv = RequestEnv(registration: Lookup<()>, authorised: bool, getFails: bool, writeFails: bool,
                                   rereadFails: bool)

  /** The host named by a request was fetched for an agent that may change it. */
  predicate Granted(hosts: map<Key, Host>, hk: Key, env: RequestEnv) {
    env.registration.Found? && !env.getFails && hk in hosts && env.authorised
  }

  function PatchedStore(hosts: map<Key, Host>, hk: Key, p: HostPatchRequest, env: RequestEnv): map<Key, Host> {
    if Granted(hosts, hk, env) && Admissible(hosts[hk], p) && !env.writeFails
      then PutHost(hosts, hk, Applied(hosts[hk], p))
    else hosts
  }

  /** The patch was stored, the host survived it, and it could be read again. */
  predicate PatchSucceeds(hosts: map<Key, Host>, hk: Key, p: HostPatchRequest, env: RequestEnv) {
    Granted(hosts, hk, env) && Admissible(hosts[hk], p) && !env.writeFails && !env.rereadFails
    && hk in PatchedStore(hosts, hk, p, env)
  }

  lemma PatchIsStored(hosts: map<Key, Host>, hk: Key, p: HostPatchRequest)
    requires hk in hosts
    ensures var after := PatchedHosts(hosts, hk, hosts[hk], Applied(hosts[hk], p));
            && after == PutHost(hosts, hk, Applied(hosts[hk], p))
            && (hk in after ==> PatchedAs(hosts[hk], p, after[hk]))
  {
    HostRoundTrip(hosts[hk], Applied(hosts[hk], p));
    PatchOutcome(hosts[hk], p);
  }

  /** PATCH .../hosts/{hostName} */
  method PatchElementalHost(client: Client, hk: Key, p: HostPatchRequest, env: RequestEnv) returns (reply: Reply)
    modifies client
    ensures client.machines == old(client.machines)
    ensures client.hosts == PatchedStore(old(client.hosts), hk, p, env)
    ensures forall k :: k != hk ==> Get(client.hosts, k) == Get(old(client.hosts), k)
    ensures reply.Ok? <==> PatchSucceeds(old(client.hosts), hk, p, env)
    ensures reply.Ok? ==>
              && hk in old(client.hosts) && hk in client.hosts
              && PatchedAs(old(client.hosts)[hk], p, client.hosts[hk])
              && reply.response == FromElementalHost(client.hosts[hk])
    ensures reply.Denied? <==> env.registration.Found? && !env.getFails && hk in old(client.hosts) && !env.authorised
    ensures reply.BadRequest? <==>
              && env.registration.Found? && !env.getFails && hk in old(client.hosts) && env.authorised
              && p.bootstrapped == Some(true) && old(client.hosts)[hk].bootstrapSecret.None?
    ensures reply.NotFound? <==>
              || env.registration.Missing?
              || (env.registration.Found? && !env.getFails && hk !in old(client.hosts))
              || (client.hosts != old(client.hosts) && !env.rereadFails && hk !in client.hosts)
    ensures reply.InternalError? <==>
              || env.registration.Failed? || (env.registration.Found? && env.getFails)
              || (&& env.registration.Found? && hk in old(client.hosts) && env.authorised
                  && !(p.bootstrapped == Some(true) && old(client.hosts)[hk].bootstrapSecret.None?)
                  && (env.writeFails || env.rereadFails))
    ensures !reply.Accepted?
  {
    if env.registration.Missing? {
      return NotFound;
    }
    if env.registration.Failed? {
      return InternalError;
    }
    var found := client.GetHost(hk, env.getFails);
    if found.Missing? {
      return NotFound;
    }
    if found.Failed? {
      return InternalError;
    }
    var host := found.value;
    if !env.authorised {
      return Denied;
    }
    if p.bootstrapped.Some? && p.bootstrapped.value && host.bootstrapSecret.None? {
      return BadRequest;
    }
    var before := host.Value();
    ApplyToElementalHost(p, host);
    var written := client.PatchHost(hk, before, host.Value(), env.writeFails);
    if !written {
      return InternalError;
    }
    PatchIsStored(old(client.hosts), hk, p);
    var reread := client.GetHost(hk, env.rereadFails);
    if reread.Missing? {
      return NotFound;
    }
    if reread.Failed? {
      return InternalError;
    }
    reply := Ok(FromElementalHost(reread.value.Value()));
  }

  function DeletedStore(hosts: map<Key, Host>, hk: Key, env: RequestEnv): map<Key, Host> {
    if Granted(hosts, hk, env) && !hosts[hk].deleting && !env.writeFails
      then PutHost(hosts, hk, hosts[hk].(deleting := true))
    else hosts
  }

  predicate DeleteSucceeds(hosts: map<Key, Host>, hk: Key, env: RequestEnv) {
    Granted(hosts, hk, env) && (hosts[hk].deleting || !env.writeFails)
  }

  /** DELETE .../hosts/{hostName} */
  method DeleteElementalHost(client: Client, hk: Key, env: RequestEnv) returns (reply: Reply)
    modifies client
    ensures client.machines == old(client.machines)
    ensures client.hosts == DeletedStore(old(client.hosts), hk, env)
    ensures forall k :: k != hk ==> Get(client.hosts, k) == Get(old(client.hosts), k)
    ensures reply.Accepted? <==> DeleteSucceeds(old(client.hosts), hk, env)
    ensures reply.InternalError? <==>
              || env.registration.Failed? || (env.registration.Found? && env.getFails)
              || (&& env.registration.Found? && hk in old(client.hosts) && env.authorised
                  && !old(client.hosts)[hk].deleting && env.writeFails)
    ensures reply.Accepted? ==>
              && (hk in client.hosts ==> client.hosts[hk] == old(client.hosts)[hk].(deleting := true))
              && (hk !in client.hosts <==> !old(client.hosts)[hk].deleting && old(client.hosts)[hk].finalizers == {})
    ensures !reply.Accepted? ==> client.hosts == old(client.hosts)
    ensures reply.Denied? <==> env.registration.Found? && !env.getFails && hk in old(client.hosts) && !env.authorised
    ensures reply.NotFound? <==>
              env.registration.Missing? || (env.registration.Found? && !env.getFails && hk !in old(client.hosts))
    ensures !reply.BadRequest? && !reply.Ok?
  {
    if env.registration.Missing? {
      return NotFound;
    }
    if env.registration.Failed? {
      return InternalError;
    }
    var found := client.GetHost(hk, env.getFails);
    if found.Missing? {
      return NotFound;
    }
    if found.Failed? {
      return InternalError;
    }
    if !env.authorised {
      return Denied;
    }
    if found.value.deleting {
      return Accepted;
    }
    var deleted := client.DeleteHost(hk, env.writeFails);
    reply := if deleted then Accepted else InternalError;
  }

  /** What a request writes to one label: its flags win over its free-form labels, and these over the host's own. */
  function Written(p: HostPatchRequest, k: LabelKey): Option<string> {
    match k
    case Installed => if p.installed.Some? then Some(TRUE) else Get(p.labels, k)
    case Bootstrapped => if p.bootstrapped.Some? then Some(TRUE) else Get(p.labels, k)
    case Reset => if p.reset.Some? then Some(TRUE) else Get(p.labels, k)
    case InPlaceUpdate => if p.inPlaceUpdate.Some? then p.inPlaceUpdate else Get(p.labels, k)
    case _ => Get(p.labels, k)
  }

  lemma AppliedLabel(labels: Labels, p: HostPatchRequest, k: LabelKey)
    ensures Get(AppliedLabels(labels, p), k) == if Written(p, k).Some? then Written(p, k) else Get(labels, k)
  {
    var l0 := labels + p.labels;
    assert Get(l0, k) == if k in p.labels then Get(p.labels, k) else Get(labels, k);
  }

  /** Sending the same PATCH twice stores the same host as sending it once. */
  lemma PatchIsIdempotent(h: Host, p: HostPatchRequest)
    ensures Applied(Applied(h, p), p) == Applied(h, p)
  {
    var once := Applied(h, p);
    assert once.annotations + p.annotations == once.annotations;
    forall k ensures Get(AppliedLabels(once.labels, p), k) == Get(once.labels, k) {
      AppliedLabel(h.labels, p, k);
      AppliedLabel(once.labels, p, k);
    }
    SameEntries(AppliedLabels(once.labels, p), once.labels);
  }

  /** What a label of the patched host says: what the request writes to it, or else what the host had. */
  function AfterPatch(h: Host, p: HostPatchRequest, k: LabelKey): Option<string> {
    if Written(p, k).Some? then Written(p, k) else Get(h.labels, k)
  }

  /** The reply to a PATCH shows every flag it set, and no flag that neither it nor the host carried, for every
      request. */
  lemma ResponseReflectsFlags(h: Host, p: HostPatchRequest)
    ensures var r := FromElementalHost(Applied(h, p));
            && (r.installed <==> AfterPatch(h, p, Installed) == Some(TRUE))
            && (r.bootstrapped <==> AfterPatch(h, p, Bootstrapped) == Some(TRUE))
            && (r.needsReset <==> AfterPatch(h, p, NeedsReset) == Some(TRUE))
            && (r.bootstrapReady <==> h.bootstrapSecret.Some?)
            && (p.inPlaceUpdate.Some? ==> r.inPlaceUpgrade == p.inPlaceUpdate.value)
            && (p.installed.Some? ==> r.installed) && (p.bootstrapped.Some? ==> r.bootstrapped)
    ensures p.labels.Keys !! RESERVED ==>
              var r := FromElementalHost(Applied(h, p));
              && (r.installed <==> p.installed.Some? || IsTrue(h.labels, Installed))
              && (r.bootstrapped <==> p.bootstrapped.Some? || IsTrue(h.labels, Bootstrapped))
              && (r.needsReset <==> IsTrue(h.labels, NeedsReset))
  {
    var patched := Applied(h, p);
    ResponseFlags(patched);
    AppliedLabel(h.labels, p, Installed);
    AppliedLabel(h.labels, p, Bootstrapped);
    AppliedLabel(h.labels, p, NeedsReset);
    AppliedLabel(h.labels, p, InPlaceUpdate);
    if p.labels.Keys !! RESERVED {
      assert Installed !in p.labels && Bootstrapped !in p.labels && NeedsReset !in p.labels;
    }
  }

  /** The response, field by field; the early return on a host without labels hides nothing but its OS version. */
  lemma ResponseFlags(h: Host)
    ensures var r := FromElementalHost(h);
            && r.labels == h.labels
            && r.bootstrapReady == h.bootstrapSecret.Some?
            && r.installed == (Get(h.labels, Installed) == Some("true"))
            && r.bootstrapped == (Get(h.labels, Bootstrapped) == Some("true"))
            && r.needsReset == (Get(h.labels, NeedsReset) == Some("true"))
            && r.inPlaceUpgrade == (if InPlaceUpdate in h.labels then h.labels[InPlaceUpdate] else "")
            && r.osVersion == (if h.labels == map[] then map[] else h.osVersion)
  {
  }

  /** The response carries the host's OS version instructions exactly when it has a label or there is nothing to
      carry. */
  lemma ResponseOsVersion(h: Host)
    ensures FromElementalHost(h).osVersion == h.osVersion <==> h.labels != map[] || h.osVersion == map[]
  {
  }

  /** Only a host with a bootstrap secret may be labelled as bootstrapped. */
  predicate BootstrapGuarded(h: Host) {
    IsTrue(h.labels, Bootstrapped) ==> h.bootstrapSecret.Some?
  }

  /** A request passes the validation and still labels a host without secret as bootstrapped exactly when
      it carries the flag with value false, or the label itself among its free-form labels. */
  lemma WhenPatchKeepsBootstrapGuarded(h: Host, p: HostPatchRequest)
    requires BootstrapGuarded(h) && Admissible(h, p)
    ensures BootstrapGuarded(Applied(h, p)) <==>
              h.bootstrapSecret.Some? || (p.bootstrapped.None? && !IsTrue(p.labels, Bootstrapped))
  {
    AppliedLabel(h.labels, p, Bootstrapped);
    if p.bootstrapped.Some? {
      assert IsTrue(Applied(h, p).labels, Bootstrapped);
    } else {
      assert Written(p, Bootstrapped) == Get(p.labels, Bootstrapped);
      assert IsTrue(Applied(h, p).labels, Bootstrapped) <==>
          if Bootstrapped in p.labels then IsTrue(p.labels, Bootstrapped) else IsTrue(h.labels, Bootstrapped);
    }
  }

  /** The validation alone does not keep the guard: the flag `false` is admitted and sets the label to "true". */
  lemma BootstrapGuardCanFail()
    ensures exists h: Host, p: HostPatchRequest ::
              BootstrapGuarded(h) && Admissible(h, p) && !BootstrapGuarded(Applied(h, p))
  {
    var h := Host(map[], map[], {}, false, None, None, map[], map[], NoPhase);
    var p := EMPTY_PATCH.(bootstrapped := Some(false));
    assert BootstrapGuarded(h) && Admissible(h, p) && !BootstrapGuarded(Applied(h, p));
  }
}
