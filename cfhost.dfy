/**
 The CFHost resolution engine: a host object with its information map and
 its at-most-one pending lookup, and the process-wide resolver state shared
 by all hosts (the registry of master lookups and the cache of resolved
 names).

 The platform resolver is an input: starting a query yields a StartOutcome
 and a completion delivers a GaiResult or a getnameinfo status. Client
 callbacks are not invoked; a completion returns the Callout it would make
 once the host lock is released. Time is an integer number of milliseconds.
 */
module CFHost {
  import opened HostTypes
  import NetDb
  import DeepCopy
  import HostCache
  import Schedules
  import Registry

  /** Where a host's pending lookup came from. */
  datatype Origin =
    | PlatformQuery   // a query started on the platform resolver
    | CachedAnswer    // a source signalled at once with addresses from the cache
    | MasterClient    // a source waiting on a shared master lookup
    | Cancellation    // the source CFHostCancelInfoResolution installs

  /** A lookup object (a run-loop source, file descriptor or port in the source). */
  class Lookup {
    const origin: Origin

    constructor (origin: Origin)
      ensures this.origin == origin
    {
      this.origin := origin;
    }
  }

  /** What CFHostStartInfoResolution did: failed, started asynchronously, or must block. */
  datatype StartResult = NotStarted | StartedAsync | MustBlock

  /** Recursion rank of an information type: only an address lookup can start a nested one. */
  function Rank(t: InfoType): nat {
    if t == Addresses then 1 else 0
  }

  /** The first name of a host, if it has a non-empty list of names. */
  function FirstName(info: map<InfoType, InfoValue>): Option<string> {
    if Names in info && info[Names].NameList? && |info[Names].names| > 0
    then Some(info[Names].names[0]) else None
  }

  /** The first address of a host, if it has a non-empty list of addresses. */
  function FirstAddress(info: map<InfoType, InfoValue>): Option<Data> {
    if Addresses in info && info[Addresses].AddressList? && |info[Addresses].addrs| > 0
    then Some(info[Addresses].addrs[0]) else None
  }

  /**
   CFHostGetInfo: the value stored under t, absent when nothing is stored or
   the lookup produced no data, and whether a lookup of t has completed.
   */
  function GetInfo(info: map<InfoType, InfoValue>, t: InfoType): (r: (Option<InfoValue>, bool))
    ensures r.1 <==> t in info
    ensures r.0.Some? <==> t in info && info[t] != Resolved
    ensures r.0.Some? ==> r.0.value == info[t]
  {
    if t !in info then (None, false)
    else if info[t] == Resolved then (None, true)
    else (Some(info[t]), true)
  }

  /**
   Whether _CreateLookup_NoLock asks the platform resolver for type t
   (types other than Addresses and Reachability).
   */
  predicate AsksPlatform(t: InfoType, info: map<InfoType, InfoValue>) {
    if t == Names then FirstAddress(info).Some?
    else t != Addresses && t != Reachability && (FirstName(info).Some? || FirstAddress(info).Some?)
  }

  /** The host error after asking the platform: the start error, or the old error. */
  function StartError(platform: StartOutcome, old_error: StreamError): StreamError {
    if platform.StartFailed? then platform.error else old_error
  }

  /**
   The information map after a cache hit, as written: CFDictionaryAddValue
   does not replace an existing value, so a host that already holds an
   Addresses value keeps it.
   */
  function CacheHitInfoAsWritten(info: map<InfoType, InfoValue>, addrs: seq<Data>): map<InfoType, InfoValue> {
    if Addresses in info then info else info[Addresses := AddressList(addrs)]
  }

  /** The information map after a cache hit: the cached addresses replace any old value. */
  function CacheHitInfo(info: map<InfoType, InfoValue>, addrs: seq<Data>): (r: map<InfoType, InfoValue>)
    ensures GetInfo(r, Addresses) == (Some(AddressList(addrs)), true)
    ensures forall t :: t != Addresses ==> GetInfo(r, t) == GetInfo(info, t)
  {
    info[Addresses := AddressList(addrs)]
  }

  /**
   As written, a host whose earlier address lookup failed (Addresses holds
   the "resolved, no data" marker) still reports no addresses after a
   successful cache hit.
   */
  lemma CacheHitKeepsFailureAsWritten(info: map<InfoType, InfoValue>, addrs: seq<Data>)
    requires Addresses in info && info[Addresses] == Resolved
    ensures GetInfo(CacheHitInfoAsWritten(info, addrs), Addresses) == (None, true)
    ensures GetInfo(CacheHitInfo(info, addrs), Addresses) == (Some(AddressList(addrs)), true)
  {
  }

  /**
   The result rule of _HostBlockUntilComplete, as written: once the lookup
   has cleared, a synchronous CFHostStartInfoResolution succeeds exactly when
   the host error code is 0, whichever source ended the wait.
   */
  function BlockResultAsWritten(error: StreamError): bool {
    error.code == 0
  }

  /**
   The rule the documentation of CFHostStartInfoResolution gives: a wait
   ended by CFHostCancelInfoResolution from another thread fails, and any
   other wait succeeds exactly when the host error code is 0.
   */
  function BlockResult(error: StreamError, cancelled: bool): (ok: bool)
    ensures cancelled ==> !ok
    ensures !cancelled ==> ok == BlockResultAsWritten(error)
  {
    !cancelled && error.code == 0
  }

  /**
   A forward lookup that fails makes a waiting caller fail, except for the
   EAI_SYSTEM-with-errno-0 corner; one that succeeds leaves the verdict to
   the error the host already held.
   */
  lemma ForwardLookupDecidesWait(res: GaiResult, old_error: StreamError)
    ensures res.status != 0 ==>
              (BlockResultAsWritten(GaiError(res, old_error)) <==> res.status == EAI_SYSTEM && res.errno == 0)
    ensures res.status == 0 ==> BlockResultAsWritten(GaiError(res, old_error)) == BlockResultAsWritten(old_error)
  {
    if res.status != 0 {
      NetDb.FailureIsReported(res.status, old_error, false, res.errno);
    }
  }

  /** The value a forward lookup stores under the pending type. */
  function GaiValue(res: GaiResult): InfoValue {
    if res.status != 0 then Resolved else AddressList(NetDb.SupportedAddresses(res.results))
  }

  /** The host error after a forward lookup completes. */
  function GaiError(res: GaiResult, old_error: StreamError): StreamError {
    if res.status != 0 then NetDb.HandleGetAddrInfoStatus(res.status, old_error, false, res.errno)
    else old_error
  }

  /** The callback a completion makes, if a client is registered. */
  function CalloutFor(client: Option<Client>, kind: InfoType, error: StreamError): Option<Callout> {
    match client
    case None => None
    case Some(c) => Some(Callout(c.callback, kind, error, c.context))
  }

  /**
   The value a master completion hands each client: the "resolved, no data"
   marker on error, otherwise the master's addresses (the marker when the
   master holds none).
   */
  function Delivered(err: StreamError, masterAddrs: Option<InfoValue>): InfoValue {
    if err.code != 0 then Resolved
    else match masterAddrs
      case Some(v) => v
      case None => Resolved
  }

  /** The addresses a cache entry made from the master's value holds. */
  function AddressesOf(v: Option<InfoValue>): seq<Data> {
    if v.Some? && v.value.AddressList? then v.value.addrs else []
  }

  /**
   The registry after a host with this lookup, type and information gives up
   its place as a client, and the master to shut down if it was the last one.
   */
  function Unlinked(reg: Registry.Lookups<Host, Lookup>, lookup: Lookup?, kind: InfoType,
                    info: map<InfoType, InfoValue>): (Registry.Lookups<Host, Lookup>, Option<Host>)
    requires Registry.WellFormed(reg)
  {
    if lookup != null && kind == Addresses && FirstName(info).Some?
    then Registry.Unlink(reg, FirstName(info).value, lookup)
    else (reg, None)
  }

  /**
   A master whose last client left has been shut down by
   CFHostSetClient(master, NULL, NULL): no client, no pending lookup, and
   nothing else changed.
   */
  twostate predicate ShutDown(m: Host)
    reads m
  {
    && m.lookup == null && m.client == None
    && m.kind == (if old(m.lookup) != null then NullHostInfoType else old(m.kind))
    && m.info == old(m.info) && m.error == old(m.error) && m.schedules == old(m.schedules)
    && (old(m.Valid()) ==> m.Valid())
  }

  class Host {
    /** Lookup results by information type (_info). */
    var info: map<InfoType, InfoValue>
    /** The pending lookup, if any (_lookup). */
    var lookup: Lookup?
    /** The type of the pending lookup (_type); NullHostInfoType when idle. */
    var kind: InfoType
    /** The last error (_error). */
    var error: StreamError
    /** The registered callback and its context (_callback, _client). */
    var client: Option<Client>
    /** Run loops and modes the host is scheduled on (_schedules). */
    var schedules: seq<ScheduleItem>

    ghost predicate Valid()
      reads this
    {
      && Schedules.Paired(schedules)
      && (lookup != null && kind == Addresses ==> FirstName(info).Some?)
    }

    /** CFHostCreateWithName: a host knowing one name. */
    constructor CreateWithName(name: string)
      ensures Valid()
      ensures info == map[Names := NameList([name])] && FirstName(info) == Some(name)
      ensures lookup == null && kind == NullHostInfoType && error == NoError
      ensures client == None && schedules == []
    {
      info := map[Names := NameList([name])];
      lookup := null;
      kind := NullHostInfoType;
      error := NoError;
      client := None;
      schedules := [];
    }

    /** CFHostCreateWithAddress: a host knowing one address. */
    constructor CreateWithAddress(addr: Data)
      ensures Valid()
      ensures info == map[Addresses := AddressList([addr])] && FirstAddress(info) == Some(addr)
      ensures lookup == null && kind == NullHostInfoType && error == NoError
      ensures client == None && schedules == []
    {
      info := map[Addresses := AddressList([addr])];
      lookup := null;
      kind := NullHostInfoType;
      error := NoError;
      client := None;
      schedules := [];
    }

    /** CFHostCreateCopy: a fresh host with a copy of the source's information only. */
    constructor CreateCopy(source: Host)
      ensures Valid()
      ensures info == source.info
      ensures lookup == null && kind == NullHostInfoType && error == NoError
      ensures client == None && schedules == []
    {
      info := source.info;
      lookup := null;
      kind := NullHostInfoType;
      error := NoError;
      client := None;
      schedules := [];
    }

    /** The name under which this host waits on a master, if it does. */
    function PendingName(): Option<string>
      reads this
    {
      if lookup != null && kind == Addresses then FirstName(info) else None
    }

    /** The master this host waits on, if any: the only other host unlinking may touch. */
    function MasterOf(r: Resolver): set<object>
      reads this, r
    {
      var n := PendingName();
      if n.Some? && n.value in r.lookups && |r.lookups[n.value]| > 0 && r.lookups[n.value][0].MasterSlot?
      then {r.lookups[n.value][0].host} else {}
    }

    /** _HostLookupCancel_NoLock: drop the pending lookup. */
    method LookupCancel()
      modifies this
      ensures lookup == null && kind == NullHostInfoType
      ensures info == old(info) && error == old(error) && client == old(client) && schedules == old(schedules)
    {
      lookup := null;
      kind := NullHostInfoType;
    }

    /** The part of CFHostSetClient(host, NULL, NULL) that touches only the host. */
    method ClearClient()
      modifies this
      ensures client == None && lookup == null
      ensures kind == if old(lookup) != null then NullHostInfoType else old(kind)
      ensures info == old(info) && error == old(error) && schedules == old(schedules)
    {
      if lookup != null {
        LookupCancel();
      }
      client := None;
    }

    /**
     Remove this host's lookup from the list of its master; when it was the
     last client, shut the master down (CFHostSetClient(master, NULL, NULL);
     the CFHostCancelInfoResolution that follows finds no lookup).
     */
    method UnlinkFromMaster(r: Resolver)
      requires Valid() && r.Valid() && lookup != null && this !in MasterOf(r)
      modifies r, MasterOf(r)
      ensures r.Valid() && r.cache == old(r.cache)
      ensures r.lookups == Unlinked(old(r.lookups), lookup, kind, info).0
      ensures var m := Unlinked(old(r.lookups), lookup, kind, info).1;
              && (m.None? ==> unchanged(old(MasterOf(r))))
              && (m.Some? ==> m.value in old(MasterOf(r)) && ShutDown(m.value))
    {
      if kind == Addresses {
        var name := FirstName(info).value;
        Registry.UnlinkKeepsOthers(r.lookups, name, lookup);
        var (reg', collapsed) := Registry.Unlink(r.lookups, name, lookup);
        r.lookups := reg';
        if collapsed.Some? {
          collapsed.value.ClearClient();
        }
      }
    }

    /**
     CFHostSetClient. A client is recorded as given. Removing the client
     also abandons the pending lookup, unlinking it from its master.
     */
    method SetClient(c: Option<Client>, r: Resolver) returns (ok: bool)
      requires Valid() && r.Valid() && this !in MasterOf(r)
      modifies this, r, MasterOf(r)
      ensures ok && Valid() && r.Valid() && r.cache == old(r.cache)
      ensures info == old(info) && error == old(error) && schedules == old(schedules)
      ensures c.Some? ==> && client == c && lookup == old(lookup) && kind == old(kind)
                          && r.lookups == old(r.lookups) && unchanged(old(MasterOf(r)))
      ensures c.None? ==> && client == None && lookup == null
                          && kind == (if old(lookup) != null then NullHostInfoType else old(kind))
                          && r.lookups == Unlinked(old(r.lookups), old(lookup), old(kind), old(info)).0
      ensures c.None? ==> var m := Unlinked(old(r.lookups), old(lookup), old(kind), old(info)).1;
              && (m.None? ==> unchanged(old(MasterOf(r))))
              && (m.Some? ==> m.value in old(MasterOf(r)) && ShutDown(m.value))
    {
      if c.None? {
        if lookup != null {
          UnlinkFromMaster(r);
          LookupCancel();
        }
        client := None;
      } else {
        client := c;
      }
      ok := true;
    }

    /**
     CFHostCancelInfoResolution. The type argument is not consulted: any
     pending lookup is unlinked from its master and replaced by a
     cancellation source, whose firing (HostCancel) reports to the client
     with the type and error the host holds.
     */
    method CancelInfoResolution(t: InfoType, r: Resolver)
      requires Valid() && r.Valid() && this !in MasterOf(r)
      modifies this, r, MasterOf(r)
      ensures Valid() && r.Valid() && r.cache == old(r.cache)
      ensures kind == old(kind) && info == old(info) && error == old(error)
      ensures client == old(client) && schedules == old(schedules)
      ensures old(lookup) == null ==> lookup == null && r.lookups == old(r.lookups)
      ensures old(lookup) != null ==> lookup != null && fresh(lookup) && lookup.origin == Cancellation
      ensures r.lookups == Unlinked(old(r.lookups), old(lookup), old(kind), old(info)).0
      ensures var m := Unlinked(old(r.lookups), old(lookup), old(kind), old(info)).1;
              && (m.None? ==> unchanged(old(MasterOf(r))))
              && (m.Some? ==> m.value in old(MasterOf(r)) && ShutDown(m.value))
    {
      if lookup != null {
        UnlinkFromMaster(r);
        lookup := new Lookup(Cancellation);
      }
    }

    /**
     What _CreateLookup_NoLock did for a type other than Addresses on an idle
     host: Reachability is not supported on this platform, Names needs an
     address, the other types need a name or an address; those ask the
     platform resolver.
     */
    twostate predicate OtherLookupCreated(t: InfoType, r: Resolver, platform: StartOutcome, ok: bool)
      reads this, r
    {
      && info == old(info) && r.lookups == old(r.lookups) && r.cache == old(r.cache)
      && (t == Reachability ==> !ok && error == StreamError(DomainPOSIX, EOPNOTSUPP))
      && (t != Reachability && !AsksPlatform(t, old(info)) ==> !ok && error == old(error))
      && (AsksPlatform(t, old(info)) ==>
            && (ok <==> platform.Started?)
            && (ok ==> lookup != null && lookup.origin == PlatformQuery)
            && error == StartError(platform, old(error)))
    }

    /**
     What _CreateLookup_NoLock did for Addresses on an idle host: nothing
     without a name; otherwise sweep the cache, answer from it on a hit, and
     on a miss share the master lookup of the name or start one. A resolver
     that behaves as written keeps an existing Addresses value on a hit and
     refuses to join a master in flight, with the host error zeroed. A new
     master is a fresh host for the name with the master callback and a
     pending master lookup, followed by this host's source, and every other
     name keeps its list.
     */
    twostate predicate AddressLookupCreated(r: Resolver, now: int, platform: StartOutcome, ok: bool)
      reads this, r, r.Masters()
    {
      && (FirstName(old(info)).None? ==>
            !ok && info == old(info) && error == old(error) && r.lookups == old(r.lookups) && r.cache == old(r.cache))
      && (FirstName(old(info)).Some? ==>
            var name := FirstName(old(info)).value;
            && HostCache.SweptFrom(old(r.cache), r.cache, now)
            && (name in r.cache ==>
                  && ok && lookup != null && lookup.origin == CachedAnswer
                  && r.lookups == old(r.lookups) && error == old(error)
                  && info == (if r.asWritten then CacheHitInfoAsWritten(old(info), r.cache[name].addrs)
                              else CacheHitInfo(old(info), r.cache[name].addrs)))
            && (name !in r.cache ==>
                  && info == old(info)
                  && (ok <==> if name in old(r.lookups) then !r.asWritten else platform.Started?)
                  && (ok ==> && lookup != null && error == NoError && lookup.origin == MasterClient
                             && name in r.lookups && |r.lookups[name]| >= 2
                             && IsLastClient(r.lookups[name], lookup, this)
                             && (name in old(r.lookups) ==>
                                   r.lookups == Registry.AttachClient(old(r.lookups), name, lookup, this))
                             && (name !in old(r.lookups) ==>
                                   && r.lookups - {name} == old(r.lookups)
                                   && |r.lookups[name]| == 2 && r.lookups[name][0].MasterSlot?
                                   && var master := r.lookups[name][0].host;
                                      && fresh(master) && master.lookup != null
                                      && master.kind == MasterAddressLookup
                                      && master.client == Some(Client(CallbackFn.MasterLookupCallBack, MasterName(name)))
                                      && FirstName(master.info) == Some(name)))
                  && (!ok ==> && r.lookups == old(r.lookups)
                              && error == if name in old(r.lookups) then NoError else platform.error)))
    }

    /** What _CreateLookup_NoLock did: `ok` says a new lookup of type t is pending. */
    twostate predicate LookupCreated(t: InfoType, r: Resolver, now: int, platform: StartOutcome, ok: bool)
      reads this, r, r.Masters()
    {
      && client == old(client) && schedules == old(schedules)
      && (ok <==> old(lookup) == null && lookup != null)
      && (ok ==> kind == t && fresh(lookup))
      && (!ok ==> lookup == old(lookup) && kind == old(kind))
      // only one lookup at a time
      && (old(lookup) != null ==>
            info == old(info) && error == old(error) && r.lookups == old(r.lookups) && r.cache == old(r.cache))
      && (old(lookup) == null && t != Addresses ==> OtherLookupCreated(t, r, platform, ok))
      && (old(lookup) == null && t == Addresses ==> AddressLookupCreated(r, now, platform, ok))
    }

    /**
     _CreateLookup_NoLock: create the lookup for type t, unless one is
     pending. `wakeup` says the lookup was signalled at once (a cache hit).
     */
    method CreateLookup(t: InfoType, r: Resolver, now: int, platform: StartOutcome) returns (ok: bool, wakeup: bool)
      requires Valid() && r.Valid()
      modifies this, r
      decreases Rank(t), 3
      ensures Valid() && r.Valid()
      ensures LookupCreated(t, r, now, platform, ok)
      ensures wakeup <==> ok && lookup.origin == CachedAnswer
    {
      ok, wakeup := false, false;
      if lookup != null {
        return;
      }
      if t == Addresses {
        ok, wakeup := CreateAddressesLookup(r, now, platform);
      } else {
        ok := CreateOtherLookup(t, r, platform);
      }
    }

    /** The Addresses case of _CreateLookup_NoLock. */
    method CreateAddressesLookup(r: Resolver, now: int, platform: StartOutcome) returns (ok: bool, wakeup: bool)
      requires Valid() && r.Valid() && lookup == null
      modifies this, r
      decreases 1, 2
      ensures Valid() && r.Valid()
      ensures client == old(client) && schedules == old(schedules)
      ensures ok <==> lookup != null
      ensures ok ==> fresh(lookup) && kind == Addresses
      ensures !ok ==> kind == old(kind)
      ensures AddressLookupCreated(r, now, platform, ok)
      ensures wakeup <==> ok && lookup.origin == CachedAnswer
    {
      ok, wakeup := false, false;
      var nm := FirstName(info);
      if nm.None? {
        return;
      }
      var name := nm.value;
      ghost var order := r.ExpireCacheEntries(now);
      if name in r.cache {
        AnswerFromCache(r.cache[name].addrs, r.asWritten);
        wakeup := true;
      } else {
        AskMaster(r, name, now, platform);
      }
      if lookup != null {
        kind := Addresses;
        ok := true;
      }
    }

    /**
     A cache miss: the lookup becomes the client source _CreateAddressLookup
     returns for the name, and the host error the one it reports.
     */
    method AskMaster(r: Resolver, name: string, now: int, platform: StartOutcome)
      requires Valid() && r.Valid() && lookup == null && FirstName(info) == Some(name)
      modifies this, r
      decreases 1, 1
      ensures Valid() && r.Valid() && r.cache == old(r.cache)
      ensures info == old(info) && kind == old(kind) && client == old(client) && schedules == old(schedules)
      ensures lookup != null <==> if name in old(r.lookups) then !r.asWritten else platform.Started?
      ensures lookup != null ==> && fresh(lookup) && error == NoError && lookup.origin == MasterClient
                                 && name in r.lookups && IsLastClient(r.lookups[name], lookup, this)
      ensures name in old(r.lookups) && lookup != null ==>
                r.lookups == Registry.AttachClient(old(r.lookups), name, lookup, this)
      ensures name !in old(r.lookups) && lookup != null ==>
                && r.lookups - {name} == old(r.lookups)
                && |r.lookups[name]| == 2 && r.lookups[name][0].MasterSlot?
                && var master := r.lookups[name][0].host;
                   && fresh(master) && master.lookup != null && master.kind == MasterAddressLookup
                   && master.client == Some(Client(CallbackFn.MasterLookupCallBack, MasterName(name)))
                   && FirstName(master.info) == Some(name)
      ensures lookup == null ==> && r.lookups == old(r.lookups)
                                 && error == if name in old(r.lookups) then NoError else platform.error
    {
      var token, err := r.CreateAddressLookup(name, this, now, platform);
      error := err;
      lookup := token;
      if token != null && name !in old(r.lookups) {
        assert r.lookups - {name} == old(r.lookups);
      }
    }

    /**
     A cache hit: the cached addresses are copied into the information map
     and a source that is signalled at once becomes the lookup.
     */
    method AnswerFromCache(addrs: seq<Data>, asWritten: bool)
      requires Valid() && FirstName(info).Some?
      modifies this
      ensures Valid()
      ensures lookup != null && fresh(lookup) && lookup.origin == CachedAnswer
      ensures info == if asWritten then CacheHitInfoAsWritten(old(info), addrs) else CacheHitInfo(old(info), addrs)
      ensures kind == old(kind) && error == old(error) && client == old(client) && schedules == old(schedules)
    {
      var cp := DeepCopy.CreateDeepCopy(addrs, true, {});
      lookup := new Lookup(CachedAnswer);
      // the copy cannot fail here: allocation failure is not modelled on this path
      info := if asWritten then CacheHitInfoAsWritten(info, cp.value) else CacheHitInfo(info, cp.value);
    }

    /** The cases of _CreateLookup_NoLock for the other types. */
    method CreateOtherLookup(t: InfoType, r: Resolver, platform: StartOutcome) returns (ok: bool)
      requires Valid() && lookup == null && t != Addresses
      modifies this
      ensures Valid()
      ensures client == old(client) && schedules == old(schedules)
      ensures ok <==> lookup != null
      ensures ok ==> fresh(lookup) && kind == t
      ensures !ok ==> kind == old(kind)
      ensures OtherLookupCreated(t, r, platform, ok)
    {
      ok := false;
      if t == Reachability {
        error := StreamError(DomainPOSIX, EOPNOTSUPP);
      } else if AsksPlatform(t, info) {
        AskPlatform(platform);
      }
      if lookup != null {
        kind := t;
        ok := true;
      }
    }

    /** Start a query on the platform resolver; its failure becomes the host error. */
    method AskPlatform(platform: StartOutcome)
      modifies this
      ensures platform.Started? ==> lookup != null && fresh(lookup) && lookup.origin == PlatformQuery
      ensures platform.StartFailed? ==> lookup == old(lookup)
      ensures error == StartError(platform, old(error))
      ensures info == old(info) && kind == old(kind) && client == old(client) && schedules == old(schedules)
    {
      match platform
      case Started =>
        lookup := new Lookup(PlatformQuery);
      case StartFailed(e) =>
        error := e;
    }

    /**
     CFHostStartInfoResolution: create the lookup; with a client the
     resolution proceeds asynchronously, without one the caller must block
     until the lookup completes (_HostBlockUntilComplete, which then succeeds
     exactly when the host error code is 0). `err` is the host error.
     */
    method StartInfoResolution(t: InfoType, r: Resolver, now: int, platform: StartOutcome)
      returns (result: StartResult, err: StreamError)
      requires Valid() && r.Valid()
      modifies this, r
      decreases Rank(t), 4
      ensures Valid() && r.Valid()
      ensures LookupCreated(t, r, now, platform, result != NotStarted)
      ensures result != NotStarted ==> (result == StartedAsync <==> client.Some?)
      ensures err == error
    {
      var created, wakeup := CreateLookup(t, r, now, platform);
      if !created {
        result := NotStarted;
      } else if client.Some? {
        result := StartedAsync;
      } else {
        result := MustBlock;
      }
      err := error;
    }

    /**
     CFHostStartInfoResolution for Addresses on an idle host whose name has
     a master in flight and no cache entry. As written the request is
     refused: no lookup, the host error zeroed, the registry untouched, and
     the call returns FALSE with no error. Corrected, the host becomes a
     client of that master.
     */
    method StartWhileMasterInFlight(r: Resolver, now: int, platform: StartOutcome)
      returns (result: StartResult, err: StreamError)
      requires Valid() && r.Valid() && lookup == null
      requires FirstName(info).Some? && FirstName(info).value in r.lookups && FirstName(info).value !in r.cache
      modifies this, r
      ensures r.asWritten ==> && result == NotStarted && err == NoError && error == NoError
                              && lookup == null && r.lookups == old(r.lookups)
      ensures !r.asWritten ==> && result != NotStarted && err == NoError
                               && lookup != null && lookup.origin == MasterClient && kind == Addresses
                               && r.lookups == Registry.AttachClient(old(r.lookups), FirstName(old(info)).value, lookup, this)
    {
      var name := FirstName(info).value;
      result, err := StartInfoResolution(Addresses, r, now, platform);
      HostCache.SweptEntriesAreFresh(old(r.cache), r.cache, now);
      assert name !in r.cache;
    }

    /**
     A synchronous wait (no client) that another thread cancels: the
     cancellation replaces the lookup, its source fires (_HostCancel) and
     the wait ends. As written the wait then succeeds whenever the host
     error code was 0; with the documented rule it fails.
     */
    method CancelledWait(r: Resolver) returns (ok: bool)
      requires Valid() && r.Valid() && this !in MasterOf(r) && lookup != null && client == None
      modifies this, r, MasterOf(r)
      ensures lookup == null && error == old(error) && info == old(info)
      ensures r.asWritten ==> (ok <==> old(error).code == 0)
      ensures !r.asWritten ==> !ok
    {
      CancelInfoResolution(kind, r);
      var callout := HostCancel();
      ok := if r.asWritten then BlockResultAsWritten(error) else BlockResult(error, true);
    }

    /** CFHostScheduleWithRunLoop: record the pair unless already present. */
    method ScheduleWithRunLoop(loop: nat, mode: string)
      requires Valid()
      modifies this
      ensures Valid()
      ensures schedules == Schedules.Add(old(schedules), loop, mode).0
      ensures info == old(info) && lookup == old(lookup) && kind == old(kind)
      ensures error == old(error) && client == old(client)
    {
      var (s, added) := Schedules.Add(schedules, loop, mode);
      schedules := s;
    }

    /** CFHostUnscheduleFromRunLoop: drop the pair if present. */
    method UnscheduleFromRunLoop(loop: nat, mode: string)
      requires Valid()
      modifies this
      ensures Valid()
      ensures schedules == Schedules.Remove(old(schedules), loop, mode).0
      ensures info == old(info) && lookup == old(lookup) && kind == old(kind)
      ensures error == old(error) && client == old(client)
    {
      var (s, removed) := Schedules.Remove(schedules, loop, mode);
      schedules := s;
    }

    /**
     _GetAddrInfoCallBackWithFree: the platform delivered the result of the
     pending forward lookup. Unless the lookup was cancelled meanwhile, the
     result replaces the value of the pending type, the lookup ends and the
     client is told.
     */
    method AddrInfoComplete(res: GaiResult) returns (callout: Option<Callout>)
      requires Valid()
      modifies this
      ensures Valid()
      ensures old(lookup) == null ==> callout == None && unchanged(this)
      ensures old(lookup) != null ==>
                && lookup == null && kind == NullHostInfoType
                && info == old(info)[old(kind) := GaiValue(res)]
                && error == GaiError(res, old(error))
                && client == old(client) && schedules == old(schedules)
                && callout == CalloutFor(client, old(kind), error)
    {
      callout := None;
      if lookup != null {
        var value: InfoValue;
        if res.status != 0 {
          error := NetDb.HandleGetAddrInfoStatus(res.status, error, false, res.errno);
          value := Resolved;
        } else {
          var addrs := NetDb.CollectAddresses(res.results);
          value := AddressList(addrs);
        }
        info := info[kind := value];
        callout := CalloutFor(client, kind, error);
        LookupCancel();
      }
    }

    /**
     _GetNameInfoCallBackWithFree: the platform delivered the result of a
     reverse lookup. Nothing happens without a host name buffer or when the
     lookup was cancelled; otherwise the name list is replaced, the lookup
     ends and the client is told about type Names.
     */
    method NameInfoComplete(status: int, errno: int, hostname: Option<string>) returns (callout: Option<Callout>)
      requires Valid()
      modifies this
      ensures Valid()
      ensures (hostname.None? || old(lookup) == null) ==> callout == None && unchanged(this)
      ensures hostname.Some? && old(lookup) != null ==>
                && lookup == null && kind == NullHostInfoType
                && info == old(info)[Names := if status != 0 then Resolved else NameList([hostname.value])]
                && error == (if status != 0 then NetDb.HandleGetAddrInfoStatus(status, old(error), false, errno)
                             else old(error))
                && client == old(client) && schedules == old(schedules)
                && callout == CalloutFor(client, Names, error)
    {
      callout := None;
      if hostname.Some? && lookup != null {
        if status != 0 {
          error := NetDb.HandleGetAddrInfoStatus(status, error, false, errno);
          info := info[Names := Resolved];
        } else {
          info := info[Names := NameList([hostname.value])];
        }
        callout := CalloutFor(client, Names, error);
        LookupCancel();
      }
    }

    /**
     _AddressLookupPerform: a client source fired (its master finished, or
     the cache answered). The lookup ends and the client is told about
     Addresses with the host error.
     */
    method AddressLookupPerform() returns (callout: Option<Callout>)
      requires Valid() && lookup != null
      modifies this
      ensures Valid()
      ensures lookup == null && kind == NullHostInfoType
      ensures info == old(info) && error == old(error) && client == old(client) && schedules == old(schedules)
      ensures callout == CalloutFor(client, Addresses, error)
    {
      callout := CalloutFor(client, Addresses, error);
      LookupCancel();
    }

    /**
     _HostCancel: the cancellation source fired. If a lookup is still
     pending it ends and the client is told with the pending type and the
     host error.
     */
    method HostCancel() returns (callout: Option<Callout>)
      requires Valid()
      modifies this
      ensures Valid()
      ensures old(lookup) == null ==> callout == None && unchanged(this)
      ensures old(lookup) != null ==>
                && lookup == null && kind == NullHostInfoType
                && info == old(info) && error == old(error) && client == old(client) && schedules == old(schedules)
                && callout == CalloutFor(client, old(kind), error)
    {
      callout := None;
      if lookup != null {
        callout := CalloutFor(client, kind, error);
        LookupCancel();
      }
    }
  }

  /**
   The process-wide state: the registry of master lookups and the cache.
   `asWritten` says whether this resolver behaves as Host/CFHost.c is
   written (the join gate of _CreateAddressLookup refuses joining requests,
   and a cache hit keeps an existing Addresses value) or with both
   corrected.
   */
  class Resolver {
    var lookups: Registry.Lookups<Host, Lookup>
    var cache: HostCache.Cache
    const asWritten: bool

    ghost predicate Valid()
      reads this
    {
      Registry.WellFormed(lookups)
    }

    constructor (asWritten: bool)
      ensures Valid() && lookups == map[] && cache == map[] && this.asWritten == asWritten
    {
      lookups := map[];
      cache := map[];
      this.asWritten := asWritten;
    }

    /** The master hosts of every name in flight. */
    function Masters(): set<Host>
      reads this
    {
      set n | n in lookups && |lookups[n]| > 0 && lookups[n][0].MasterSlot? :: lookups[n][0].host
    }

    /** The client hosts waiting on the master of `name`. */
    function ClientsOf(name: string): set<Host>
      reads this
    {
      if name in lookups then ClientHosts(lookups[name], |lookups[name]|) else {}
    }

    /**
     _ExpireCacheEntries: drop the expired entries, then, if the cache still
     holds CacheMaxEntries or more, the entry the scan recorded as oldest.
     `order` is the enumeration order of the keys.
     */
    method ExpireCacheEntries(now: int) returns (ghost order: seq<string>)
      modifies this
      ensures lookups == old(lookups)
      ensures HostCache.IsEnumeration(order, old(cache)) && cache == HostCache.Swept(old(cache), order, now)
    {
      var keys := HostCache.EnumerateKeys(cache);
      var values := cache;
      var i, j, oldest := 0, 0, 0;
      while i < |keys|
        invariant 0 <= i <= |keys|
        invariant (j, oldest) == HostCache.ScanOldest(values, keys, now, i)
        invariant forall k :: k in cache <==> k in values && !(k in keys[..i] && HostCache.Expired(values[k], now))
        invariant forall k :: k in cache ==> cache[k] == values[k]
        invariant lookups == old(lookups) && values == old(cache)
      {
        var since := HostCache.Age(now, values[keys[i]].stamp);
        if since >= HostCache.CacheTimeout {
          cache := cache - {keys[i]};
        } else if since > oldest {
          j, oldest := i, since;
        }
        i := i + 1;
      }
      assert keys[..i] == keys;
      assert cache == HostCache.Fresh(values, now);
      if |cache| >= HostCache.CacheMaxEntries {
        HostCache.NonEmptyMapHasKey(cache);
        var k :| k in cache;
        assert k in keys;
        cache := cache - {keys[j]};
      }
      order := keys;
    }

    /** The alias loop of _MasterLookupCallBack: add the entry under every name not yet cached. */
    method InsertAliases(names: seq<string>, e: HostCache.Entry)
      modifies this
      ensures lookups == old(lookups) && cache == HostCache.AddAll(old(cache), names, e)
    {
      var i := 0;
      while i < |names|
        invariant 0 <= i <= |names|
        invariant cache == HostCache.AddAll(old(cache), names[..i], e)
        invariant lookups == old(lookups)
      {
        assert names[..i + 1][..i] == names[..i];
        if names[i] !in cache {
          cache := cache[names[i] := e];
        }
        i := i + 1;
      }
      assert names[..i] == names;
    }

    /**
     _CreateAddressLookup for a client request: join the master of `name`
     if one is in flight, otherwise register a new master host, give it the
     master callback and start it. A client source is created and appended
     to the list when the request passes the gate. As written the gate opens
     only on `started`, which only the path that starts a master sets; the
     correction lets a joining request through as well.
     */
    method CreateAddressLookup(name: string, requester: Host, now: int, platform: StartOutcome)
      returns (token: Lookup?, err: StreamError)
      requires Valid()
      modifies this
      decreases 1, 0
      ensures Valid() && cache == old(cache)
      ensures token != null ==> fresh(token) && token.origin == MasterClient && err == NoError
      ensures token != null <==> if name in old(lookups) then !asWritten else platform.Started?
      ensures name in old(lookups) && !asWritten ==>
                lookups == Registry.AttachClient(old(lookups), name, token, requester)
      ensures name in old(lookups) && asWritten ==> token == null && err == NoError && lookups == old(lookups)
      ensures name !in old(lookups) && token == null ==> lookups == old(lookups) && err == platform.error
      ensures name !in old(lookups) && token != null ==>
                && name in lookups && |lookups[name]| == 2
                && lookups[name][0].MasterSlot? && IsLastClient(lookups[name], token, requester)
                && (forall n :: n != name ==> (n in lookups <==> n in old(lookups)))
                && (forall n :: n != name && n in old(lookups) ==> lookups[n] == old(lookups)[n])
                && var master := lookups[name][0].host;
                   && fresh(master) && master.lookup != null && master.kind == MasterAddressLookup
                   && master.client == Some(Client(CallbackFn.MasterLookupCallBack, MasterName(name)))
                   && FirstName(master.info) == Some(name)
    {
      err := NoError;
      token := null;
      var joined := name in lookups;
      var started := false;
      if !joined {
        var master := new Host.CreateWithName(name);
        lookups := Registry.Register(lookups, name, master);
        var _ := master.SetClient(Some(Client(CallbackFn.MasterLookupCallBack, MasterName(name))), this);
        var res;
        res, err := master.StartInfoResolution(MasterAddressLookup, this, now, platform);
        started := res != NotStarted;
        if !started {
          var _ := master.SetClient(None, this);
          lookups := lookups - {name};
        }
      }
      if (started || (joined && !asWritten)) && err.code == 0 {
        token := new Lookup(MasterClient);
        lookups := Registry.AttachClient(lookups, name, token, requester);
      }
    }

    /**
     _MasterLookupCallBack: the master of `name` finished with error `err`.
     The master loses its client, the name leaves the registry; on success
     the master's addresses are cached under each of its names; every
     waiting client gets the error or the addresses under its pending type.
     */
    method MasterLookupCallBack(master: Host, err: StreamError, name: string, now: int)
      requires Valid() && master.Valid() && master.lookup == null
      requires master !in ClientsOf(name)
      modifies this, master, ClientsOf(name)
      ensures Valid()
      ensures lookups == old(lookups) - {name}
      ensures master.client == None && master.lookup == null && master.kind == old(master.kind)
      ensures master.info == old(master.info) && master.error == old(master.error)
      ensures master.schedules == old(master.schedules) && master.Valid()
      ensures cache == if name in old(lookups) && err.code == 0 && GetInfo(old(master.info), Names).0.Some?
                          && GetInfo(old(master.info), Names).0.value.NameList?
                       then HostCache.AddAll(old(cache), GetInfo(old(master.info), Names).0.value.names,
                              HostCache.Entry(AddressesOf(GetInfo(old(master.info), MasterAddressLookup).0), now))
                       else old(cache)
      ensures forall h :: h in old(ClientsOf(name)) ==>
                && h.info == old(h.info)[old(h.kind) := Delivered(err, GetInfo(old(master.info), MasterAddressLookup).0)]
                && h.error == (if err.code != 0 then err else old(h.error))
                && h.kind == old(h.kind) && h.lookup == old(h.lookup)
                && h.client == old(h.client) && h.schedules == old(h.schedules)
                && (old(h.Valid()) ==> h.Valid())
    {
      var _ := master.SetClient(None, this);
      if name in lookups {
        var list := lookups[name];
        lookups := lookups - {name};
        var addrs := GetInfo(master.info, MasterAddressLookup).0;
        if err.code == 0 {
          var names := GetInfo(master.info, Names).0;
          if names.Some? && names.value.NameList? {
            InsertAliases(names.value.names, HostCache.Entry(AddressesOf(addrs), now));
          }
        }
        var value := Delivered(err, addrs);
        ghost var cacheAfter := cache;
        var i := 1;
        while i < |list|
          invariant 1 <= i <= |list|
          invariant cache == cacheAfter
          invariant lookups == old(lookups) - {name}
          invariant master.client == None && master.lookup == null
          invariant master.info == old(master.info) && master.error == old(master.error)
          invariant master.kind == old(master.kind) && master.schedules == old(master.schedules) && master.Valid()
          invariant forall h :: h in ClientHosts(list, |list|) ==>
                      && h.kind == old(h.kind) && h.lookup == old(h.lookup)
                      && h.client == old(h.client) && h.schedules == old(h.schedules)
                      && (h in ClientHosts(list, i) ==>
                            h.info == old(h.info)[old(h.kind) := value]
                            && h.error == (if err.code != 0 then err else old(h.error)))
                      && (h !in ClientHosts(list, i) ==> h.info == old(h.info) && h.error == old(h.error))
        {
          var slot := list[i];
          if slot.ClientSlot? {
            var h := slot.client;
            h.info := h.info[h.kind := value];
            if err.code != 0 {
              h.error := err;
            }
          }
          i := i + 1;
        }
      }
    }
  }

  /** The last slot of the list is the client slot of this lookup and host. */
  predicate IsLastClient(list: seq<Registry.Slot<Host, Lookup>>, token: Lookup?, h: Host) {
    |list| > 0 && list[|list| - 1].ClientSlot? && list[|list| - 1].token == token && list[|list| - 1].client == h
  }

  /** The client hosts held in slots 1 to n-1 of a registry list. */
  function ClientHosts(list: seq<Registry.Slot<Host, Lookup>>, n: nat): set<Host>
    requires n <= |list|
  {
    set k | 1 <= k < n && list[k].ClientSlot? :: list[k].client
  }
}
