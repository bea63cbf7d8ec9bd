# CFHost resolution engine, modelled in Dafny

This project models the resolution engine of CFHost (`Host/CFHost.c`), the
CFNetwork object that turns host names into addresses and addresses into
names. It covers four parts.

- **The per-host state machine.** A host holds a dictionary of results keyed
  by information type, at most one pending lookup with its type, the last
  stream error, an optional client callback, and the run loops and modes it
  is scheduled on.
- **Starting and ending lookups.** This covers CFHostStartInfoResolution,
  the lookup creation it drives, CFHostCancelInfoResolution,
  CFHostSetClient, the completion handlers for forward (getaddrinfo) and
  reverse (getnameinfo) lookups, the client-source perform routine and the
  cancel source.
- **Duplicate suppression for address lookups.** The process-wide registry
  (`_HostLookups`) maps a host name to a list. The list starts with a
  "master" host that runs the platform query, followed by the lookup sources
  of the client hosts waiting on it. A later request for the same name joins
  the list. When the master finishes, every client gets the result, and the
  addresses are cached under each of the master's names.
- **The process-wide cache.** The cache (`_HostCache`) is swept before each
  address lookup. Entries one second old or older are dropped. If 25 or more
  entries remain, the entry the scan recorded as oldest is dropped too.

Layout:

| file | module | contents |
|---|---|---|
| `host_types.dfy` | `HostTypes` | information types, error domains and codes, result values, clients and callouts |
| `netdb.dfy` | `NetDb` | getaddrinfo status mapping, hints, supported address sizes, the address-collection loop |
| `deep_copy.dfy` | `DeepCopy` | the all-or-nothing array copy |
| `host_cache.dfy` | `HostCache` | the cache as a map, one sweep and one alias insertion as functions, their lemmas |
| `schedules.dfy` | `Schedules` | the flat run loop/mode list as a list of pairs |
| `registry.dfy` | `Registry` | the master/client registry as a map of slot lists, unlinking and joining |
| `cfhost.dfy` | `CFHost` | classes `Host` (one CFHost) and `Resolver` (the registry and the cache), and the operations on them |

The code updates host objects and the two global dictionaries in place, so
`Host` and `Resolver` are classes. Most of their methods state the new
state of everything they modify. Three kinds of method state less:

- The lookup-creating methods (`CreateLookup`, `CreateAddressesLookup`,
  `AskMaster`, `StartInfoResolution`) give the swept cache as one of the
  sweeps the enumeration order allows. For a new master they give its
  name, client, type and pending lookup, not the rest of its state.
- `StartWhileMasterInFlight` states only the outcome of a start whose name
  has a master in flight.
- `CancelledWait` states only the outcome of a cancelled wait.

The registry, cache and schedule operations are also
given as functions over values, and the lemmas are proved about those
functions.

Environment inputs:

- Starting a platform query is an input `StartOutcome`.
- A completion is a method that receives the platform's result.
- The time of day is an integer number of milliseconds passed in by the
  caller.
- A client callback is not invoked. The method returns the `Callout` it
  would make once the host lock is released.

The findings below are three places where the code does not do what its
own comments describe. For the first two, the `Resolver` class has a
constant `asWritten`. A resolver built with `asWritten` true behaves as
`Host/CFHost.c` is written:

- `_CreateAddressLookup` refuses a request that would join a master already
  in flight;
- a cache hit keeps an Addresses value the host already holds.

A resolver built with `asWritten` false runs the corrected engine. Every
contract of the host and resolver methods states both behaviours. For the
third finding, the result rule of a synchronous wait is given both as
written and as documented.

Elsewhere the model follows the code, including where the code's behaviour
is narrower than the descriptive comments in `Host/CFHost.c` (lines 46-80
and 2434-2469):

- CFHostCancelInfoResolution does not look at its information-type argument.
  It cancels whatever lookup is pending.
- A cancellation reports the host's existing error to the client. It does
  not report a distinct "cancelled" error.
- The master completion inserts into the cache without sweeping it first.
  So nothing bounds the cache at insertion time. The bound only applies at
  the next sweep, and then only loosely (`HostCache.SweepMayLeaveCacheFull`).

## Model

| member | source | states |
|---|---|---|
| NetDb.HandleGetAddrInfoStatus | Host/CFHost.c:872-899 | A nonzero status maps to the NetDB domain with the status as code. EAI_SYSTEM maps to the POSIX domain with errno. When asked to intuit a zero status, errno maps to POSIX, or NETDB_INTERNAL to NetDB if errno is 0. Otherwise the error is left unchanged. |
| NetDb.FailureIsReported | Host/CFHost.c:874-884 | A failed status yields a zero error code exactly when the status is EAI_SYSTEM and errno is 0. |
| NetDb.IntuitionReportsError | Host/CFHost.c:886-898 | With intuition requested, a zero status still yields a nonzero error code. |
| NetDb.AddressSizeForSupportedFamily | Host/CFHost.c:1587-1606 | The size is positive exactly for AF_INET (16, sockaddr_in) and AF_INET6 (28, sockaddr_in6). |
| NetDb.InitGetAddrInfoHints | Host/CFHost.c:919-934 | The hints are AI_ADDRCONFIG, SOCK_STREAM and protocol 0. The family is AF_INET exactly for the IPv4 type, AF_INET6 exactly for the IPv6 type, and AF_UNSPEC otherwise. |
| NetDb.HintsAskForKeptFamilies | Host/CFHost.c:1659-1676 | The hints only ask for a family the completion handler keeps, or for any family. |
| NetDb.SupportedAddressesSound | Host/CFHost.c:1659-1694 | Every collected address is the wrapped socket address of a result record of family AF_INET or AF_INET6. |
| NetDb.SupportedAddressesComplete | Host/CFHost.c:1659-1694 | Every result record of a supported family is collected. |
| NetDb.CollectAddresses | Host/CFHost.c:1656-1701 | The loop over the addrinfo list returns exactly the supported records, wrapped and in list order, and never more addresses than records. |
| DeepCopy.CreateDeepCopy | Host/CFHost.c:775-815 | An empty array copies to an empty array. A non-empty array copies exactly when the buffer is allocated and no element copy fails. A copy equals the original. |
| HostCache.EnumerateKeys | Host/CFHost.c:737 | The keys are listed once each, and every key of the cache is listed. |
| HostCache.ScanOldestFindsFirstOldest | Host/CFHost.c:740-753 | The scan records the greatest age among unexpired entries. If that age is positive, it records the first unexpired entry that has it. Otherwise it records index 0. |
| HostCache.SweepKeepsOnlyFreshEntries | Host/CFHost.c:740-759 | A sweep keeps only unexpired entries, unchanged. An unexpired entry is dropped only when at least 25 survived and it is the recorded entry. |
| HostCache.SweepEvictsFirstOldest | Host/CFHost.c:748-759 | When 25 or more entries survive and one has a positive age, exactly one survivor is evicted. It is the entry the scan recorded, and it is one of the oldest. |
| HostCache.SweepMayLeaveCacheFull | Host/CFHost.c:740-759 | When all survivors were stamped now and the first enumerated entry expired, the eviction removes nothing, and 25 or more entries can remain. |
| HostCache.SweptEntriesAreFresh | Host/CFHost.c:526-539 | Whatever the enumeration order, the cache consulted after a sweep holds no expired entry. Below the bound it holds all unexpired ones. |
| HostCache.AddAllAddsAbsentNames | Host/CFHost.c:2157-2162 | Caching a completed lookup under its names never replaces or removes an entry. It adds the entry under exactly the names that were absent. |
| Schedules.Add | Host/CFHost.c:2816 | A pair is appended exactly when it is absent, and the list stays a list of run loop/mode pairs. |
| Schedules.Remove | Host/CFHost.c:2838 | A pair is removed exactly when present, and only its first occurrence. Otherwise the list is unchanged. |
| Schedules.AddThenRemove | Host/CFHost.c:2807-2848 | Scheduling on a new pair and then unscheduling it restores the list. |
| Registry.FirstIndex | Host/CFHost.c:2640-2641 | The result is the first slot holding the lookup source, or none when no slot holds it. |
| Registry.UnlinkKeepsOthers | Host/CFHost.c:2627-2661 | Unlinking keeps every list a master followed by clients, and leaves every other name untouched. |
| Registry.UnlinkRemovesOneSlot | Host/CFHost.c:2638-2657 | An absent source changes nothing. Otherwise exactly one slot holding the source goes and the master stays first. The name and its master are released exactly when the list had two slots. |
| Registry.JoinSharesMaster | Host/CFHost.c:1012-1116 | A joining request's source is appended after the same master, the registry stays well formed, and other names are untouched. This is the duplicate suppression described at lines 72-80. |
| Registry.FirstRequesterIsSoleClient | Host/CFHost.c:1020-1116 | A first request whose master started leaves the list as its master followed by its own source. |
| CFHost.GetInfo | Host/CFHost.c:2545-2578 | "Resolved" holds exactly when a value is stored for the type. A value is returned exactly when the stored value is not the no-data marker. |
| CFHost.CacheHitInfo | Host/CFHost.c:557-560 | After a cache hit the host reports the cached addresses as resolved. Every other type reads as before. |
| CFHost.CacheHitKeepsFailureAsWritten | Host/CFHost.c:557-560 | As written, a host holding the no-data marker from an earlier failed lookup still reports no addresses after a cache hit. The corrected update reports them. |
| CFHost.BlockResult | Host/CFHost.c:2441-2445 | As documented, a synchronous wait that a cancellation ended fails. Any other wait succeeds exactly when the written rule of lines 467-468 (error code 0) holds. |
| CFHost.ForwardLookupDecidesWait | Host/CFHost.c:1632-1633 | After a failed forward lookup a waiting caller fails, unless the status is EAI_SYSTEM and errno is 0. After a successful one, the verdict is that of the error the host already held. |
| CFHost.Host.CreateWithName | Host/CFHost.c:2349-2373 | A new host knows exactly one name, has no lookup, no client and no schedules. |
| CFHost.Host.CreateWithAddress | Host/CFHost.c:2376-2400 | A new host knows exactly one address, has no lookup, no client and no schedules. |
| CFHost.Host.CreateCopy | Host/CFHost.c:2403-2432 | The copy has the source's information only. |
| CFHost.Host.LookupCancel | Host/CFHost.c:480-497 | The pending lookup and its type are cleared and nothing else changes. |
| CFHost.Host.ClearClient | Host/CFHost.c:2722-2778 | The client and any pending lookup are cleared, and the information and error are kept. |
| CFHost.Host.UnlinkFromMaster | Host/CFHost.c:2732-2767 | The registry becomes the result of unlinking this host's source from its name. A master left without clients is shut down: no client, no lookup, its type cleared, and its information, error and schedules kept. When no master collapses, every master is unchanged. |
| CFHost.Host.SetClient | Host/CFHost.c:2710-2804 | Setting a client records it and changes nothing else, masters included. Removing it clears the client and any pending lookup, and unlinks the host from its master. A master left without clients is shut down; otherwise masters are unchanged. The call always returns true. |
| CFHost.Host.CancelInfoResolution | Host/CFHost.c:2598-2707 | A pending lookup is unlinked from its master and replaced by a fresh cancellation source. The type and error are kept. A master left without clients is shut down; otherwise masters are unchanged. An idle host is unchanged. |
| CFHost.Host.CreateLookup | Host/CFHost.c:500-702 | It succeeds exactly when the host was idle and a new lookup is now pending with the requested type. A busy host keeps its state, and so do the registry and the cache. For Addresses the outcome is as in `CFHost.Host.CreateAddressesLookup`, including the new master's state. For the other types it is as in `CFHost.Host.CreateOtherLookup`. |
| CFHost.Host.CreateAddressesLookup | Host/CFHost.c:521-578 | Without a name nothing happens. Otherwise the cache is swept. A hit installs the cached addresses and a source signalled at once; as written, an existing Addresses value is kept. A miss is answered as by `CFHost.Host.AskMaster`. |
| CFHost.Host.AskMaster | Host/CFHost.c:541-543 | A miss joins the master in flight for the name, or starts one. As written, a join is refused with the error zeroed. A joined request's source is appended by `Registry.AttachClient`. A new master is a fresh host for the name with the master callback and a pending master lookup, followed by this host's source, and every other name keeps its list. A failed start leaves the registry unchanged and takes the platform error. |
| CFHost.Host.AnswerFromCache | Host/CFHost.c:545-561 | A fresh source signalled at once becomes the lookup. The information map is updated by the add-if-absent rule (as written) or the replacing rule (corrected), and nothing else changes. |
| CFHost.Host.CreateOtherLookup | Host/CFHost.c:580-693 | Reachability fails with POSIX EOPNOTSUPP. A name lookup needs an address, and other types need a name or an address. In those cases a platform query is started, and the start error becomes the host error. |
| CFHost.Host.AskPlatform | Host/CFHost.c:675-692 | A query that starts becomes the pending lookup. A start failure becomes the host error. |
| CFHost.Host.StartInfoResolution | Host/CFHost.c:2471-2542 | It succeeds exactly when a lookup was created, with the outcome of `CFHost.Host.CreateLookup`, including a new master's state. It then runs asynchronously exactly when a client is set, and must block otherwise. The returned error is the host error. |
| CFHost.Host.StartWhileMasterInFlight | Host/CFHost.c:995-1098 | An address resolution for a name whose master is in flight and not cached is refused as written: not started, the error zeroed, no lookup, and the registry unchanged. Corrected, it starts, and the host's source joins that master's list. |
| CFHost.Host.CancelledWait | Host/CFHost.c:441-477 | A synchronous wait cancelled from another thread ends with no lookup and the error kept. As written it succeeds exactly when that error code is 0; with the documented rule it fails. |
| CFHost.Host.ScheduleWithRunLoop | Host/CFHost.c:2807-2826 | The schedules become those of `Schedules.Add` and nothing else changes. |
| CFHost.Host.UnscheduleFromRunLoop | Host/CFHost.c:2829-2848 | The schedules become those of `Schedules.Remove` and nothing else changes. |
| CFHost.Host.AddrInfoComplete | Host/CFHost.c:1611-1734 | An idle host is unchanged. Otherwise the pending type gets the no-data marker on failure, or the supported addresses on success. The error follows the status mapping, the lookup ends, and the client is called with the pending type and the new error. |
| CFHost.Host.NameInfoComplete | Host/CFHost.c:1749-1821 | Without a name buffer or a pending lookup nothing changes. Otherwise the names become the no-data marker or the one returned name, the lookup ends, and the client is called for names. |
| CFHost.Host.AddressLookupPerform | Host/CFHost.c:2269-2300 | The client source's lookup ends, and the client is called for addresses with the host error. |
| CFHost.Host.HostCancel | Host/CFHost.c:400-438 | A pending lookup ends, and the client is called with its type and the host error. An idle host is unchanged. |
| CFHost.Resolver.constructor | Host/CFHost.c:319-320 | The registry and the cache start empty, and the resolver runs as written or corrected as asked. |
| CFHost.Resolver.ExpireCacheEntries | Host/CFHost.c:705-772 | The cache becomes the sweep of the old cache for the order in which its keys were enumerated, and the registry is unchanged. |
| CFHost.Resolver.InsertAliases | Host/CFHost.c:2157-2162 | The cache gains the entry under exactly the names that were absent. |
| CFHost.Resolver.CreateAddressLookup | Host/CFHost.c:995-1138 | For a name not in flight, a source is created exactly when a new master started. The new master is a fresh host for the name with the master callback and a pending master lookup, followed by this request's source. A failed start leaves the registry unchanged and returns the platform error. For a name in flight, `started` stays false: as written no source is made, the error is zeroed and the registry is unchanged; corrected, the source is appended to the name's list. |
| CFHost.Resolver.MasterLookupCallBack | Host/CFHost.c:2113-2247 | The master loses its client and the name leaves the registry. The master keeps its type, information, error and schedules, and stays well formed. On success the master's addresses are cached under each of its names, existing entries kept. Every waiting client gets the error and the no-data marker, or the master's addresses, under its pending type, and stays well formed. |

## Left out

- Run-loop plumbing is left out: scheduling lookup sources on run loops, signalling sources, waking sleeping run loops, and `_AddressLookupSchedule_NoLock` forwarding a client's schedule to its master. Only the host's list of run loop/mode pairs is modelled.
- The loop of `_HostBlockUntilComplete` is left out, because it runs the run loop. `CFHost.Host.StartInfoResolution` returns `MustBlock` where the code blocks. Only the result rule applied once the lookup has cleared is modelled (`CFHost.BlockResultAsWritten`, `CFHost.BlockResult`).
- Locks, retain and release are left out. There is no concurrency in the model.
- Callback contexts' retain/release functions are left out.
- The platform backends are left out: the Linux signalfd/getaddrinfo_a machinery, the Mach ports, the DNS record lookup and `_CFNetworkCFStringCreateWithCFDataAddress`. They are represented by the `StartOutcome` input and the completion methods.
- Reachability on Mach, `_IsDottedIp` and `_NetworkReachabilityCallBack` are left out. The model follows the non-Mach build, where a reachability lookup fails with EOPNOTSUPP.
- The model follows the non-Mach (Linux) build for forward (address) lookups and for the other lookup types except Names. A successful platform start leaves the host error untouched, whereas on Mach `getaddrinfo_async_start` overwrites it. Address sizes come from the family (`_AddressSizeForSupportedFamily`), not from `sa_len`.
- CFHost.Host.CreateOtherLookup, CFHost.Host.AskPlatform, CFHost.Host.NameInfoComplete: a Names (reverse) lookup follows the Mach path, the only build whose `_GetNameInfoCallBack` reaches the completion handler (Host/CFHost.c:1892-1913). On Linux `_CreateNameLookup_Linux` returns NULL and sets no error (lines 1433-1437), so a reverse lookup never starts and the host error stays as it was; the model admits this as the `StartFailed` input carrying the old error. A successful start keeps the host error, where Mach's `getnameinfo_async_start` overwrites it (line 1451), so under the model a host still holding an old failure fails a synchronous Names resolution that Mach would let succeed.
- `_DNSCallBack_Mach` and `_GetNameInfoCallBackWithFreeAndWithShouldLock` are left out. They are platform glue around the modelled completion handlers.
- `_CFStringToCStringWithError` is left out. It converts strings for the C resolver API.
- Allocation failure (ENOMEM) is left out everywhere except `DeepCopy.CreateDeepCopy`, where buffer and per-element failure are inputs. The cache-hit copy in `CFHost.Host.CreateAddressesLookup` is called with no failure, and the ENOMEM branches of lookup creation, of the completions and of the per-client copy in the master callback are not modelled.
- CFHost.Resolver.MasterLookupCallBack: hands each client the master's own address array rather than its copy, as the code does. With value semantics the two are indistinguishable. The failing-copy branch (ENOMEM) is not modelled.
- CFHost.Resolver.MasterLookupCallBack: a master that "failed" with EAI_SYSTEM while errno was 0 holds the no-data marker under a zero error code. The code then deep-copies its NULL address array at once for every waiting client in the fan-out (Host/CFHost.c:2196), and also caches the master, whose NULL array is deep-copied again on a later cache hit. The model delivers the marker to the clients and caches an empty address list.
- The cache stores the master host and a date object. The model stores the addresses and an integer time stamp in milliseconds. Floating-point seconds and `fabs` become integer ages.
- Class registration, `_HostCreate`, `_HostDestroy`, `_HostDescribe` and `CFHostGetTypeID` are left out. They are object-runtime plumbing.
- CFNetworkSchedule.c is not part of this model. `_SchedulesAddRunLoopAndMode` and `_SchedulesRemoveRunLoopAndMode` are modelled as add-if-absent and remove-first-occurrence, as their uses in `Host/CFHost.c` require.
- CFHost.Host.UnlinkFromMaster: the nested `CFHostCancelInfoResolution` of a collapsed master is not modelled as a call. It finds no pending lookup once `CFHostSetClient(master, NULL, NULL)` has run, so it does nothing.
- CFHost.Host.SetClient, CFHost.Host.CancelInfoResolution: require that the host is not the master of its own pending name. The code would re-enter its own lock in that case.
- CFHost.Resolver.CreateAddressLookup: follows the code's join gate only when the resolver is built with `asWritten` true. With `asWritten` false it lets a joining request through (first finding).
- CFHost.Host.CreateAddressesLookup: keeps an existing Addresses value on a cache hit and refuses a join only when the resolver is built with `asWritten` true. With `asWritten` false it replaces the value and joins (first and second findings).
- CFHost.Host.CreateLookup: inherits both corrections from CFHost.Host.CreateAddressesLookup when the resolver is built with `asWritten` false.
- CFHost.Host.StartInfoResolution: inherits both corrections from CFHost.Host.CreateAddressesLookup when the resolver is built with `asWritten` false. A joining request then returns `StartedAsync` or `MustBlock` where the code returns FALSE.

## Findings

| source | as written | input that shows it | evidently intended | confidence | as-written member | corrected member |
|---|---|---|---|---|---|---|
| Host/CFHost.c:1097-1098 | `started` is set only on the path that creates a master. The gate `started && !error->error` therefore refuses every request that finds a master already in flight: no client source is made, the error is zeroed, and CFHostStartInfoResolution returns false with no error. | Two hosts created with the same name both start an address lookup before the first master finishes. The second gets no lookup. | A joining request gets a client source appended to the master's list. This is the duplicate suppression described at lines 72-80. | not executed | CFHost.Host.StartWhileMasterInFlight | Registry.JoinSharesMaster |
| Host/CFHost.c:557-560 | A cache hit stores the copied addresses with `CFDictionaryAddValue`, which does not replace an existing value. | A host whose first address lookup failed holds the no-data marker. A second lookup of the same name is answered from the cache, and the host still reports no addresses. | The cached addresses replace the old value, as every completion handler does by removing the old value first. | not executed | CFHost.CacheHitKeepsFailureAsWritten | CFHost.CacheHitInfo |
| Host/CFHost.c:467-468 | Once the lookup clears, `_HostBlockUntilComplete` returns FALSE only when the host error code is nonzero. `_HostCancel` ends the lookup and keeps the error. An address start zeroes it at line 1000, and in the Linux build the model follows no other start sets it on success. | A synchronous CFHostStartInfoResolution for the addresses of a new host is cancelled from another thread before the answer arrives. The cancellation source fires, and the call returns TRUE with no error and no addresses. | The call returns FALSE, as the comment at lines 2441-2445 says for a resolution stopped by CFHostCancelInfoResolution. | not executed | CFHost.Host.CancelledWait | CFHost.BlockResult |
