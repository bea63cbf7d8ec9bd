/**
 The resolver-facing helpers of CFHost: mapping a getaddrinfo status to a
 stream error, the hints of a forward lookup, the size of a supported
 socket address, and the conversion of a getaddrinfo result list into the
 list of wrapped addresses kept on a host.
 */
module NetDb {
  import opened HostTypes

  /** Address families, socket types and flags (glibc values). */
  const AF_UNSPEC: int := 0
  const AF_INET: int := 2
  const AF_INET6: int := 10
  const SOCK_STREAM: int := 1
  const AI_ADDRCONFIG: int := 0x0020

  const SizeofSockaddrIn: nat := 16
  const SizeofSockaddrIn6: nat := 28

  predicate IsSupportedFamily(family: int) {
    family == AF_INET || family == AF_INET6
  }

  /**
   _HandleGetAddrInfoStatus: the error a getaddrinfo status stands for.
   `errno` is the thread's errno at the time of the call.
   */
  function HandleGetAddrInfoStatus(status: int, error: StreamError, intuitStatus: bool, errno: int): (r: StreamError)
    ensures status != 0 && status != EAI_SYSTEM ==> r == StreamError(DomainNetDB, status)
    ensures status == EAI_SYSTEM ==> r == StreamError(DomainPOSIX, errno)
    ensures status == 0 && intuitStatus && errno != 0 ==> r == StreamError(DomainPOSIX, errno)
    ensures status == 0 && intuitStatus && errno == 0 ==> r == StreamError(DomainNetDB, NETDB_INTERNAL)
    ensures status == 0 && !intuitStatus ==> r == error
  {
    if status != 0 then
      if status == EAI_SYSTEM then StreamError(DomainPOSIX, errno)
      else StreamError(DomainNetDB, status)
    else if intuitStatus then
      if errno != 0 then StreamError(DomainPOSIX, errno)
      else StreamError(DomainNetDB, NETDB_INTERNAL)
    else error
  }

  /**
   A failed status is reported as an error (a nonzero code) in every case
   but one: EAI_SYSTEM while errno is 0 yields a zero code.
   */
  lemma FailureIsReported(status: int, error: StreamError, intuitStatus: bool, errno: int)
    requires status != 0
    ensures HandleGetAddrInfoStatus(status, error, intuitStatus, errno).code == 0
            <==> status == EAI_SYSTEM && errno == 0
  {
  }

  /** With intuition asked for, a zero status still yields an error. */
  lemma IntuitionReportsError(error: StreamError, errno: int)
    ensures HandleGetAddrInfoStatus(0, error, true, errno).code != 0
  {
  }

  /** _AddressSizeForSupportedFamily: the sockaddr size of a family, 0 if unsupported. */
  function AddressSizeForSupportedFamily(family: int): (r: nat)
    ensures r > 0 <==> IsSupportedFamily(family)
    ensures family == AF_INET ==> r == SizeofSockaddrIn
    ensures family == AF_INET6 ==> r == SizeofSockaddrIn6
  {
    if family == AF_INET then SizeofSockaddrIn
    else if family == AF_INET6 then SizeofSockaddrIn6
    else 0
  }

  /** The addrinfo hints of _InitGetAddrInfoHints. */
  datatype Hints = Hints(flags: int, family: int, socktype: int, protocol: int)

  function InitGetAddrInfoHints(info: InfoType): (h: Hints)
    ensures h.flags == AI_ADDRCONFIG && h.socktype == SOCK_STREAM && h.protocol == 0
    ensures h.family == AF_INET <==> info == IPv4Addresses
    ensures h.family == AF_INET6 <==> info == IPv6Addresses
    ensures h.family == AF_UNSPEC <==> info != IPv4Addresses && info != IPv6Addresses
  {
    var family :=
      if info == IPv4Addresses then AF_INET
      else if info == IPv6Addresses then AF_INET6
      else AF_UNSPEC;
    Hints(AI_ADDRCONFIG, family, SOCK_STREAM, 0)
  }

  /**
   A forward lookup only ever asks for a family the completion handler keeps
   (or for any family).
   */
  lemma HintsAskForKeptFamilies(info: InfoType)
    ensures var h := InitGetAddrInfoHints(info);
            h.family == AF_UNSPEC || AddressSizeForSupportedFamily(h.family) > 0
  {
  }

  /** The first n bytes of s, or all of s when it is shorter. */
  function Prefix(s: seq<Byte>, n: nat): (r: seq<Byte>)
    ensures |r| <= n && r <= s
  {
    if n <= |s| then s[..n] else s
  }

  /** The CFData the completion handler makes of one record of a supported family. */
  function Wrap(a: AddrInfo): Data {
    Data(Prefix(a.sockaddr, AddressSizeForSupportedFamily(a.family)))
  }

  /**
   The addresses a successful forward lookup yields: the records whose family
   is AF_INET or AF_INET6, wrapped, in list order.
   */
  function SupportedAddresses(results: seq<AddrInfo>): seq<Data>
  {
    if |results| == 0 then []
    else
      var last := results[|results| - 1];
      SupportedAddresses(results[..|results| - 1])
        + (if IsSupportedFamily(last.family) then [Wrap(last)] else [])
  }

  lemma {:induction false} SupportedAddressesAppend(xs: seq<AddrInfo>, ys: seq<AddrInfo>)
    ensures SupportedAddresses(xs + ys) == SupportedAddresses(xs) + SupportedAddresses(ys)
    decreases |ys|
  {
    if |ys| == 0 {
      assert xs + ys == xs;
    } else {
      var ys' := ys[..|ys| - 1];
      assert (xs + ys)[..|xs + ys| - 1] == xs + ys';
      SupportedAddressesAppend(xs, ys');
    }
  }

  /** Every kept address comes from a record of a supported family. */
  lemma {:induction false} SupportedAddressesSound(results: seq<AddrInfo>, d: Data)
    requires d in SupportedAddresses(results)
    ensures exists a :: a in results && IsSupportedFamily(a.family) && Wrap(a) == d
    decreases |results|
  {
    var n := |results|;
    var last := results[n - 1];
    if d in SupportedAddresses(results[..n - 1]) {
      SupportedAddressesSound(results[..n - 1], d);
      var a :| a in results[..n - 1] && IsSupportedFamily(a.family) && Wrap(a) == d;
      assert a in results;
    } else {
      assert IsSupportedFamily(last.family) && d == Wrap(last);
    }
  }

  /** Every record of a supported family is kept. */
  lemma {:induction false} SupportedAddressesComplete(results: seq<AddrInfo>, i: nat)
    requires i < |results| && IsSupportedFamily(results[i].family)
    ensures Wrap(results[i]) in SupportedAddresses(results)
    decreases |results|
  {
    var n := |results|;
    if i < n - 1 {
      SupportedAddressesComplete(results[..n - 1], i);
    }
  }

  /**
   The loop of _GetAddrInfoCallBackWithFree that walks the result list,
   skipping records of unsupported families and appending the others.
   */
  method CollectAddresses(results: seq<AddrInfo>) returns (addrs: seq<Data>)
    ensures addrs == SupportedAddresses(results)
    ensures |addrs| <= |results|
  {
    addrs := [];
    var i := 0;
    while i < |results|
      invariant 0 <= i <= |results|
      invariant addrs == SupportedAddresses(results[..i])
      invariant |addrs| <= i
    {
      var rec := results[i];
      assert results[..i + 1] == results[..i] + [rec];
      SupportedAddressesAppend(results[..i], [rec]);
      assert [rec][..0] == [];
      if !IsSupportedFamily(rec.family) {
        i := i + 1;
        continue;
      }
      var length := AddressSizeForSupportedFamily(rec.family);
      // length is positive for a supported family, so the data is always made
      addrs := addrs + [Data(Prefix(rec.sockaddr, length))];
      i := i + 1;
    }
    assert results[..i] == results;
  }
}
