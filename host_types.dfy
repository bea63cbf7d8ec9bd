/**
 Shared vocabulary of the CFHost resolution engine: information types,
 stream errors, the values kept in a host's information map, platform
 resolver results and the client callbacks a completion hands back.
 */
module HostTypes {

  datatype Option<+T> = None | Some(value: T)

  /** A CFHostInfoType; the public values are those of CFHost.h. */
  type InfoType = int

  const Addresses: InfoType := 0
  const Names: InfoType := 1
  const Reachability: InfoType := 2
  /** Private information types of the engine. */
  const NullHostInfoType: InfoType := 0xFFFF_FFFF
  const IPv4Addresses: InfoType := 0x0000_FFFE
  const IPv6Addresses: InfoType := 0x0000_FFFD
  const MasterAddressLookup: InfoType := 0x0000_FFFC
  const ByPassMasterAddressLookup: InfoType := 0x0000_FFFB

  /** Error domains. */
  const DomainPOSIX: int := 1
  const DomainNetDB: int := 12
  const DomainSystemConfiguration: int := 13

  /** errno and netdb codes (glibc values). */
  const ENOMEM: int := 12
  const EOPNOTSUPP: int := 95
  const HOST_NOT_FOUND: int := 1
  const NETDB_INTERNAL: int := -1
  const EAI_SYSTEM: int := -11

  /** A CFStreamError: a domain and a code (the field `error` of the C struct). */
  datatype StreamError = StreamError(domain: int, code: int)

  const NoError := StreamError(0, 0)

  type Byte = bv8

  /** One wrapped socket address (a CFData holding a sockaddr). */
  datatype Data = Data(bytes: seq<Byte>)

  /**
   The value stored under an information type. `Resolved` is kCFNull: the
   lookup was performed and produced no data.
   */
  datatype InfoValue = Resolved | NameList(names: seq<string>) | AddressList(addrs: seq<Data>)

  /** One record of a getaddrinfo result list: the family and the bytes at ai_addr. */
  datatype AddrInfo = AddrInfo(family: int, sockaddr: seq<Byte>)

  /** The client callback functions the engine can hold. */
  datatype CallbackFn = UserCallback(id: nat) | MasterLookupCallBack

  /** The `info` pointer of a CFHostClientContext. */
  datatype Context = UserInfo(id: nat) | MasterName(name: string)

  /** A registered client: callback plus context. */
  datatype Client = Client(callback: CallbackFn, context: Context)

  /** A callback invocation that a completion makes once the host lock is released. */
  datatype Callout = Callout(callback: CallbackFn, kind: InfoType, error: StreamError, context: Context)

  /** What the platform resolver did when asked to start a lookup. */
  datatype StartOutcome = Started | StartFailed(error: StreamError)

  /** What the platform resolver delivers on completion of a forward lookup. */
  datatype GaiResult = GaiResult(status: int, errno: int, results: seq<AddrInfo>)

  /** One element of a host's schedules array: a run loop or a mode. */
  datatype ScheduleItem = RunLoop(loop: nat) | Mode(mode: string)
}
