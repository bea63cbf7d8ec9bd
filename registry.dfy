/**
 The registry of outstanding master lookups (_HostLookups): a host name maps
 to a list whose first slot is the master host resolving that name and whose
 other slots are the lookup sources of the client hosts waiting on it.
 H is the host type, T the lookup-source type.
 */
module Registry {
  import opened HostTypes

  datatype Slot<H, T> = MasterSlot(host: H) | ClientSlot(token: T, client: H)

  type Lookups<H, T> = map<string, seq<Slot<H, T>>>

  /** A master at index 0 followed by client slots only. */
  ghost predicate WellFormedList<H, T>(l: seq<Slot<H, T>>) {
    |l| >= 1 && l[0].MasterSlot? && forall i :: 1 <= i < |l| ==> l[i].ClientSlot?
  }

  ghost predicate WellFormed<H, T>(reg: Lookups<H, T>) {
    forall n :: n in reg ==> WellFormedList(reg[n])
  }

  predicate IsSlotOf<H, T(==)>(s: Slot<H, T>, token: T) {
    s.ClientSlot? && s.token == token
  }

  /** CFArrayGetFirstIndexOfValue on a list: the first slot holding this source. */
  function FirstIndex<H, T(==)>(l: seq<Slot<H, T>>, token: T): (r: Option<nat>)
    ensures r.Some? ==> r.value < |l| && IsSlotOf(l[r.value], token)
                        && forall k :: 0 <= k < r.value ==> !IsSlotOf(l[k], token)
    ensures r.None? ==> forall k :: 0 <= k < |l| ==> !IsSlotOf(l[k], token)
  {
    if |l| == 0 then None
    else if IsSlotOf(l[0], token) then Some(0)
    else match FirstIndex(l[1..], token)
      case None => None
      case Some(i) => Some(i + 1)
  }

  /**
   The unlinking step of CFHostCancelInfoResolution and CFHostSetClient for
   a host whose address lookup is `token`: remove the first slot holding
   the token from the list of `name`; if the list had exactly two slots, the
   name leaves the registry and its master is returned so that it can be shut down.
   */
  function Unlink<H, T(==)>(reg: Lookups<H, T>, name: string, token: T): (r: (Lookups<H, T>, Option<H>))
    requires WellFormed(reg)
  {
    if name !in reg then (reg, None)
    else
      var l := reg[name];
      match FirstIndex(l, token)
      case None => (reg, None)
      case Some(i) =>
        if |l| == 2 then (reg - {name}, Some(l[0].host))
        else (reg[name := l[..i] + l[i + 1..]], None)
  }

  /** Unlinking keeps the registry well formed and leaves every other name alone. */
  lemma UnlinkKeepsOthers<H, T>(reg: Lookups<H, T>, name: string, token: T)
    requires WellFormed(reg)
    ensures var (reg', _) := Unlink(reg, name, token);
      && WellFormed(reg')
      && (forall n :: n != name ==> (n in reg' <==> n in reg))
      && (forall n :: n != name && n in reg ==> reg'[n] == reg[n])
  {
    if name in reg && FirstIndex(reg[name], token).Some? {
      var l := reg[name];
      var i := FirstIndex(l, token).value;
      if |l| != 2 {
        var l' := l[..i] + l[i + 1..];
        assert l'[0] == l[0];
        forall k | 1 <= k < |l'| ensures l'[k].ClientSlot? {
          if k < i { assert l'[k] == l[k]; } else { assert l'[k] == l[k + 1]; }
        }
      }
    }
  }

  /**
   What unlinking does to the list of `name`: nothing when the token is not
   in it; otherwise exactly one slot with the token goes, the master stays
   first, and the master is handed back exactly when no client is left.
   */
  lemma UnlinkRemovesOneSlot<H, T>(reg: Lookups<H, T>, name: string, token: T)
    requires WellFormed(reg)
    ensures var (reg', collapsed) := Unlink(reg, name, token);
      && ((name !in reg || forall k :: 0 <= k < |reg[name]| ==> !IsSlotOf(reg[name][k], token))
            ==> reg' == reg && collapsed.None?)
      && (name in reg && (exists k :: 0 <= k < |reg[name]| && IsSlotOf(reg[name][k], token)) ==>
            && (collapsed.Some? <==> |reg[name]| == 2)
            && (collapsed.Some? ==> name !in reg' && collapsed.value == reg[name][0].host)
            && (collapsed.None? ==>
                  name in reg' && |reg'[name]| == |reg[name]| - 1 && reg'[name][0] == reg[name][0]
                  && multiset(reg'[name]) + multiset{FirstSlotOf(reg[name], token)} == multiset(reg[name])))
  {
    if name in reg {
      var l := reg[name];
      match FirstIndex(l, token)
      case None =>
      case Some(i) =>
        assert i >= 1;
        if |l| != 2 {
          assert l == l[..i] + [l[i]] + l[i + 1..];
          assert multiset(l) == multiset(l[..i]) + multiset{l[i]} + multiset(l[i + 1..]);
        }
    }
  }

  /** The slot FirstIndex finds (any slot when there is none). */
  function FirstSlotOf<H, T(==)>(l: seq<Slot<H, T>>, token: T): Slot<H, T>
    requires exists k :: 0 <= k < |l| && IsSlotOf(l[k], token)
  {
    l[FirstIndex(l, token).value]
  }

  /** The registration of a new master under a name not yet in the registry. */
  function Register<H, T>(reg: Lookups<H, T>, name: string, master: H): Lookups<H, T> {
    reg[name := [MasterSlot(master)]]
  }

  /** Appending a client source to the list of a registered name. */
  function AttachClient<H, T>(reg: Lookups<H, T>, name: string, token: T, client: H): (r: Lookups<H, T>)
    requires name in reg
  {
    reg[name := reg[name] + [ClientSlot(token, client)]]
  }

  /**
   A second requester for a name in flight joins the same master (the
   duplicate suppression described at the head of Host/CFHost.c): the master
   stays first, the list grows by exactly its slot, the registry stays well
   formed and other names are untouched.
   */
  lemma JoinSharesMaster<H, T>(reg: Lookups<H, T>, name: string, token: T, client: H)
    requires WellFormed(reg) && name in reg
    ensures var r := AttachClient(reg, name, token, client);
      && WellFormed(r)
      && r[name][0] == reg[name][0]
      && r[name] == reg[name] + [ClientSlot(token, client)]
      && (forall n :: n != name ==> (n in r <==> n in reg) && (n in reg ==> r[n] == reg[n]))
  {
  }

  /** A first requester whose master started is the only client of the new master. */
  lemma FirstRequesterIsSoleClient<H, T>(reg: Lookups<H, T>, name: string, master: H, token: T, client: H)
    requires WellFormed(reg) && name !in reg
    ensures var r := AttachClient(Register(reg, name, master), name, token, client);
      && WellFormed(r)
      && r[name] == [MasterSlot(master), ClientSlot(token, client)]
  {
  }
}
