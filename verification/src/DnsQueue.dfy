/** The queue of resolver objects that the asynchronous DNS workers share, linked through the objects themselves. */
module DnsQueue {
  import opened Common

  type Address = nat

  datatype ResolverState = Unused | Active | Complete | Canceled

  class DNSResolver {
    var pNext: DNSResolver?
    var mState: ResolverState
    var onComplete: bool
    var maxAddrs: nat
    var numAddrs: nat
    var result: Error

    constructor ()
      ensures mState == Unused && pNext == null
    {
      pNext, mState, onComplete, maxAddrs, numAddrs, result := null, Unused, false, 0, 0, NoError;
    }
  }

  /** AsyncDNSResolverSockets: `requests` is the queue from head to tail. */
  class AsyncDNSResolver {
    var mHead: DNSResolver?
    var mTail: DNSResolver?
    var initialized: bool
    ghost var requests: seq<DNSResolver>

    ghost predicate Valid()
      reads this, requests
    {
      && (mHead == null <==> requests == []) && (mTail == null <==> requests == [])
      && (requests != [] ==> mHead == requests[0] && mTail == requests[|requests| - 1] && mTail.pNext == null)
      && (forall i :: 0 <= i < |requests| - 1 ==> requests[i].pNext == requests[i + 1])
      && (forall i, j :: 0 <= i < j < |requests| ==> requests[i] != requests[j])
    }

    constructor ()
      ensures Valid() && requests == [] && initialized
    {
      mHead, mTail, initialized, requests := null, null, true, [];
    }

    method PrepareDNSResolver(resolver: DNSResolver, maxAddrs: nat, onComplete: bool)
      requires Valid() && resolver !in requests
      modifies resolver
      ensures Valid() && resolver.pNext == null && resolver.mState == Active
      ensures resolver.maxAddrs == maxAddrs && resolver.numAddrs == 0 && resolver.onComplete == onComplete
        && resolver.result == NoError
    {
      resolver.maxAddrs, resolver.numAddrs, resolver.onComplete := maxAddrs, 0, onComplete;
      resolver.result, resolver.mState, resolver.pNext := NoError, Active, null;
    }

    /** The request goes to the end of the queue. */
    method EnqueueRequest(resolver: DNSResolver)
      requires Valid() && resolver !in requests && resolver.pNext == null
      modifies this, requests
      ensures Valid() && requests == old(requests) + [resolver] && initialized == old(initialized)
      ensures forall r :: r in old(requests) ==> r.mState == old(r.mState)
    {
      if mHead == null {
        mHead := resolver;
      }
      if mTail != null {
        mTail.pNext := resolver;
      }
      mTail := resolver;
      requests := requests + [resolver];
    }

    /** The oldest request leaves the queue; none does on shutdown, or while a worker would have to wait. */
    method DequeueRequest() returns (resolver: DNSResolver?)
      requires Valid()
      modifies this
      ensures Valid() && initialized == old(initialized)
      ensures resolver != null <==> initialized && old(requests) != []
      ensures resolver != null ==> old(requests) == [resolver] + requests
      ensures resolver == null ==> requests == old(requests)
    {
      if !initialized || mHead == null {
        return null;
      }
      resolver := mHead;
      assert |requests| > 1 ==> mHead.pNext == requests[1];
      mHead := mHead.pNext;
      requests := requests[1..];
      assert forall i :: 0 <= i < |requests| ==> requests[i] == old(requests)[i + 1];
      if mHead == null {
        mTail := null;
      }
    }

    /** Copy as many of the addresses found as the caller has room for. */
    method UpdateDNSResult(resolver: DNSResolver, addrArray: array<Address>, found: seq<Address>)
      requires resolver.maxAddrs <= addrArray.Length
      modifies resolver`numAddrs, addrArray
      ensures resolver.numAddrs == Min(|found|, resolver.maxAddrs)
      ensures addrArray[..resolver.numAddrs] == found[..resolver.numAddrs]
      ensures addrArray[resolver.numAddrs..] == old(addrArray[..])[resolver.numAddrs..]
    {
      resolver.numAddrs := 0;
      while resolver.numAddrs < |found| && resolver.numAddrs < resolver.maxAddrs
        invariant resolver.numAddrs <= |found| && resolver.numAddrs <= resolver.maxAddrs
        invariant addrArray[..resolver.numAddrs] == found[..resolver.numAddrs]
        invariant addrArray[resolver.numAddrs..] == old(addrArray[..])[resolver.numAddrs..]
      {
        addrArray[resolver.numAddrs] := found[resolver.numAddrs];
        resolver.numAddrs := resolver.numAddrs + 1;
      }
    }
  }
}
