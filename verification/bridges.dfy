/**
 * The collection of live bridges (client/backend connection pairs) the proxy
 * keeps so that it can close them all at once, and the behaviour its tests
 * fix for it.
 */
module Switchboard {

  /** The error result of a collection operation: none, or an error with its message. */
  datatype Outcome = Ok | Err(message: string)

  /** The message of the error `Remove` reports for a bridge that is not a member. */
  const BridgeNotFound: string := "Bridge not found"

  /**
   * One relay between a client socket and a backend socket. Only its
   * identity and the number of times it was closed are modelled.
   */
  class Bridge {
    ghost var closeCount: nat

    constructor ()
      ensures closeCount == 0
    {
      closeCount := 0;
    }

    method Close()
      modifies this
      ensures closeCount == old(closeCount) + 1
    {
      closeCount := closeCount + 1;
    }
  }

  class Bridges {
    /** The bridges currently held. */
    var members: set<Bridge>

    constructor ()
      ensures members == {}
    {
      members := {};
    }

    /** Adds `bridge`; adding a member again changes nothing. */
    method Add(bridge: Bridge)
      modifies this
      ensures members == old(members) + {bridge}
    {
      members := members + {bridge};
    }

    /**
     * Removes `bridge` without closing it; a bridge that is not a member
     * is reported as not found and nothing changes.
     */
    method Remove(bridge: Bridge) returns (err: Outcome)
      modifies this
      ensures old(bridge in members) ==> err == Ok && members == old(members) - {bridge}
      ensures old(bridge !in members) ==> err == Err(BridgeNotFound) && members == old(members)
    {
      if bridge !in members {
        return Err(BridgeNotFound);
      }
      members := members - {bridge};
      err := Ok;
    }

    /** Whether `bridge` is currently held. */
    method Contains(bridge: Bridge) returns (r: bool)
      ensures r <==> bridge in members
    {
      r := bridge in members;
    }

    /** The number of bridges currently held. */
    method Size() returns (n: nat)
      ensures n == |members|
    {
      n := |members|;
    }

    /**
     * Empties the collection and closes every bridge it held exactly once;
     * no other bridge is closed.
     */
    method RemoveAndCloseAll()
      modifies this, members
      ensures members == {}
      ensures forall b :: b in old(members) ==> b.closeCount == old(b.closeCount) + 1
    {
      var pending := members;
      members := {};
      while pending != {}
        invariant members == {}
        invariant pending <= old(members)
        invariant forall b :: b in old(members) && b !in pending ==> b.closeCount == old(b.closeCount) + 1
        invariant forall b :: b in pending ==> b.closeCount == old(b.closeCount)
        decreases pending
      {
        var b :| b in pending;
        b.Close();
        pending := pending - {b};
      }
    }
  }

  /** The common setup: a new collection to which three new bridges were added. */
  method ThreeBridges() returns (bridges: Bridges, b1: Bridge, b2: Bridge, b3: Bridge)
    ensures fresh(bridges) && fresh(b1) && fresh(b2) && fresh(b3)
    ensures b1 != b2 && b1 != b3 && b2 != b3
    ensures bridges.members == {b1, b2, b3}
    ensures b1.closeCount == 0 && b2.closeCount == 0 && b3.closeCount == 0
  {
    bridges := new Bridges();
    b1 := new Bridge();
    b2 := new Bridge();
    b3 := new Bridge();
    bridges.Add(b1);
    bridges.Add(b2);
    bridges.Add(b3);
  }

  /** Removing a member succeeds and removes only that member. */
  method RemoveRemovesOnlyTheGivenBridge() returns (err: Outcome, has1: bool, has2: bool, has3: bool, size: nat)
    ensures err == Ok
    ensures has1 && !has2 && has3
    ensures size == 2
  {
    var bridges, b1, b2, b3 := ThreeBridges();
    err := bridges.Remove(b2);
    has1 := bridges.Contains(b1);
    has2 := bridges.Contains(b2);
    has3 := bridges.Contains(b3);
    size := bridges.Size();
  }

  /** Removing a bridge that was never added fails with "Bridge not found". */
  method RemoveUnknownBridgeFails() returns (err: Outcome, has1: bool, has2: bool, has3: bool, size: nat)
    ensures err == Err("Bridge not found")
    ensures has1 && has2 && has3
    ensures size == 3
  {
    var bridges, b1, b2, b3 := ThreeBridges();
    var stranger := new Bridge();
    err := bridges.Remove(stranger);
    has1 := bridges.Contains(b1);
    has2 := bridges.Contains(b2);
    has3 := bridges.Contains(b3);
    size := bridges.Size();
  }

  /** RemoveAndCloseAll closes each of the three bridges once and leaves the collection empty. */
  method RemoveAndCloseAllClosesAndEmpties() returns (size: nat, ghost closes: seq<nat>)
    ensures closes == [1, 1, 1]
    ensures size == 0
  {
    var bridges, b1, b2, b3 := ThreeBridges();
    bridges.RemoveAndCloseAll();
    closes := [b1.closeCount, b2.closeCount, b3.closeCount];
    size := bridges.Size();
  }
}
