/**
 * One PFD management transaction of an AF (internal/context/af_pfd_transaction.go):
 * its identifier and the set of external application identifiers provisioned
 * under it.
 */
module AfPfdTransactions {

  class AfPfdTransaction {
    /** The transaction identifier; the Go code never reassigns it. */
    const transID: string
    /** The Go map[string]bool whose keys are the provisioned application IDs. */
    var externalAppIDs: set<string>

    constructor (transID: string)
      ensures this.transID == transID
      ensures externalAppIDs == {}
    {
      this.transID := transID;
      externalAppIDs := {};
    }

    function GetTransID(): string
    {
      transID
    }

    /** Every provisioned application ID exactly once, in map order. */
    method GetExtAppIDs() returns (ids: seq<string>)
      ensures forall i, j :: 0 <= i < j < |ids| ==> ids[i] != ids[j]
      ensures forall a :: a in ids <==> a in externalAppIDs
      ensures |ids| == |externalAppIDs|
    {
      ids := [];
      var rest := externalAppIDs;
      while rest != {}
        invariant rest <= externalAppIDs
        invariant forall a :: a in ids <==> a in externalAppIDs && a !in rest
        invariant forall i, j :: 0 <= i < j < |ids| ==> ids[i] != ids[j]
        invariant |ids| + |rest| == |externalAppIDs|
        decreases |rest|
      {
        var a :| a in rest;
        ids := ids + [a];
        rest := rest - {a};
      }
    }

    predicate IsAppIDExisted(appID: string)
      reads this
    {
      appID in externalAppIDs
    }

    method AddExtAppID(appID: string)
      modifies this
      ensures IsAppIDExisted(appID)
      ensures externalAppIDs == old(externalAppIDs) + {appID}
      ensures old(IsAppIDExisted(appID)) ==> externalAppIDs == old(externalAppIDs)
    {
      externalAppIDs := externalAppIDs + {appID};
    }

    method DeleteExtAppID(appID: string)
      modifies this
      ensures !IsAppIDExisted(appID)
      ensures externalAppIDs == old(externalAppIDs) - {appID}
    {
      externalAppIDs := externalAppIDs - {appID};
    }

    method DeleteAllExtAppIDs()
      modifies this
      ensures externalAppIDs == {}
    {
      externalAppIDs := {};
    }
  }
}
