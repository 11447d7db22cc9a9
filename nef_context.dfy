/**
 * The NEF context (internal/context/nef_context.go): the NF instance
 * identifier, the correlation counter, the AF contexts keyed by AF
 * identifier, and the context's own copy of the PFD subscription index.
 * The read/write mutex is not modelled: each method is one atomic step.
 */
module NefContexts {
  import opened Common
  import opened Models
  import opened PfdSubIndex
  import opened AfPfdTransactions
  import opened AfSubscriptions
  import opened AfContexts

  /**
   * The registry as plain data (see NefContext.Registry): one (application,
   * AF, transaction) triple per application a transaction lists.
   */
  type Provisioning = set<(string, string, string)>

  ghost predicate ProvisionedIn(reg: Provisioning, appID: string)
  {
    exists a, t :: (appID, a, t) in reg
  }

  /** The application is provisioned by some transaction other than (afID, transID). */
  ghost predicate ProvisionedElsewhere(reg: Provisioning, appID: string, afID: string, transID: string)
  {
    exists a, t :: (appID, a, t) in reg && (a != afID || t != transID)
  }

  /** No application is provisioned by two transactions. */
  ghost predicate Unique(reg: Provisioning)
  {
    forall e1, e2 :: e1 in reg && e2 in reg && e1.0 == e2.0 ==> e1 == e2
  }

  /** The triples of transaction transID of AF afID. */
  function AtTrans(reg: Provisioning, afID: string, transID: string): (r: Provisioning)
  {
    set e | e in reg && e.1 == afID && e.2 == transID
  }

  /** The triples of the AF afID. */
  function AtAf(reg: Provisioning, afID: string): (r: Provisioning)
  {
    set e | e in reg && e.1 == afID
  }

  /** One triple per application of `apps`, all under transaction transID of AF afID. */
  function Triples(apps: set<string>, afID: string, transID: string): (r: Provisioning)
  {
    set app | app in apps :: (app, afID, transID)
  }

  class NefContext {
    var nfInstID: string
    var numCorreID: nat
    var afCtxs: map<string, AfContext>
    var pfdSubInfo: PfdSubInfo

    /**
     * Every AF context is stored under its own AF identifier and is itself
     * valid; the subscription index is consistent.
     */
    ghost predicate Valid()
      reads this, afCtxs.Values
    {
      (forall id :: id in afCtxs ==> afCtxs[id].afID == id && afCtxs[id].Valid()) &&
      IndexValid(pfdSubInfo.numPfdSubID, pfdSubInfo.appIdToSubIDs, pfdSubInfo.subIdToURI)
    }

    /** NewNefContext; the random UUID it draws is the parameter. */
    constructor (nfInstID: string)
      ensures this.nfInstID == nfInstID && numCorreID == 0 && afCtxs == map[]
      ensures pfdSubInfo == PfdSubInfo(0, map[], map[])
      ensures Valid()
    {
      this.nfInstID := nfInstID;
      numCorreID := 0;
      afCtxs := map[];
      pfdSubInfo := PfdSubInfo(0, map[], map[]);
    }

    function GetNfInstID(): string
      reads this
    {
      nfInstID
    }

    method SetNfInstID(id: string)
      modifies this`nfInstID
      ensures nfInstID == id
    {
      nfInstID := id;
    }

    /** The stored context of the AF, or a fresh empty one that is not yet stored. */
    method NewAfCtx(afID: string) returns (afc: AfContext)
      ensures afID in afCtxs ==> afc == afCtxs[afID]
      ensures afID !in afCtxs ==>
        fresh(afc) && afc.afID == afID && afc.numSubscID == 0 && afc.numTransID == 0 &&
        afc.subsc == map[] && afc.pfdTrans == map[] && afc.Valid()
    {
      if afID in afCtxs {
        return afCtxs[afID];
      }
      afc := new AfContext(afID);
    }

    method AddAfCtx(afc: AfContext)
      modifies this`afCtxs
      ensures afCtxs == old(afCtxs)[afc.afID := afc]
      ensures GetAfCtx(afc.afID) == afc
      ensures old(Valid()) && afc.Valid() ==> Valid()
    {
      afCtxs := afCtxs[afc.afID := afc];
    }

    function GetAfCtx(afID: string): AfContext?
      reads this
    {
      if afID in afCtxs then afCtxs[afID] else null
    }

    /** Deleting an absent AF is a no-op. */
    method DeleteAfCtx(afID: string)
      modifies this`afCtxs
      ensures afCtxs == old(afCtxs) - {afID}
      ensures GetAfCtx(afID) == null
      ensures old(Valid()) ==> Valid()
    {
      if afID !in afCtxs {
        return;
      }
      afCtxs := afCtxs - {afID};
    }

    /**
     * NewAfSubsc: advances the correlation counter and lets the AF context
     * create the subscription record with it; nothing is inserted.
     */
    method NewAfSubsc(afc: AfContext) returns (s: AfSubscription)
      requires afc.Valid()
      modifies this`numCorreID, afc`numSubscID
      ensures afc.Valid()
      ensures numCorreID == old(numCorreID) + 1 && afc.numSubscID == old(afc.numSubscID) + 1
      ensures fresh(s)
      ensures s.notifCorreID == NatToString(numCorreID) && s.subscID == NatToString(afc.numSubscID)
      ensures s.appSessID == "" && s.influID == "" && !s.storeLoc
      ensures forall id :: Issued(id, old(numCorreID)) ==> id != s.notifCorreID
      ensures s.subscID !in afc.subsc
      ensures old(Valid()) ==> Valid()
    {
      numCorreID := numCorreID + 1;
      s := afc.NewSubsc(numCorreID);
      forall id | Issued(id, old(numCorreID)) ensures id != s.notifCorreID {
        NextIdIsFresh(id, old(numCorreID));
      }
    }

    method NewAfPfdTrans(afc: AfContext) returns (t: AfPfdTransaction)
      requires afc.Valid()
      modifies afc`numTransID
      ensures afc.Valid()
      ensures afc.numTransID == old(afc.numTransID) + 1
      ensures fresh(t) && t.transID == NatToString(afc.numTransID) && t.externalAppIDs == {}
      ensures t.transID !in afc.pfdTrans && Issued(t.transID, afc.numTransID)
      ensures old(Valid()) ==> Valid()
      ensures old(Consistent()) ==> Consistent()
      ensures Registry() == old(Registry()) && t !in Transactions()
    {
      t := afc.NewPfdTrans();
      assert Issued(t.transID, afc.numTransID);
    }

    /** Every transaction object reachable from the registry. */
    ghost function Transactions(): set<AfPfdTransaction>
      reads this, afCtxs.Values
    {
      set a, t | a in afCtxs.Values && t in a.pfdTrans.Values :: t
    }

    /** The application is listed by transaction transID of the registered AF afID. */
    ghost predicate ProvisionedAt(appID: string, afID: string, transID: string)
      reads this, afCtxs.Values, Transactions()
    {
      afID in afCtxs && transID in afCtxs[afID].pfdTrans &&
      var t := afCtxs[afID].pfdTrans[transID];
      assert afCtxs[afID] in afCtxs.Values && t in afCtxs[afID].pfdTrans.Values;
      appID in t.externalAppIDs
    }

    /**
     * The provisioning as plain data: one (application, AF, transaction)
     * triple per application a transaction lists.
     */
    ghost function Registry(): (r: set<(string, string, string)>)
      reads this, afCtxs.Values, Transactions()
      ensures forall app, a, t :: (app, a, t) in r <==> ProvisionedAt(app, a, t)
    {
      set a, t, app | a in afCtxs && t in afCtxs[a].pfdTrans && app in AppsAt(a, t) :: (app, a, t)
    }

    /** The applications transaction transID of AF afID lists; none when either is missing. */
    ghost function AppsAt(afID: string, transID: string): set<string>
      reads this, afCtxs.Values, Transactions()
    {
      if afID in afCtxs && transID in afCtxs[afID].pfdTrans then
        var t := afCtxs[afID].pfdTrans[transID];
        assert afCtxs[afID] in afCtxs.Values && t in afCtxs[afID].pfdTrans.Values;
        t.externalAppIDs
      else {}
    }

    /** No transaction object is stored under two AFs. */
    ghost predicate Separate()
      reads this, afCtxs.Values
    {
      forall a1, a2, t1, t2 ::
        a1 in afCtxs && a2 in afCtxs && a1 != a2 && t1 in afCtxs[a1].pfdTrans && t2 in afCtxs[a2].pfdTrans ==>
          afCtxs[a1].pfdTrans[t1] != afCtxs[a2].pfdTrans[t2]
    }

    /**
     * The context is valid, no transaction object is shared by two AFs, and
     * each application is provisioned by one transaction at most.
     */
    ghost predicate Consistent()
      reads this, afCtxs.Values, Transactions()
    {
      Valid() && Separate() && Unique(Registry())
    }

    /** The AF context of afID, as a frame. */
    ghost function AfObj(afID: string): set<AfContext>
      reads this
    {
      if afID in afCtxs then {afCtxs[afID]} else {}
    }

    /** The transaction transID of AF afID, as a frame. */
    ghost function TransObj(afID: string, transID: string): set<object>
      reads this, afCtxs.Values
    {
      if afID in afCtxs && transID in afCtxs[afID].pfdTrans then {afCtxs[afID].pfdTrans[transID]} else {}
    }

    ghost predicate Provisioned(appID: string)
      reads this, afCtxs.Values, Transactions()
    {
      exists afID, transID :: ProvisionedAt(appID, afID, transID)
    }

    /**
     * Which AF and transaction (if any) provision the application: a
     * map-order scan of the AF contexts, each scanning its transactions.
     */
    method IsAppIDExisted(appID: string) returns (found: bool, afID: string, transID: string)
      requires Valid()
      ensures found <==> Provisioned(appID)
      ensures found ==> ProvisionedAt(appID, afID, transID)
      ensures !found ==> afID == "" && transID == ""
    {
      var rest := afCtxs.Keys;
      while rest != {}
        invariant rest <= afCtxs.Keys
        invariant forall id :: id in afCtxs.Keys - rest ==> !afCtxs[id].HasApp(appID)
        decreases |rest|
      {
        var id :| id in rest;
        var exist, tID := afCtxs[id].IsAppIDExisted(appID);
        if exist {
          assert ProvisionedAt(appID, id, tID);
          return true, afCtxs[id].GetAfID(), tID;
        }
        rest := rest - {id};
      }
      assert !Provisioned(appID) by {
        forall a, t | ProvisionedAt(appID, a, t) ensures false {
          assert afCtxs[a].HasApp(appID);
        }
      }
      return false, "", "";
    }

    /** The AF context and its transaction, or which of the two is missing. */
    function GetAfCtxAndPfdTransWithTransID(afID: string, transID: string): (r: Result<(AfContext, AfPfdTransaction)>)
      reads this, afCtxs.Values
      ensures r.Ok? <==> afID in afCtxs && transID in afCtxs[afID].pfdTrans
      ensures r.Ok? ==> r.value.0 == afCtxs[afID] && r.value.1 == afCtxs[afID].pfdTrans[transID]
      ensures afID !in afCtxs ==> r == Err("AF not found")
      ensures afID in afCtxs && transID !in afCtxs[afID].pfdTrans ==> r == Err("Transaction not found")
    {
      if afID !in afCtxs then Err("AF not found")
      else
        var afCtx := afCtxs[afID];
        if transID !in afCtx.pfdTrans then Err("Transaction not found")
        else Ok((afCtx, afCtx.pfdTrans[transID]))
    }

    /** The transaction when it lists the application; otherwise the first failing lookup. */
    function GetPfdTransWithAppID(afID: string, transID: string, appID: string): (r: Result<AfPfdTransaction>)
      reads this, afCtxs.Values, Transactions()
      ensures r.Ok? <==> ProvisionedAt(appID, afID, transID)
      ensures r.Ok? ==> r.value == afCtxs[afID].pfdTrans[transID]
      ensures r.Err? ==> r.error in {"AF not found", "Transaction not found", "Application ID not found"}
      ensures afID !in afCtxs ==> r == Err("AF not found")
      ensures afID in afCtxs && transID !in afCtxs[afID].pfdTrans ==> r == Err("Transaction not found")
      ensures afID in afCtxs && transID in afCtxs[afID].pfdTrans && r.Err? ==> r.error == "Application ID not found"
    {
      match GetAfCtxAndPfdTransWithTransID(afID, transID)
      case Err(e) => Err(e)
      case Ok(_) =>
        var t := afCtxs[afID].pfdTrans[transID];
        assert afCtxs[afID] in afCtxs.Values && t in afCtxs[afID].pfdTrans.Values;
        if !t.IsAppIDExisted(appID) then Err("Application ID not found") else Ok(t)
    }

    method AddPfdSub(pfdSub: PfdSubscription) returns (subID: string)
      requires Valid()
      modifies this`pfdSubInfo
      ensures Valid()
      ensures pfdSubInfo.numPfdSubID == old(pfdSubInfo.numPfdSubID) + 1
      ensures subID == NatToString(pfdSubInfo.numPfdSubID) && subID !in old(pfdSubInfo.subIdToURI)
      ensures pfdSubInfo.subIdToURI == old(pfdSubInfo.subIdToURI)[subID := pfdSub.notifyUri]
      ensures pfdSubInfo.appIdToSubIDs == Indexed(old(pfdSubInfo.appIdToSubIDs), pfdSub.applicationIds, subID)
    {
      pfdSubInfo, subID := AddSub(pfdSubInfo, pfdSub);
    }

    method DeletePfdSub(subID: string) returns (err: Option<string>)
      requires Valid()
      modifies this`pfdSubInfo
      ensures Valid()
      ensures subID !in old(pfdSubInfo.subIdToURI) ==>
        err == Some("Subscription not found") && pfdSubInfo == old(pfdSubInfo)
      ensures subID in old(pfdSubInfo.subIdToURI) ==>
        err == None &&
        pfdSubInfo.subIdToURI == old(pfdSubInfo.subIdToURI) - {subID} &&
        pfdSubInfo.appIdToSubIDs == Unindexed(old(pfdSubInfo.appIdToSubIDs), subID)
    {
      pfdSubInfo, err := DeleteSub(pfdSubInfo, subID);
    }
  }

  /** Registering applications nobody provisions keeps each application at one transaction at most. */
  lemma UniqueExtend(reg: Provisioning, apps: set<string>, afID: string, transID: string)
    requires Unique(reg)
    requires forall a :: a in apps ==> !ProvisionedIn(reg, a)
    ensures Unique(reg + Triples(apps, afID, transID))
  {
    var all := reg + Triples(apps, afID, transID);
    forall e1, e2 | e1 in all && e2 in all && e1.0 == e2.0 ensures e1 == e2 {
      if e1 in reg && e2 !in reg {
        assert false;
      } else if e2 in reg && e1 !in reg {
        assert false;
      }
    }
  }

  /** reg1 is reg0 with the applications of transaction (afID, transID) replaced by `apps`. */
  ghost predicate Retargeted(reg0: Provisioning, reg1: Provisioning, afID: string, transID: string, apps: set<string>)
  {
    forall app, a, t :: (app, a, t) in reg1 <==> if a == afID && t == transID then app in apps else (app, a, t) in reg0
  }

  /** The registry after a retarget, as a set expression. */
  lemma RetargetedRegistry(reg0: Provisioning, reg1: Provisioning, afID: string, transID: string, apps: set<string>)
    requires Retargeted(reg0, reg1, afID, transID, apps)
    ensures reg1 == (reg0 - AtTrans(reg0, afID, transID)) + Triples(apps, afID, transID)
  {
    forall e ensures e in reg1 <==> e in (reg0 - AtTrans(reg0, afID, transID)) + Triples(apps, afID, transID) {
      assert e == (e.0, e.1, e.2);
    }
  }

  /** Retargeting a transaction to the applications it already has changes nothing. */
  lemma RetargetSame(reg: Provisioning, apps: set<string>, afID: string, transID: string)
    requires AtTrans(reg, afID, transID) == Triples(apps, afID, transID)
    ensures (reg - AtTrans(reg, afID, transID)) + Triples(apps, afID, transID) == reg
  {
  }

  /**
   * Replacing the applications of transaction (afID, transID) with `apps`,
   * none of which another transaction provisions, keeps each application at
   * one transaction at most.
   */
  lemma UniqueReplace(reg: Provisioning, apps: set<string>, afID: string, transID: string)
    requires Unique(reg)
    requires forall a :: a in apps ==> !ProvisionedIn(reg, a) || (a, afID, transID) in reg
    ensures Unique((reg - AtTrans(reg, afID, transID)) + Triples(apps, afID, transID))
  {
    var kept := reg - AtTrans(reg, afID, transID);
    var all := kept + Triples(apps, afID, transID);
    forall e1, e2 | e1 in all && e2 in all && e1.0 == e2.0 ensures e1 == e2 {
      if e1 in kept && e2 !in kept {
        assert false;
      } else if e2 in kept && e1 !in kept {
        assert false;
      }
    }
  }

  /** A transaction stored in the registry is one of its Transactions(). */
  lemma InTransactions(n: NefContext, afID: string, transID: string)
    requires afID in n.afCtxs && transID in n.afCtxs[afID].pfdTrans
    ensures n.afCtxs[afID].pfdTrans[transID] in n.Transactions()
  {
    assert n.afCtxs[afID] in n.afCtxs.Values;
    assert n.afCtxs[afID].pfdTrans[transID] in n.afCtxs[afID].pfdTrans.Values;
  }

  /** Registry membership spelled out on the AF contexts and their transactions. */
  lemma RegistryMember(n: NefContext, appID: string, afID: string, transID: string)
    ensures (appID, afID, transID) in n.Registry() <==>
            afID in n.afCtxs && transID in n.afCtxs[afID].pfdTrans &&
            appID in n.afCtxs[afID].pfdTrans[transID].externalAppIDs
  {
  }

  /** The transaction maps of the AFs, as plain data. */
  type Layout = map<string, map<string, AfPfdTransaction>>

  /** No transaction object appears under two AFs of the layout. */
  ghost predicate SeparateIn(before: Layout)
  {
    forall a1, a2, t1, t2 :: a1 in before && a2 in before && a1 != a2 && t1 in before[a1] && t2 in before[a2] ==>
      before[a1][t1] != before[a2][t2]
  }

  /**
   * The AF contexts of `n` are those of `before` with transaction `t`
   * added to AF afID under its own identifier.
   */
  ghost predicate AddedTo(n: NefContext, before: Layout, afID: string, t: AfPfdTransaction)
    reads n, n.afCtxs.Values
  {
    n.afCtxs.Keys == before.Keys && afID in before &&
    (forall a :: a in before && a != afID ==> n.afCtxs[a].pfdTrans == before[a]) &&
    n.afCtxs[afID].pfdTrans == before[afID][t.transID := t]
  }

  /** Adding a transaction object found under no AF keeps the transactions of different AFs apart. */
  lemma SeparateAfterAdd(n: NefContext, before: Layout, afID: string, t: AfPfdTransaction)
    requires AddedTo(n, before, afID, t) && SeparateIn(before)
    requires forall a, tr :: a in before && tr in before[a] ==> before[a][tr] != t
    ensures n.Separate()
  {
    forall a1, a2, t1, t2 | a1 in n.afCtxs && a2 in n.afCtxs && a1 != a2 &&
                            t1 in n.afCtxs[a1].pfdTrans && t2 in n.afCtxs[a2].pfdTrans
      ensures n.afCtxs[a1].pfdTrans[t1] != n.afCtxs[a2].pfdTrans[t2]
    {
      if a1 == afID && t1 == t.transID {
        assert t2 in before[a2];
      } else if a2 == afID && t2 == t.transID {
        assert t1 in before[a1];
      } else {
        assert t1 in before[a1] && t2 in before[a2];
      }
    }
  }

  /** Adding a new transaction to AF afID adds its applications' triples to the registry and nothing else. */
  lemma RegistryAfterAdd(n: NefContext, before: Layout, reg: Provisioning, afID: string, t: AfPfdTransaction)
    requires AddedTo(n, before, afID, t) && t.transID !in before[afID]
    requires forall app, a, tr :: (app, a, tr) in reg <==>
               a in before && tr in before[a] && app in before[a][tr].externalAppIDs
    ensures n.Registry() == reg + Triples(t.externalAppIDs, afID, t.transID)
  {
    forall e ensures e in n.Registry() <==> e in reg + Triples(t.externalAppIDs, afID, t.transID) {
      RegistryMember(n, e.0, e.1, e.2);
      if e.1 == afID && e.2 == t.transID {
        assert (e.0, afID, t.transID) !in reg;
      } else if e.1 == afID {
      } else if e.1 in before {
        assert n.afCtxs[e.1].pfdTrans == before[e.1];
      }
    }
  }

  lemma AtTransOfRegistry(n: NefContext, afID: string, transID: string)
    requires afID in n.afCtxs && transID in n.afCtxs[afID].pfdTrans
    ensures AtTrans(n.Registry(), afID, transID) == Triples(n.afCtxs[afID].pfdTrans[transID].externalAppIDs, afID, transID)
  {
    var apps := n.afCtxs[afID].pfdTrans[transID].externalAppIDs;
    forall e | e in Triples(apps, afID, transID) ensures e in AtTrans(n.Registry(), afID, transID) {
      assert n.ProvisionedAt(e.0, afID, transID);
    }
  }
}
