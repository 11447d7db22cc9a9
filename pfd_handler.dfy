/**
 * The PFD management handlers of 3GPP TS 29.122 clause 5.11
 * (internal/processor/pfd_handler.go): the transaction and application
 * resources of an AF, stored in the UDR and recorded in the NEF context, with
 * change notifications queued for the PFD subscribers.
 *
 * Each handler that creates a notification context flushes it on every
 * return (the deferred FlushNotifications); the batch it flushes is returned
 * beside the response, and the ghost `changes` lists the notifications queued,
 * in order. A handler that returns before creating the context flushes
 * nothing.
 */
module PfdHandler {
  import opened Common
  import opened Models
  import opened PfdRules
  import opened PfdValidation
  import opened AfPfdTransactions
  import opened AfContexts
  import opened NefContexts
  import opened PfdNotifier
  import InternalFactory

  /** The notification queued when an application's PFDs are removed. */
  function Removal(appID: string): PfdChangeNotification
  {
    PfdChangeNotification(appID, true, [])
  }

  /** The UDR accepted a PUT of the application's PFDs (200 or 201). */
  predicate Stores(udr: UdrPfds, appID: string)
  {
    udr.appIdPut(appID) == StatusOK || udr.appIdPut(appID) == StatusCreated
  }

  /** The UDR deleted the application's PFDs (204). */
  predicate Deletes(udr: UdrPfds, appID: string)
  {
    udr.appIdDelete(appID).status == StatusNoContent
  }

  /**
   * The notification queued for an application whose PFDs were stored: its
   * PFD contents listed in the map order `ord`.
   */
  function Announcement(appID: string, d: PfdData, ord: seq<string>): PfdChangeNotification
    requires forall i :: 0 <= i < |ord| ==> ord[i] in d.pfds
  {
    PfdChangeNotification(appID, false, ContentsOf(d.pfds, ord))
  }

  /** Removal notifications for the applications of `ids`, in order. */
  function Removals(ids: seq<string>): (r: seq<Change>)
    ensures |r| == |ids|
    ensures forall i :: 0 <= i < |ids| ==> r[i] == Change(ids[i], Removal(ids[i]))
  {
    if ids == [] then [] else Removals(ids[..|ids| - 1]) + [Change(ids[|ids| - 1], Removal(ids[|ids| - 1]))]
  }

  /**
   * How many applications of `ids`, taken in order, the UDR deletes before
   * the first one it refuses to delete.
   */
  function DeletedPrefix(udr: UdrPfds, ids: seq<string>): (n: nat)
    ensures n <= |ids|
    ensures forall i :: 0 <= i < n ==> Deletes(udr, ids[i])
    ensures n < |ids| ==> !Deletes(udr, ids[n])
  {
    if ids == [] || !Deletes(udr, ids[0]) then 0 else 1 + DeletedPrefix(udr, ids[1..])
  }

  /** One more application of `ids` deleted is one more removal queued. */
  lemma RemovalsStep(ids: seq<string>, i: nat)
    requires i < |ids|
    ensures Removals(ids[..i + 1]) == Removals(ids[..i]) + [Change(ids[i], Removal(ids[i]))]
  {
    assert ids[..i + 1][..i] == ids[..i];
  }

  lemma AllRemovalsSnoc(orders: seq<seq<string>>, ids: seq<string>)
    ensures AllRemovals(orders + [ids]) == AllRemovals(orders) + Removals(ids)
  {
    assert (orders + [ids])[..|orders|] == orders;
  }

  /** The triples of the transactions `transIDs` of AF afID. */
  function AtTransIn(reg: Provisioning, afID: string, transIDs: set<string>): Provisioning
  {
    set e | e in reg && e.1 == afID && e.2 in transIDs
  }

  /** The loop of DeletePFDManagementTransactions' afCtx.DeletePfdTrans calls, over `transIDs`. */
  method DeletePfdTransAll(afCtx: AfContext, transIDs: seq<string>)
    requires afCtx.Valid()
    modifies afCtx`pfdTrans
    ensures afCtx.Valid()
    ensures afCtx.pfdTrans == old(afCtx.pfdTrans) - Elems(transIDs)
    ensures unchanged(afCtx`subsc) && afCtx.numSubscID == old(afCtx.numSubscID) && afCtx.numTransID == old(afCtx.numTransID)
  {
    var i := 0;
    while i < |transIDs|
      invariant i <= |transIDs|
      invariant afCtx.Valid()
      invariant afCtx.pfdTrans == old(afCtx.pfdTrans) - Elems(transIDs[..i])
      invariant unchanged(afCtx`subsc) && afCtx.numSubscID == old(afCtx.numSubscID) && afCtx.numTransID == old(afCtx.numTransID)
    {
      afCtx.DeletePfdTrans(transIDs[i]);
      assert Elems(transIDs[..i + 1]) == Elems(transIDs[..i]) + {transIDs[i]} by {
        assert transIDs[..i + 1] == transIDs[..i] + [transIDs[i]];
      }
      i := i + 1;
    }
    assert transIDs[..i] == transIDs;
  }

  /** Removal notifications for the applications of each list of `orders`, list after list. */
  function AllRemovals(orders: seq<seq<string>>): seq<Change>
  {
    if orders == [] then [] else AllRemovals(orders[..|orders| - 1]) + Removals(orders[|orders| - 1])
  }

  // ---------------------------------------------------------------------------
  // The create/replace loop over the applications of a request
  // ---------------------------------------------------------------------------

  /** The applications of `order` the UDR refuses to store, in order. */
  function Refused(udr: UdrPfds, order: seq<string>): (r: seq<string>)
    ensures |r| <= |order|
    ensures forall a :: a in r <==> a in order && !Stores(udr, a)
  {
    if order == [] then []
    else
      var n := |order| - 1;
      assert order == order[..n] + [order[n]];
      Refused(udr, order[..n]) + (if Stores(udr, order[n]) then [] else [order[n]])
  }

  /**
   * One pass of the create/replace loop on the request `r`: a stored
   * application's PfdData gets its URI, a refused one is removed and
   * reported under MALFUNCTION.
   */
  function StoreStep(udr: UdrPfds, sbi: string, afID: string, transID: string, mng: PfdManagement,
                     r: PfdManagement, a: string): PfdManagement
    requires a in mng.pfdDatas
  {
    if Stores(udr, a) then
      r.(pfdDatas := r.pfdDatas[a := mng.pfdDatas[a].(self := GenPfdDataURI(sbi, afID, transID, a))])
    else
      r.(pfdDatas := r.pfdDatas - {a}, pfdReports := AddPfdReport(r.pfdReports, SingleReport(a, MALFUNCTION)))
  }

  /** The request as the create/replace loop leaves it for transaction transID after visiting the applications of `order`. */
  function StoreOutcome(udr: UdrPfds, sbi: string, afID: string, transID: string, mng: PfdManagement,
                        order: seq<string>): PfdManagement
    requires forall i :: 0 <= i < |order| ==> order[i] in mng.pfdDatas
  {
    if order == [] then mng
    else
      var n := |order| - 1;
      StoreStep(udr, sbi, afID, transID, mng, StoreOutcome(udr, sbi, afID, transID, mng, order[..n]), order[n])
  }

  /** The notification one pass of the loop queues: the PFDs `content` of a stored application, nothing for a refused one. */
  function StoreNote(udr: UdrPfds, a: string, content: seq<PfdContent>): seq<Change>
  {
    if Stores(udr, a) then [Change(a, PfdChangeNotification(a, false, content))] else []
  }

  /**
   * The notifications the create/replace loop queues: one per stored
   * application of `order`, carrying its converted PFDs `contents[i]`.
   */
  function StoreChanges(udr: UdrPfds, order: seq<string>, contents: seq<seq<PfdContent>>): seq<Change>
    requires |contents| == |order|
  {
    if order == [] then []
    else
      var n := |order| - 1;
      StoreChanges(udr, order[..n], contents[..n]) + StoreNote(udr, order[n], contents[n])
  }

  /** `content` is the PFD data `d` converted for the UDR, its PFDs listed in the map order `pord`. */
  ghost predicate ConvertedData(d: PfdData, pord: seq<string>, content: seq<PfdContent>)
  {
    IsEnumeration(pord, d.pfds.Keys) &&
    (forall j :: 0 <= j < |pord| ==> pord[j] in d.pfds) &&
    content == ContentsOf(d.pfds, pord)
  }

  /** contents[i] is the PFD data of application order[i] converted for the UDR. */
  ghost predicate Converted(mng: PfdManagement, order: seq<string>, pords: seq<seq<string>>, contents: seq<seq<PfdContent>>)
  {
    |pords| == |order| && |contents| == |order| &&
    forall i :: 0 <= i < |order| ==> order[i] in mng.pfdDatas && ConvertedData(mng.pfdDatas[order[i]], pords[i], contents[i])
  }

  /**
   * The progress of the create/replace loop once the applications outside
   * `rest` were visited in the order `order`, their PFD data converted as
   * `contents`: they joined the transaction (`apps0` before the loop,
   * `apps` now).
   */
  ghost predicate StoreVisited(mng: PfdManagement, rest: set<string>, order: seq<string>, pords: seq<seq<string>>,
                               contents: seq<seq<PfdContent>>, apps0: set<string>, apps: set<string>)
  {
    rest <= mng.pfdDatas.Keys &&
    IsEnumeration(order, mng.pfdDatas.Keys - rest) && Converted(mng, order, pords, contents) &&
    apps == apps0 + (mng.pfdDatas.Keys - rest)
  }

  /** Before the loop nothing is visited. */
  lemma StoreVisitedInit(mng: PfdManagement, apps0: set<string>)
    ensures StoreVisited(mng, mng.pfdDatas.Keys, [], [], [], apps0, apps0)
  {
    assert mng.pfdDatas.Keys - mng.pfdDatas.Keys == {};
    assert apps0 + {} == apps0;
  }

  /** After the loop every application was visited exactly once and joined the transaction. */
  lemma StoreVisitedDone(mng: PfdManagement, order: seq<string>, pords: seq<seq<string>>,
                         contents: seq<seq<PfdContent>>, apps0: set<string>, apps: set<string>)
    requires StoreVisited(mng, {}, order, pords, contents, apps0, apps)
    ensures IsEnumeration(order, mng.pfdDatas.Keys) && Converted(mng, order, pords, contents)
    ensures apps == apps0 + mng.pfdDatas.Keys
  {
    assert mng.pfdDatas.Keys - {} == mng.pfdDatas.Keys;
  }

  /** Visiting one more application keeps the loop's progress. */
  lemma StoreVisitedStep(mng: PfdManagement, rest: set<string>, order: seq<string>, pords: seq<seq<string>>,
                         contents: seq<seq<PfdContent>>, apps0: set<string>, apps: set<string>,
                         a: string, pord: seq<string>, content: seq<PfdContent>)
    requires StoreVisited(mng, rest, order, pords, contents, apps0, apps)
    requires a in rest && ConvertedData(mng.pfdDatas[a], pord, content)
    ensures StoreVisited(mng, rest - {a}, order + [a], pords + [pord], contents + [content], apps0, apps + {a})
  {
    var visited := mng.pfdDatas.Keys - rest;
    EnumerationAppend(order, visited, a);
    assert visited + {a} == mng.pfdDatas.Keys - (rest - {a});
    ConvertedSnoc(mng, order, pords, contents, a, pord, content);
    assert apps + {a} == apps0 + (mng.pfdDatas.Keys - (rest - {a}));
  }

  /**
   * What the create/replace loop has produced after visiting `order`: the
   * request is their StoreOutcome and their notifications followed `base`.
   */
  ghost predicate StoreProduced(udr: UdrPfds, sbi: string, afID: string, transID: string, mng: PfdManagement,
                                r: PfdManagement, order: seq<string>, contents: seq<seq<PfdContent>>,
                                base: seq<Change>, changes: seq<Change>)
  {
    (forall i :: 0 <= i < |order| ==> order[i] in mng.pfdDatas) && |contents| == |order| &&
    r == StoreOutcome(udr, sbi, afID, transID, mng, order) &&
    changes == base + StoreChanges(udr, order, contents)
  }

  /** Storing one more application extends what the loop has produced. */
  lemma StoreProducedStep(udr: UdrPfds, sbi: string, afID: string, transID: string, mng: PfdManagement,
                          r: PfdManagement, order: seq<string>, contents: seq<seq<PfdContent>>,
                          base: seq<Change>, changes: seq<Change>, a: string, content: seq<PfdContent>)
    requires StoreProduced(udr, sbi, afID, transID, mng, r, order, contents, base, changes)
    requires a in mng.pfdDatas
    ensures StoreProduced(udr, sbi, afID, transID, mng, StoreStep(udr, sbi, afID, transID, mng, r, a),
                          order + [a], contents + [content], base, changes + StoreNote(udr, a, content))
  {
    StoreOutcomeSnoc(udr, sbi, afID, transID, mng, order, a);
    StoreChangesSnoc(udr, order, contents, a, content);
    ConcatAssoc(base, StoreChanges(udr, order, contents), StoreNote(udr, a, content));
  }

  lemma StoreOutcomeSnoc(udr: UdrPfds, sbi: string, afID: string, transID: string, mng: PfdManagement,
                         order: seq<string>, a: string)
    requires forall i :: 0 <= i < |order| ==> order[i] in mng.pfdDatas
    requires a in mng.pfdDatas
    ensures StoreOutcome(udr, sbi, afID, transID, mng, order + [a])
         == StoreStep(udr, sbi, afID, transID, mng, StoreOutcome(udr, sbi, afID, transID, mng, order), a)
  {
    assert (order + [a])[..|order|] == order;
  }

  lemma StoreChangesSnoc(udr: UdrPfds, order: seq<string>, contents: seq<seq<PfdContent>>, a: string, content: seq<PfdContent>)
    requires |contents| == |order|
    ensures StoreChanges(udr, order + [a], contents + [content]) == StoreChanges(udr, order, contents) + StoreNote(udr, a, content)
  {
    assert (order + [a])[..|order|] == order;
    assert (contents + [content])[..|order|] == contents;
  }

  lemma ConvertedSnoc(mng: PfdManagement, order: seq<string>, pords: seq<seq<string>>, contents: seq<seq<PfdContent>>,
                      a: string, pord: seq<string>, content: seq<PfdContent>)
    requires Converted(mng, order, pords, contents) && a in mng.pfdDatas
    requires ConvertedData(mng.pfdDatas[a], pord, content)
    ensures Converted(mng, order + [a], pords + [pord], contents + [content])
  {
    var o, p, c := order + [a], pords + [pord], contents + [content];
    forall i | 0 <= i < |o| ensures o[i] in mng.pfdDatas && ConvertedData(mng.pfdDatas[o[i]], p[i], c[i]) {
      if i < |order| {
        assert o[i] == order[i] && p[i] == pords[i] && c[i] == contents[i];
      }
    }
  }

  /**
   * After the loop over the applications of `order` the request keeps its URI;
   * exactly the applications the UDR stored, and those the loop did not
   * visit, keep their PfdData, the stored ones tagged with their URI.
   */
  lemma StoreOutcomeDatas(udr: UdrPfds, sbi: string, afID: string, transID: string,
                           mng: PfdManagement, order: seq<string>)
    requires forall i :: 0 <= i < |order| ==> order[i] in mng.pfdDatas
    ensures var r := StoreOutcome(udr, sbi, afID, transID, mng, order);
      r.self == mng.self &&
      (forall a :: a in r.pfdDatas <==> a in mng.pfdDatas && (a in order ==> Stores(udr, a))) &&
      (forall a :: a in r.pfdDatas ==>
         r.pfdDatas[a] == if a in order then mng.pfdDatas[a].(self := GenPfdDataURI(sbi, afID, transID, a)) else mng.pfdDatas[a])
  {
    StoreOutcomeKeys(udr, sbi, afID, transID, mng, order);
    StoreOutcomeValues(udr, sbi, afID, transID, mng, order);
  }

  /** The loop keeps the Self of the request and exactly the applications it did not visit or the UDR stored. */
  lemma {:induction false} StoreOutcomeKeys(udr: UdrPfds, sbi: string, afID: string, transID: string,
                                             mng: PfdManagement, order: seq<string>)
    requires forall i :: 0 <= i < |order| ==> order[i] in mng.pfdDatas
    ensures var r := StoreOutcome(udr, sbi, afID, transID, mng, order);
      r.self == mng.self &&
      forall a :: a in r.pfdDatas <==> a in mng.pfdDatas && (a in order ==> Stores(udr, a))
  {
    if order != [] {
      var n := |order| - 1;
      var pre := order[..n];
      var a := order[n];
      StoreOutcomeKeys(udr, sbi, afID, transID, mng, pre);
      forall x ensures x in order <==> x in pre || x == a {
        assert order == pre + [a];
      }
    }
  }

  /** A kept application visited by the loop carries its URI; one it did not visit is as in the request. */
  lemma {:induction false} StoreOutcomeValues(udr: UdrPfds, sbi: string, afID: string, transID: string,
                                               mng: PfdManagement, order: seq<string>)
    requires forall i :: 0 <= i < |order| ==> order[i] in mng.pfdDatas
    ensures var r := StoreOutcome(udr, sbi, afID, transID, mng, order);
      forall a :: a in r.pfdDatas ==>
        a in mng.pfdDatas &&
        r.pfdDatas[a] == if a in order then mng.pfdDatas[a].(self := GenPfdDataURI(sbi, afID, transID, a)) else mng.pfdDatas[a]
  {
    if order != [] {
      var n := |order| - 1;
      var pre := order[..n];
      var a := order[n];
      StoreOutcomeValues(udr, sbi, afID, transID, mng, pre);
      forall x ensures x in order <==> x in pre || x == a {
        assert order == pre + [a];
      }
    }
  }

  /**
   * The applications the UDR refused are appended, in loop order, to the
   * MALFUNCTION report of the request.
   */
  lemma {:induction false} StoreOutcomeMalfunction(udr: UdrPfds, sbi: string, afID: string, transID: string,
                                                    mng: PfdManagement, order: seq<string>)
    requires forall i :: 0 <= i < |order| ==> order[i] in mng.pfdDatas
    ensures Listed(StoreOutcome(udr, sbi, afID, transID, mng, order).pfdReports, MALFUNCTION)
         == Listed(mng.pfdReports, MALFUNCTION) + Refused(udr, order)
  {
    if order != [] {
      var n := |order| - 1;
      var pre := order[..n];
      StoreOutcomeMalfunction(udr, sbi, afID, transID, mng, pre);
      var prev := StoreOutcome(udr, sbi, afID, transID, mng, pre);
      if Stores(udr, order[n]) {
        assert Refused(udr, order) == Refused(udr, pre) + [];
      } else {
        assert Refused(udr, order) == Refused(udr, pre) + [order[n]];
        ConcatAssoc(Listed(mng.pfdReports, MALFUNCTION), Refused(udr, pre), [order[n]]);
      }
    }
  }

  /** The create/replace loop changes no report other than MALFUNCTION, and adds no other failure code. */
  lemma {:induction false} StoreOutcomeOtherReports(udr: UdrPfds, sbi: string, afID: string, transID: string,
                                                     mng: PfdManagement, order: seq<string>)
    requires forall i :: 0 <= i < |order| ==> order[i] in mng.pfdDatas
    ensures var r := StoreOutcome(udr, sbi, afID, transID, mng, order);
      (forall c :: c != MALFUNCTION ==> Listed(r.pfdReports, c) == Listed(mng.pfdReports, c)) &&
      mng.pfdReports.Keys <= r.pfdReports.Keys <= mng.pfdReports.Keys + {MALFUNCTION}
  {
    if order != [] {
      var n := |order| - 1;
      StoreOutcomeOtherReports(udr, sbi, afID, transID, mng, order[..n]);
    }
  }

  /** When the UDR refuses every application, nothing is announced. */
  lemma {:induction false} NothingStored(udr: UdrPfds, order: seq<string>, contents: seq<seq<PfdContent>>)
    requires |contents| == |order|
    requires forall i :: 0 <= i < |order| ==> !Stores(udr, order[i])
    ensures StoreChanges(udr, order, contents) == []
  {
    if order != [] {
      var n := |order| - 1;
      NothingStored(udr, order[..n], contents[..n]);
    }
  }

  /** When the UDR refuses every application, every application is reported, in loop order. */
  lemma {:induction false} AllRefused(udr: UdrPfds, order: seq<string>)
    requires forall i :: 0 <= i < |order| ==> !Stores(udr, order[i])
    ensures Refused(udr, order) == order
  {
    if order != [] {
      var n := |order| - 1;
      var pre := order[..n];
      AllRefused(udr, pre);
      assert Refused(udr, order) == Refused(udr, pre) + [order[n]];
      assert pre + [order[n]] == order;
    }
  }

  /** The deprecated-application loop of the replace handler: the applications of `ids` the request no longer lists, in order. */
  method DeprecatedAppIDs(ids: seq<string>, pfdDatas: map<string, PfdData>) returns (dep: seq<string>)
    ensures dep == Filter(ids, Elems(ids) - pfdDatas.Keys)
  {
    dep := [];
    var i := 0;
    while i < |ids|
      invariant i <= |ids|
      invariant dep == Filter(ids[..i], Elems(ids) - pfdDatas.Keys)
    {
      FilterSnoc(ids[..i], Elems(ids) - pfdDatas.Keys, ids[i]);
      assert ids[..i + 1] == ids[..i] + [ids[i]];
      if ids[i] !in pfdDatas {
        dep := dep + [ids[i]];
      }
      i := i + 1;
    }
    assert ids[..i] == ids;
  }

  /**
   * The PfdDatas buildPfdManagement assembles from the UDR's list: each
   * entry converted, tagged with its URI and keyed by its application, a
   * later entry for the same application replacing an earlier one.
   */
  function DatasOf(sbi: string, afID: string, transID: string, apps: seq<PfdDataForApp>): map<string, PfdData>
  {
    if apps == [] then map[]
    else
      var n := |apps| - 1;
      var fa := apps[n];
      DatasOf(sbi, afID, transID, apps[..n])[fa.applicationId :=
        PfdData(fa.applicationId, GenPfdDataURI(sbi, afID, transID, fa.applicationId), PfdsOfContents(fa.pfds))]
  }

  /** Exactly the listed applications get a PfdData, each under its own identifier and with its URI as Self. */
  lemma {:induction false} DatasOfKeys(sbi: string, afID: string, transID: string, apps: seq<PfdDataForApp>)
    ensures var r := DatasOf(sbi, afID, transID, apps);
      r.Keys == (set fa | fa in apps :: fa.applicationId) &&
      forall a :: a in r ==> r[a].externalAppId == a && r[a].self == GenPfdDataURI(sbi, afID, transID, a)
  {
    if apps != [] {
      var n := |apps| - 1;
      DatasOfKeys(sbi, afID, transID, apps[..n]);
      assert apps == apps[..n] + [apps[n]];
    }
  }

  /**
   * The answer to a request validatePfdManagement refused with `problem`:
   * the reports of `mng` with 500 when no application is left, the problem
   * itself otherwise.
   */
  function RefusedAnswer(problem: ProblemDetails, mng: PfdManagement): HandlerResponse
  {
    if problem.status == StatusInternalServerError
    then HandlerResponse(StatusInternalServerError, None, Reports(mng.pfdReports))
    else ProblemResponse(problem)
  }

  /**
   * What creating transaction transID of afID from the validated request
   * `mng` leaves: the applications were visited in map order `order`, the
   * stored ones are announced in `changes`, and when the UDR stored none the
   * reports are answered with 500 and the registry `reg0` is kept as `reg1`;
   * otherwise the request comes back with 201 and its URI and every
   * application of the request is registered under the new transaction.
   */
  ghost predicate Created(udr: UdrPfds, sbi: string, afID: string, transID: string, mng: PfdManagement,
                          order: seq<string>, pords: seq<seq<string>>, contents: seq<seq<PfdContent>>,
                          changes: seq<Change>, rsp: HandlerResponse, reg0: Provisioning, reg1: Provisioning)
  {
    IsEnumeration(order, mng.pfdDatas.Keys) && Converted(mng, order, pords, contents) &&
    var out := StoreOutcome(udr, sbi, afID, transID, mng, order);
    (rsp, changes, reg1) ==
      (CreateAnswer(sbi, afID, transID, out),
       StoreChanges(udr, order, contents),
       if |out.pfdDatas| == 0 then reg0 else reg0 + Triples(mng.pfdDatas.Keys, afID, transID))
  }

  /**
   * The create handler's answer once the UDR stored the request as `out`:
   * the reports with 500 when it stored none, else the request with its
   * URI and 201.
   */
  function CreateAnswer(sbi: string, afID: string, transID: string, out: PfdManagement): HandlerResponse
  {
    if |out.pfdDatas| == 0 then HandlerResponse(StatusInternalServerError, None, Reports(out.pfdReports))
    else HandlerResponse(StatusCreated, None, Management(out.(self := GenPfdManagementURI(sbi, afID, transID))))
  }

  /**
   * The UDR loops of the replace handler left `failed`, the request `r` and
   * the notifications `changes`: the applications of `dep` were deleted in
   * order until the UDR refused one, whose reply is `failed`; when all were
   * deleted the request's applications were visited in map order `order`
   * and stored as StoreOutcome says.
   */
  ghost predicate Relisted(udr: UdrPfds, sbi: string, afID: string, transID: string, mng: PfdManagement,
                           dep: seq<string>, failed: Option<HandlerResponse>, r: PfdManagement, changes: seq<Change>,
                           order: seq<string>, pords: seq<seq<string>>, contents: seq<seq<PfdContent>>)
  {
    var n := DeletedPrefix(udr, dep);
    if n < |dep| then
      (failed, r, changes) == (Some(PeerResponse(udr.appIdDelete(dep[n]))), mng, Removals(dep[..n]))
    else
      IsEnumeration(order, mng.pfdDatas.Keys) && Converted(mng, order, pords, contents) &&
      (failed, r, changes) ==
        (None, StoreOutcome(udr, sbi, afID, transID, mng, order), Removals(dep) + StoreChanges(udr, order, contents))
  }

  /**
   * The replace handler's answer once the UDR stored the request as `out`:
   * the reports with 500 when it stored none, else the request with its
   * URI and 200.
   */
  function ReplaceAnswer(sbi: string, afID: string, transID: string, out: PfdManagement): HandlerResponse
  {
    if |out.pfdDatas| == 0 then HandlerResponse(StatusInternalServerError, None, Reports(out.pfdReports))
    else HandlerResponse(StatusOK, None, Management(out.(self := GenPfdManagementURI(sbi, afID, transID))))
  }

  /**
   * What replacing transaction transID of afID, whose applications were
   * listed in map order `ids`, with the validated request `mng` leaves: the
   * applications the request no longer names are deleted from the UDR in
   * that order and their removals announced, and a refusal of the UDR ends
   * the handler with its reply, the registry `reg0` kept as `reg1`.
   * Otherwise the transaction lists exactly the request's applications
   * (visited in map order `order`, stored ones announced after the
   * removals), and the reports are answered with 500 when the UDR stored
   * none, the request with its URI and 200 when it stored some.
   */
  ghost predicate Replaced(udr: UdrPfds, sbi: string, afID: string, transID: string, mng: PfdManagement,
                           ids: seq<string>, order: seq<string>, pords: seq<seq<string>>, contents: seq<seq<PfdContent>>,
                           changes: seq<Change>, rsp: HandlerResponse, reg0: Provisioning, reg1: Provisioning)
  {
    var dep := Filter(ids, Elems(ids) - mng.pfdDatas.Keys);
    var n := DeletedPrefix(udr, dep);
    if n < |dep| then
      (rsp, changes, reg1) == (PeerResponse(udr.appIdDelete(dep[n])), Removals(dep[..n]), reg0)
    else
      IsEnumeration(order, mng.pfdDatas.Keys) && Converted(mng, order, pords, contents) &&
      (rsp, changes, reg1) ==
        (ReplaceAnswer(sbi, afID, transID, StoreOutcome(udr, sbi, afID, transID, mng, order)),
         Removals(dep) + StoreChanges(udr, order, contents),
         (reg0 - AtTrans(reg0, afID, transID)) + Triples(mng.pfdDatas.Keys, afID, transID))
  }

  /** The replace handler's outcome, from what its UDR loops left. */
  lemma ReplacedOf(udr: UdrPfds, sbi: string, afID: string, transID: string, mng: PfdManagement,
                   ids: seq<string>, dep: seq<string>, failed: Option<HandlerResponse>, r: PfdManagement,
                   changes: seq<Change>, order: seq<string>, pords: seq<seq<string>>, contents: seq<seq<PfdContent>>,
                   rsp: HandlerResponse, reg0: Provisioning, reg1: Provisioning, apps0: set<string>, apps1: set<string>)
    requires dep == Filter(ids, Elems(ids) - mng.pfdDatas.Keys)
    requires Relisted(udr, sbi, afID, transID, mng, dep, failed, r, changes, order, pords, contents)
    requires rsp == if failed.Some? then failed.value else ReplaceAnswer(sbi, afID, transID, r)
    requires AtTrans(reg0, afID, transID) == Triples(apps0, afID, transID)
    requires apps1 == if failed.Some? then apps0 else mng.pfdDatas.Keys
    requires reg1 == (reg0 - AtTrans(reg0, afID, transID)) + Triples(apps1, afID, transID)
    ensures Replaced(udr, sbi, afID, transID, mng, ids, order, pords, contents, changes, rsp, reg0, reg1)
  {
    if failed.Some? {
      RetargetSame(reg0, apps0, afID, transID);
    }
  }

  /**
   * The PfdManagement buildPfdManagement assembles for transaction transID
   * from the UDR's listing `apps`: the transaction's URI, the listed
   * PfdDatas and no reports.
   */
  function Built(sbi: string, afID: string, transID: string, apps: seq<PfdDataForApp>): PfdManagement
  {
    PfdManagement(GenPfdManagementURI(sbi, afID, transID), DatasOf(sbi, afID, transID, apps), map[])
  }

  /**
   * afCtx.AddPfdTrans(t) then nefCtx.AddAfCtx(afCtx) for a new transaction
   * whose applications nobody provisions: they join the registry under it.
   */
  method AddTransaction(n: NefContext, afID: string, afCtx: AfContext, t: AfPfdTransaction)
    requires n.Consistent() && afID in n.afCtxs && afCtx == n.afCtxs[afID]
    requires t !in n.Transactions() && t.transID !in afCtx.pfdTrans && Issued(t.transID, afCtx.numTransID)
    requires forall a :: a in t.externalAppIDs ==> !ProvisionedIn(n.Registry(), a)
    modifies n`afCtxs, afCtx`pfdTrans
    ensures n.Consistent() && n.afCtxs == old(n.afCtxs)
    ensures afCtx.pfdTrans == old(afCtx.pfdTrans)[t.transID := t]
    ensures n.Registry() == old(n.Registry()) + Triples(t.externalAppIDs, afID, t.transID)
  {
    ghost var reg := n.Registry();
    ghost var before: Layout := map a | a in n.afCtxs :: n.afCtxs[a].pfdTrans;
    forall a, tr | a in before && tr in before[a] ensures before[a][tr] != t {
      InTransactions(n, a, tr);
    }
    forall app, a, tr
      ensures (app, a, tr) in reg <==> a in before && tr in before[a] && app in before[a][tr].externalAppIDs
    {
      RegistryMember(n, app, a, tr);
    }
    assert SeparateIn(before);
    afCtx.AddPfdTrans(t);
    forall id | id in n.afCtxs && id != afID
      ensures n.afCtxs[id].pfdTrans == before[id] && n.afCtxs[id].Valid()
    {
      assert n.afCtxs[id].afID == id;
    }
    assert n.Valid();
    n.AddAfCtx(afCtx);
    assert n.afCtxs == old(n.afCtxs);
    assert AddedTo(n, before, afID, t);
    SeparateAfterAdd(n, before, afID, t);
    RegistryAfterAdd(n, before, reg, afID, t);
    UniqueExtend(reg, t.externalAppIDs, afID, t.transID);
  }

  /** Listing one more entry of the UDR's reply adds (or replaces) that application's PfdData. */
  lemma BuiltStep(sbi: string, afID: string, transID: string, apps: seq<PfdDataForApp>, i: nat)
    requires i < |apps|
    ensures var fa := apps[i];
      Built(sbi, afID, transID, apps[..i + 1]) == Built(sbi, afID, transID, apps[..i]).(pfdDatas :=
        DatasOf(sbi, afID, transID, apps[..i])[fa.applicationId :=
          PfdData(fa.applicationId, GenPfdDataURI(sbi, afID, transID, fa.applicationId), PfdsOfContents(fa.pfds))])
  {
    assert apps[..i + 1][..i] == apps[..i];
  }

  /** An application's PfdData holds the PFDs of the last entry the UDR listed for it. */
  lemma {:induction false} DatasOfEntry(sbi: string, afID: string, transID: string, apps: seq<PfdDataForApp>, i: nat)
    requires i < |apps|
    requires forall j :: i < j < |apps| ==> apps[j].applicationId != apps[i].applicationId
    ensures var a := apps[i].applicationId;
      a in DatasOf(sbi, afID, transID, apps) && DatasOf(sbi, afID, transID, apps)[a].pfds == PfdsOfContents(apps[i].pfds)
  {
    var n := |apps| - 1;
    var pre := apps[..n];
    var a := apps[i].applicationId;
    assert DatasOf(sbi, afID, transID, apps) == DatasOf(sbi, afID, transID, pre)[apps[n].applicationId :=
      PfdData(apps[n].applicationId, GenPfdDataURI(sbi, afID, transID, apps[n].applicationId), PfdsOfContents(apps[n].pfds))];
    if i < n {
      DatasOfEntry(sbi, afID, transID, pre, i);
      assert pre[i] == apps[i];
      assert apps[n].applicationId != a;
    }
  }

  class Processor {
    const nefCtx: NefContext
    const notifier: PfdChangeNotifier
    const cfg: InternalFactory.Config
    const udr: UdrPfds
    const udrTi: UdrInfluence
    const pcf: PcfAppSessions

    /** NewProcessor: each consumer is the reply function of its peer. */
    constructor (nefCtx: NefContext, notifier: PfdChangeNotifier, cfg: InternalFactory.Config, udr: UdrPfds,
                 udrTi: UdrInfluence, pcf: PcfAppSessions)
      ensures this.nefCtx == nefCtx && this.notifier == notifier && this.cfg == cfg && this.udr == udr
      ensures this.udrTi == udrTi && this.pcf == pcf
    {
      this.nefCtx := nefCtx;
      this.notifier := notifier;
      this.cfg := cfg;
      this.udr := udr;
      this.udrTi := udrTi;
      this.pcf := pcf;
    }

    /**
     * The configuration has the Sbi section the resource URIs are built
     * from, and the UDR answers a successful read with PFD data.
     */
    ghost predicate Wired()
    {
      InternalFactory.HasSbi(cfg) && WellTyped(udr)
    }

    /**
     * The configuration has the Sbi section, and the PCF and the UDR answer a
     * successful read or update with the traffic influence data asked for.
     */
    ghost predicate TiWired()
    {
      InternalFactory.HasSbi(cfg) && PcfWellTyped(pcf) && UdrInfluenceWellTyped(udrTi)
    }

    /** The UDR deleted every application of `t`, listed in map order `order`. */
    ghost predicate Emptied(order: seq<string>, apps: set<string>)
    {
      IsEnumeration(order, apps) && DeletedPrefix(udr, order) == |order|
    }

    /** One more emptied transaction extends the emptied prefix of `sets`. */
    lemma EmptiedSnoc(aorders: seq<seq<string>>, ids: seq<string>, sets: seq<set<string>>)
      requires |aorders| < |sets| && forall k :: 0 <= k < |aorders| ==> Emptied(aorders[k], sets[k])
      requires Emptied(ids, sets[|aorders|])
      ensures forall k :: 0 <= k < |aorders + [ids]| ==> Emptied((aorders + [ids])[k], sets[k])
    {
    }

    /** The batch a notification context flushes after the given calls. */
    ghost function Flushed(changes: seq<Change>): map<string, seq<PfdChangeNotification>>
      reads notifier
    {
      Batch(Latest(changes), ChangedApps(notifier.appIdToSubIDs, changes))
    }

    /** deletePfdDataFromUDR: nothing when the UDR deletes the data, else the UDR's reply. */
    function DeletePfdDataFromUDR(appID: string): (r: Option<HandlerResponse>)
      ensures r.None? <==> udr.appIdDelete(appID).status == StatusNoContent
      ensures r.Some? ==> r.value == PeerResponse(udr.appIdDelete(appID))
    {
      var reply := udr.appIdDelete(appID);
      if reply.status != StatusNoContent then Some(PeerResponse(reply)) else None
    }

    /** storePfdDataToUDR: nothing when the UDR stores the data, else a MALFUNCTION report naming the application. */
    function StorePfdDataToUDR(appID: string): (r: Option<PfdReport>)
      ensures r.None? <==> Stores(udr, appID)
      ensures r.Some? ==> r.value.externalAppIds == [appID] && r.value.failureCode == MALFUNCTION
    {
      var code := udr.appIdPut(appID);
      if code != StatusCreated && code != StatusOK then Some(SingleReport(appID, MALFUNCTION)) else None
    }

    /** Nothing was flushed: the empty batch. */
    lemma FlushedNothing()
      ensures Flushed([]) == map[]
    {
    }

    /**
     * GetIndividualApplicationPFDManagement: the application's PFDs as the
     * UDR holds them, converted to PfdData and tagged with their URI.
     */
    method GetIndividualApplicationPFDManagement(afID: string, transID: string, appID: string)
      returns (rsp: HandlerResponse)
      requires Wired()
      ensures !nefCtx.ProvisionedAt(appID, afID, transID) ==>
        rsp == ProblemResponse(ProblemDataNotFound(nefCtx.GetPfdTransWithAppID(afID, transID, appID).error))
      ensures nefCtx.ProvisionedAt(appID, afID, transID) && udr.appIdGet(appID).status != StatusOK ==>
        rsp == PeerResponse(udr.appIdGet(appID))
      ensures nefCtx.ProvisionedAt(appID, afID, transID) && udr.appIdGet(appID).status == StatusOK ==>
        var fa := udr.appIdGet(appID).body.app;
        rsp == HandlerResponse(StatusOK, None, Data(PfdData(fa.applicationId,
          GenPfdDataURI(InternalFactory.GetSbiUri(cfg), afID, transID, appID), PfdsOfContents(fa.pfds))))
    {
      var r := nefCtx.GetPfdTransWithAppID(afID, transID, appID);
      if r.Err? {
        return ProblemResponse(ProblemDataNotFound(r.error));
      }
      var reply := udr.appIdGet(appID);
      if reply.status != StatusOK {
        return PeerResponse(reply);
      }
      var d := ConvertPfdDataForAppToPfdData(reply.body.app);
      d := d.(self := GenPfdDataURI(InternalFactory.GetSbiUri(cfg), afID, transID, appID));
      rsp := HandlerResponse(StatusOK, None, Data(d));
    }

    /**
     * PutIndividualApplicationPFDManagement: valid PFD data for a
     * provisioned application replaces its PFDs in the UDR and is announced
     * to the subscribers; the transaction is left as it is.
     */
    method PutIndividualApplicationPFDManagement(afID: string, transID: string, appID: string, d: PfdData)
      returns (rsp: HandlerResponse, batch: map<string, seq<PfdChangeNotification>>,
               ghost changes: seq<Change>, ghost order: seq<string>)
      requires Wired()
      ensures batch == Flushed(changes)
      ensures !nefCtx.ProvisionedAt(appID, afID, transID) ==>
        rsp == ProblemResponse(ProblemDataNotFound(nefCtx.GetPfdTransWithAppID(afID, transID, appID).error)) &&
        changes == []
      ensures nefCtx.ProvisionedAt(appID, afID, transID) && !PfdDataValid(d, false) ==>
        rsp.body.Problem? && rsp == ProblemResponse(rsp.body.problem) &&
        IsDataProblem(d, false, rsp.body.problem) && changes == []
      ensures nefCtx.ProvisionedAt(appID, afID, transID) && PfdDataValid(d, false) && !Stores(udr, appID) ==>
        rsp == HandlerResponse(StatusInternalServerError, None, Report(SingleReport(appID, MALFUNCTION))) &&
        changes == []
      ensures nefCtx.ProvisionedAt(appID, afID, transID) && PfdDataValid(d, false) && Stores(udr, appID) ==>
        rsp == HandlerResponse(StatusOK, None,
          Data(d.(self := GenPfdDataURI(InternalFactory.GetSbiUri(cfg), afID, transID, appID)))) &&
        IsEnumeration(order, d.pfds.Keys) && changes == [Change(appID, Announcement(appID, d, order))]
    {
      FlushedNothing();
      var r := nefCtx.GetPfdTransWithAppID(afID, transID, appID);
      if r.Err? {
        return ProblemResponse(ProblemDataNotFound(r.error)), map[], [], [];
      }
      var problem := ValidatePfdData(d, false);
      if problem.Some? {
        return ProblemResponse(problem.value), map[], [], [];
      }
      var fa;
      fa, order := ConvertPfdDataToPfdDataForApp(d);
      var report := StorePfdDataToUDR(appID);
      if report.Some? {
        return HandlerResponse(StatusInternalServerError, None, Report(report.value)), map[], [], order;
      }
      var stored := d.(self := GenPfdDataURI(InternalFactory.GetSbiUri(cfg), afID, transID, appID));
      batch, changes := Announce(appID, PfdChangeNotification(appID, false, fa.pfds));
      rsp := HandlerResponse(StatusOK, None, Data(stored));
    }

    /**
     * PatchIndividualApplicationPFDManagement: the PFDs the UDR holds are
     * merged with the patch (PatchedPfds), stored back and announced.
     */
    method PatchIndividualApplicationPFDManagement(afID: string, transID: string, appID: string, d: PfdData)
      returns (rsp: HandlerResponse, batch: map<string, seq<PfdChangeNotification>>,
               ghost changes: seq<Change>, ghost order: seq<string>)
      requires Wired()
      ensures batch == Flushed(changes)
      ensures !nefCtx.ProvisionedAt(appID, afID, transID) ==>
        rsp == ProblemResponse(ProblemDataNotFound(nefCtx.GetPfdTransWithAppID(afID, transID, appID).error)) &&
        changes == []
      ensures nefCtx.ProvisionedAt(appID, afID, transID) && !PfdDataValid(d, true) ==>
        rsp.body.Problem? && rsp == ProblemResponse(rsp.body.problem) &&
        IsDataProblem(d, true, rsp.body.problem) && changes == []
      ensures nefCtx.ProvisionedAt(appID, afID, transID) && PfdDataValid(d, true) &&
              udr.appIdGet(appID).status != StatusOK ==>
        rsp == PeerResponse(udr.appIdGet(appID)) && changes == []
      ensures nefCtx.ProvisionedAt(appID, afID, transID) && PfdDataValid(d, true) &&
              udr.appIdGet(appID).status == StatusOK ==>
        var fa := udr.appIdGet(appID).body.app;
        var base := PfdsOfContents(fa.pfds);
        var patched := PfdData(fa.applicationId, "", PatchedPfds(base, d.pfds));
        (PatchFails(base, d.pfds) ==> rsp == ProblemResponse(ProblemDataNotFound(DetailNoPfdInfo)) && changes == []) &&
        (!PatchFails(base, d.pfds) && !Stores(udr, appID) ==>
          rsp == HandlerResponse(StatusInternalServerError, None, Report(SingleReport(appID, MALFUNCTION))) &&
          changes == []) &&
        (!PatchFails(base, d.pfds) && Stores(udr, appID) ==>
          rsp == HandlerResponse(StatusOK, None,
            Data(patched.(self := GenPfdDataURI(InternalFactory.GetSbiUri(cfg), afID, transID, appID)))) &&
          IsEnumeration(order, patched.pfds.Keys) && changes == [Change(appID, Announcement(appID, patched, order))])
    {
      FlushedNothing();
      var r := nefCtx.GetPfdTransWithAppID(afID, transID, appID);
      if r.Err? {
        return ProblemResponse(ProblemDataNotFound(r.error)), map[], [], [];
      }
      var problem := ValidatePfdData(d, true);
      if problem.Some? {
        return ProblemResponse(problem.value), map[], [], [];
      }
      var reply := udr.appIdGet(appID);
      if reply.status != StatusOK {
        return PeerResponse(reply), map[], [], [];
      }
      var base := ConvertPfdDataForAppToPfdData(reply.body.app);
      var patched;
      patched, problem := PatchModifyPfdData(base, d);
      if problem.Some? {
        return ProblemResponse(problem.value), map[], [], [];
      }
      var fa;
      fa, order := ConvertPfdDataToPfdDataForApp(patched);
      var report := StorePfdDataToUDR(appID);
      if report.Some? {
        return HandlerResponse(StatusInternalServerError, None, Report(report.value)), map[], [], order;
      }
      patched := patched.(self := GenPfdDataURI(InternalFactory.GetSbiUri(cfg), afID, transID, appID));
      batch, changes := Announce(appID, PfdChangeNotification(appID, false, fa.pfds));
      rsp := HandlerResponse(StatusOK, None, Data(patched));
    }

    /**
     * DeleteIndividualApplicationPFDManagement: the application is removed
     * from the UDR and from its transaction, and its subscribers are told.
     */
    method DeleteIndividualApplicationPFDManagement(afID: string, transID: string, appID: string)
      returns (rsp: HandlerResponse, batch: map<string, seq<PfdChangeNotification>>, ghost changes: seq<Change>)
      requires nefCtx.Consistent()
      modifies nefCtx.TransObj(afID, transID)
      ensures nefCtx.Consistent()
      ensures batch == Flushed(changes)
      ensures !old(nefCtx.ProvisionedAt(appID, afID, transID)) ==>
        rsp == ProblemResponse(ProblemDataNotFound(old(nefCtx.GetPfdTransWithAppID(afID, transID, appID)).error)) &&
        changes == [] && nefCtx.Registry() == old(nefCtx.Registry())
      ensures old(nefCtx.ProvisionedAt(appID, afID, transID)) && !Deletes(udr, appID) ==>
        rsp == PeerResponse(udr.appIdDelete(appID)) && changes == [] && nefCtx.Registry() == old(nefCtx.Registry())
      ensures old(nefCtx.ProvisionedAt(appID, afID, transID)) && Deletes(udr, appID) ==>
        rsp == HandlerResponse(StatusNoContent, None, NoBody) && changes == [Change(appID, Removal(appID))] &&
        nefCtx.Registry() == old(nefCtx.Registry()) - {(appID, afID, transID)}
    {
      FlushedNothing();
      var r := nefCtx.GetPfdTransWithAppID(afID, transID, appID);
      if r.Err? {
        return ProblemResponse(ProblemDataNotFound(r.error)), map[], [];
      }
      var del := DeletePfdDataFromUDR(appID);
      if del.Some? {
        return del.value, map[], [];
      }
      RemoveExtAppID(afID, transID, r.value, appID);
      ghost var reg := nefCtx.Registry();
      batch, changes := Announce(appID, Removal(appID));
      assert nefCtx.Registry() == reg && nefCtx.Valid() && nefCtx.Separate();
      rsp := HandlerResponse(StatusNoContent, None, NoBody);
    }

    /**
     * DeleteIndividualPFDManagementTransaction: every application of the
     * transaction is deleted from the UDR, in map order `order`, and its
     * removal announced; the transaction is dropped once all are deleted. A
     * refusal of the UDR ends the handler with the UDR's reply, the
     * transaction still in place.
     */
    method DeleteIndividualPFDManagementTransaction(afID: string, transID: string)
      returns (rsp: HandlerResponse, batch: map<string, seq<PfdChangeNotification>>,
               ghost changes: seq<Change>, ghost order: seq<string>)
      requires nefCtx.Consistent()
      modifies nefCtx.AfObj(afID)`pfdTrans
      ensures nefCtx.Consistent()
      ensures batch == Flushed(changes)
      ensures nefCtx.afCtxs == old(nefCtx.afCtxs)
      ensures afID in nefCtx.afCtxs ==> var a := nefCtx.afCtxs[afID];
        a.subsc == old(a.subsc) && a.numSubscID == old(a.numSubscID) && a.numTransID == old(a.numTransID)
      ensures old(nefCtx.GetAfCtxAndPfdTransWithTransID(afID, transID)).Err? ==>
        rsp == ProblemResponse(ProblemDataNotFound(old(nefCtx.GetAfCtxAndPfdTransWithTransID(afID, transID)).error)) &&
        changes == [] && nefCtx.Registry() == old(nefCtx.Registry()) &&
        (afID in nefCtx.afCtxs ==> nefCtx.afCtxs[afID].pfdTrans == old(nefCtx.afCtxs[afID].pfdTrans))
      ensures old(nefCtx.GetAfCtxAndPfdTransWithTransID(afID, transID)).Ok? ==>
        IsEnumeration(order, old(nefCtx.AppsAt(afID, transID))) &&
        var n := DeletedPrefix(udr, order);
        changes == Removals(order[..n]) &&
        (n < |order| ==>
           rsp == PeerResponse(udr.appIdDelete(order[n])) && nefCtx.Registry() == old(nefCtx.Registry()) &&
           nefCtx.afCtxs[afID].pfdTrans == old(nefCtx.afCtxs[afID].pfdTrans)) &&
        (n == |order| ==>
           rsp == HandlerResponse(StatusNoContent, None, NoBody) &&
           nefCtx.afCtxs[afID].pfdTrans == old(nefCtx.afCtxs[afID].pfdTrans) - {transID} &&
           nefCtx.Registry() == old(nefCtx.Registry()) - AtTrans(old(nefCtx.Registry()), afID, transID))
    {
      var r := nefCtx.GetAfCtxAndPfdTransWithTransID(afID, transID);
      if r.Err? {
        FlushedNothing();
        return ProblemResponse(ProblemDataNotFound(r.error)), map[], [], [];
      }
      rsp, batch, changes, order := DeleteStoredTrans(afID, transID, r.value.1);
    }

    /** DeleteIndividualPFDManagementTransaction once the transaction is found. */
    method DeleteStoredTrans(afID: string, transID: string, t: AfPfdTransaction)
      returns (rsp: HandlerResponse, batch: map<string, seq<PfdChangeNotification>>,
               ghost changes: seq<Change>, ghost order: seq<string>)
      requires nefCtx.Consistent() && afID in nefCtx.afCtxs && transID in nefCtx.afCtxs[afID].pfdTrans
      requires t == nefCtx.afCtxs[afID].pfdTrans[transID]
      modifies nefCtx.AfObj(afID)`pfdTrans
      ensures nefCtx.Consistent()
      ensures batch == Flushed(changes)
      ensures nefCtx.afCtxs == old(nefCtx.afCtxs)
      ensures afID in nefCtx.afCtxs ==> var a := nefCtx.afCtxs[afID];
        a.subsc == old(a.subsc) && a.numSubscID == old(a.numSubscID) && a.numTransID == old(a.numTransID)
      ensures IsEnumeration(order, t.externalAppIDs)
      ensures var n := DeletedPrefix(udr, order);
        changes == Removals(order[..n]) &&
        (n < |order| ==>
           rsp == PeerResponse(udr.appIdDelete(order[n])) && nefCtx.Registry() == old(nefCtx.Registry()) &&
           nefCtx.afCtxs[afID].pfdTrans == old(nefCtx.afCtxs[afID].pfdTrans)) &&
        (n == |order| ==>
           rsp == HandlerResponse(StatusNoContent, None, NoBody) &&
           nefCtx.afCtxs[afID].pfdTrans == old(nefCtx.afCtxs[afID].pfdTrans) - {transID} &&
           nefCtx.Registry() == old(nefCtx.Registry()) - AtTrans(old(nefCtx.Registry()), afID, transID))
    {
      ghost var reg := nefCtx.Registry();
      var ids := t.GetExtAppIDs();
      order := ids;
      var failed;
      failed, batch, changes := DeleteAppsAndFlush(ids);
      assert nefCtx.Registry() == reg && nefCtx.Valid() && nefCtx.Separate();
      if failed.Some? {
        return failed.value, batch, changes, order;
      }
      DropTrans(afID, transID);
      rsp := HandlerResponse(StatusNoContent, None, NoBody);
    }

    /**
     * DeletePFDManagementTransactions: every transaction of the AF, in map
     * order `torder`, has its applications deleted from the UDR (in map order
     * `aorders[k]`) and their removals announced, and is then dropped. The
     * first refusal of the UDR, met while deleting the applications of
     * transaction torder[done] in map order `partial`, ends the handler with
     * the UDR's reply: the `done` transactions before it are gone, the rest
     * remain. An unknown AF is answered with 404.
     */
    method DeletePFDManagementTransactions(afID: string)
      returns (rsp: HandlerResponse, batch: map<string, seq<PfdChangeNotification>>, ghost changes: seq<Change>,
               ghost torder: seq<string>, ghost aorders: seq<seq<string>>, ghost partial: seq<string>, ghost done: nat)
      requires nefCtx.Consistent()
      modifies nefCtx.AfObj(afID)`pfdTrans
      ensures nefCtx.Consistent()
      ensures batch == Flushed(changes)
      ensures nefCtx.afCtxs == old(nefCtx.afCtxs)
      ensures afID in nefCtx.afCtxs ==> var a := nefCtx.afCtxs[afID];
        a.subsc == old(a.subsc) && a.numSubscID == old(a.numSubscID) && a.numTransID == old(a.numTransID)
      ensures afID !in old(nefCtx.afCtxs) ==>
        rsp == ProblemResponse(ProblemDataNotFound(DetailNoAF)) && changes == [] && nefCtx.Registry() == old(nefCtx.Registry())
      ensures afID in old(nefCtx.afCtxs) ==>
        afID in nefCtx.afCtxs &&
        IsEnumeration(torder, old(nefCtx.afCtxs[afID].pfdTrans.Keys)) && done == |aorders| <= |torder| &&
        (forall k :: 0 <= k < done ==> IsEnumeration(aorders[k], old(nefCtx.afCtxs[afID].pfdTrans[torder[k]].externalAppIDs))) &&
        (forall k :: 0 <= k < done ==> DeletedPrefix(udr, aorders[k]) == |aorders[k]|) &&
        nefCtx.afCtxs[afID].pfdTrans == old(nefCtx.afCtxs[afID].pfdTrans) - Elems(torder[..done]) &&
        nefCtx.Registry() == old(nefCtx.Registry()) - AtTransIn(old(nefCtx.Registry()), afID, Elems(torder[..done]))
      ensures afID in old(nefCtx.afCtxs) && done == |torder| ==>
        rsp == HandlerResponse(StatusNoContent, None, NoBody) && changes == AllRemovals(aorders) &&
        nefCtx.afCtxs[afID].pfdTrans == map[] &&
        nefCtx.Registry() == old(nefCtx.Registry()) - AtAf(old(nefCtx.Registry()), afID)
      ensures afID in old(nefCtx.afCtxs) && done < |torder| ==>
        var n := DeletedPrefix(udr, partial);
        IsEnumeration(partial, old(nefCtx.afCtxs[afID].pfdTrans[torder[done]].externalAppIDs)) &&
        n < |partial| && rsp == PeerResponse(udr.appIdDelete(partial[n])) &&
        changes == AllRemovals(aorders) + Removals(partial[..n])
    {
      var afCtx := nefCtx.GetAfCtx(afID);
      if afCtx == null {
        FlushedNothing();
        return ProblemResponse(ProblemDataNotFound(DetailNoAF)), map[], [], [], [], [], 0;
      }
      rsp, batch, changes, torder, aorders, partial, done := DeleteAllOfAf(afID, afCtx);
    }

    /** DeletePFDManagementTransactions once the AF is found. */
    method DeleteAllOfAf(afID: string, afCtx: AfContext)
      returns (rsp: HandlerResponse, batch: map<string, seq<PfdChangeNotification>>, ghost changes: seq<Change>,
               ghost torder: seq<string>, ghost aorders: seq<seq<string>>, ghost partial: seq<string>, ghost done: nat)
      requires nefCtx.Consistent() && afID in nefCtx.afCtxs && afCtx == nefCtx.afCtxs[afID]
      modifies afCtx`pfdTrans
      ensures nefCtx.Consistent()
      ensures batch == Flushed(changes)
      ensures afCtx.subsc == old(afCtx.subsc) && afCtx.numSubscID == old(afCtx.numSubscID) && afCtx.numTransID == old(afCtx.numTransID)
      ensures afID in nefCtx.afCtxs &&
        IsEnumeration(torder, old(afCtx.pfdTrans.Keys)) && done == |aorders| <= |torder| &&
        (forall k :: 0 <= k < done ==> IsEnumeration(aorders[k], old(afCtx.pfdTrans[torder[k]].externalAppIDs))) &&
        (forall k :: 0 <= k < done ==> DeletedPrefix(udr, aorders[k]) == |aorders[k]|) &&
        afCtx.pfdTrans == old(afCtx.pfdTrans) - Elems(torder[..done]) &&
        nefCtx.Registry() == old(nefCtx.Registry()) - AtTransIn(old(nefCtx.Registry()), afID, Elems(torder[..done]))
      ensures done == |torder| ==>
        rsp == HandlerResponse(StatusNoContent, None, NoBody) && changes == AllRemovals(aorders) &&
        afCtx.pfdTrans == map[] &&
        nefCtx.Registry() == old(nefCtx.Registry()) - AtAf(old(nefCtx.Registry()), afID)
      ensures done < |torder| ==>
        var n := DeletedPrefix(udr, partial);
        IsEnumeration(partial, old(afCtx.pfdTrans[torder[done]].externalAppIDs)) &&
        n < |partial| && rsp == PeerResponse(udr.appIdDelete(partial[n])) &&
        changes == AllRemovals(aorders) + Removals(partial[..n])
    {
      ghost var reg := nefCtx.Registry();
      var ts, tids := TransactionsOf(afID, afCtx);
      assert nefCtx.Registry() == reg && nefCtx.Valid() && nefCtx.Separate();
      rsp, batch, changes, torder, aorders, partial, done := DeleteListed(afID, afCtx, ts, tids);
    }

    /** DeleteAllOfAf once the transactions `ts`, with identifiers `tids`, are listed. */
    method DeleteListed(afID: string, afCtx: AfContext, ts: seq<AfPfdTransaction>, tids: seq<string>)
      returns (rsp: HandlerResponse, batch: map<string, seq<PfdChangeNotification>>, ghost changes: seq<Change>,
               ghost torder: seq<string>, ghost aorders: seq<seq<string>>, ghost partial: seq<string>, ghost done: nat)
      requires nefCtx.Consistent() && afID in nefCtx.afCtxs && afCtx == nefCtx.afCtxs[afID]
      requires |ts| == |tids| && IsEnumeration(tids, afCtx.pfdTrans.Keys)
      requires forall k :: 0 <= k < |ts| ==> tids[k] in afCtx.pfdTrans && ts[k] == afCtx.pfdTrans[tids[k]]
      requires forall e :: e in nefCtx.Registry() && e.1 == afID ==> e.2 in afCtx.pfdTrans
      modifies afCtx`pfdTrans
      ensures nefCtx.Consistent()
      ensures batch == Flushed(changes)
      ensures afCtx.subsc == old(afCtx.subsc) && afCtx.numSubscID == old(afCtx.numSubscID) && afCtx.numTransID == old(afCtx.numTransID)
      ensures afID in nefCtx.afCtxs &&
        IsEnumeration(torder, old(afCtx.pfdTrans.Keys)) && done == |aorders| <= |torder| &&
        (forall k :: 0 <= k < done ==> IsEnumeration(aorders[k], old(afCtx.pfdTrans[torder[k]].externalAppIDs))) &&
        (forall k :: 0 <= k < done ==> DeletedPrefix(udr, aorders[k]) == |aorders[k]|) &&
        afCtx.pfdTrans == old(afCtx.pfdTrans) - Elems(torder[..done]) &&
        nefCtx.Registry() == old(nefCtx.Registry()) - AtTransIn(old(nefCtx.Registry()), afID, Elems(torder[..done]))
      ensures done == |torder| ==>
        rsp == HandlerResponse(StatusNoContent, None, NoBody) && changes == AllRemovals(aorders) &&
        afCtx.pfdTrans == map[] &&
        nefCtx.Registry() == old(nefCtx.Registry()) - AtAf(old(nefCtx.Registry()), afID)
      ensures done < |torder| ==>
        var n := DeletedPrefix(udr, partial);
        IsEnumeration(partial, old(afCtx.pfdTrans[torder[done]].externalAppIDs)) &&
        n < |partial| && rsp == PeerResponse(udr.appIdDelete(partial[n])) &&
        changes == AllRemovals(aorders) + Removals(partial[..n])
    {
      ghost var reg := nefCtx.Registry();
      torder := tids;
      ghost var sets := seq(|ts|, k requires 0 <= k < |ts| reads ts => ts[k].externalAppIDs);
      var failed, emptied;
      failed, batch, changes, aorders, partial, emptied := DeleteAllApps(ts, sets);
      done := emptied;
      assert nefCtx.Registry() == reg && nefCtx.Valid() && nefCtx.Separate();
      DropTransactions(afID, afCtx, tids[..emptied]);
      if failed.Some? {
        rsp := failed.value;
      } else {
        assert torder[..done] == torder;
        assert AtTransIn(reg, afID, Elems(torder)) == AtAf(reg, afID);
        rsp := HandlerResponse(StatusNoContent, None, NoBody);
      }
    }

    /**
     * afCtx.GetAllPfdTrans with the identifiers of the transactions it lists:
     * the AF's transactions in map order, and every triple of the AF belongs
     * to one of them.
     */
    method TransactionsOf(afID: string, afCtx: AfContext) returns (ts: seq<AfPfdTransaction>, tids: seq<string>)
      requires nefCtx.Consistent() && afID in nefCtx.afCtxs && afCtx == nefCtx.afCtxs[afID]
      ensures |ts| == |tids| && IsEnumeration(tids, afCtx.pfdTrans.Keys)
      ensures forall k :: 0 <= k < |ts| ==> tids[k] in afCtx.pfdTrans && ts[k] == afCtx.pfdTrans[tids[k]]
      ensures forall e :: e in nefCtx.Registry() && e.1 == afID ==> e.2 in afCtx.pfdTrans
    {
      ghost var order;
      ts, order := afCtx.GetAllPfdTrans();
      tids := seq(|ts|, i requires 0 <= i < |ts| => ts[i].transID);
      assert tids == order;
      forall e | e in nefCtx.Registry() && e.1 == afID ensures e.2 in afCtx.pfdTrans {
        assert nefCtx.ProvisionedAt(e.0, e.1, e.2);
      }
    }

    /**
     * The UDR loop of DeletePFDManagementTransactions with its own
     * notification context, flushed at the end: the applications of each
     * transaction of `ts` in turn (`aorders[k]` the map order of ts[k]) are
     * deleted and their removals queued, until the UDR refuses one. `done`
     * transactions were emptied completely.
     */
    method DeleteAllApps(ts: seq<AfPfdTransaction>, ghost sets: seq<set<string>>)
      returns (failed: Option<HandlerResponse>, batch: map<string, seq<PfdChangeNotification>>,
               ghost changes: seq<Change>, ghost aorders: seq<seq<string>>, ghost partial: seq<string>, done: nat)
      requires |sets| == |ts| && forall k :: 0 <= k < |ts| ==> ts[k].externalAppIDs == sets[k]
      ensures done == |aorders| <= |ts|
      ensures forall k :: 0 <= k < done ==> Emptied(aorders[k], sets[k])
      ensures failed.None? ==> done == |ts| && changes == AllRemovals(aorders)
      ensures failed.Some? ==>
        var n := DeletedPrefix(udr, partial);
        done < |ts| && IsEnumeration(partial, sets[done]) &&
        n < |partial| && failed.value == PeerResponse(udr.appIdDelete(partial[n])) &&
        changes == AllRemovals(aorders) + Removals(partial[..n])
      ensures batch == Flushed(changes)
    {
      var nc := notifier.NewPfdNotifyContext();
      failed, aorders, partial, done := DeleteAllAppsInto(ts, sets, nc);
      batch := nc.FlushNotifications();
      changes := nc.changes;
    }

    /** The loops of DeleteAllApps, queueing the removals in `nc`. */
    method DeleteAllAppsInto(ts: seq<AfPfdTransaction>, ghost sets: seq<set<string>>, nc: PfdNotifyContext)
      returns (failed: Option<HandlerResponse>, ghost aorders: seq<seq<string>>, ghost partial: seq<string>, done: nat)
      requires |sets| == |ts| && forall k :: 0 <= k < |ts| ==> ts[k].externalAppIDs == sets[k]
      requires nc.notifier == notifier && nc.Valid() && nc.changes == []
      modifies nc
      ensures nc.Valid()
      ensures done == |aorders| <= |ts|
      ensures forall k :: 0 <= k < done ==> Emptied(aorders[k], sets[k])
      ensures failed.None? ==> done == |ts| && nc.changes == AllRemovals(aorders)
      ensures failed.Some? ==>
        var n := DeletedPrefix(udr, partial);
        done < |ts| && IsEnumeration(partial, sets[done]) &&
        n < |partial| && failed.value == PeerResponse(udr.appIdDelete(partial[n])) &&
        nc.changes == AllRemovals(aorders) + Removals(partial[..n])
    {
      aorders, partial := [], [];
      done := 0;
      while done < |ts|
        invariant done == |aorders| <= |ts|
        invariant forall k :: 0 <= k < |aorders| ==> Emptied(aorders[k], sets[k])
        invariant nc.Valid() && nc.changes == AllRemovals(aorders)
      {
        var ids;
        failed, ids := DeleteTransApps(ts[done], sets[done], nc, aorders);
        if failed.Some? {
          partial := ids;
          return;
        }
        EmptiedSnoc(aorders, ids, sets);
        aorders := aorders + [ids];
        done := done + 1;
      }
      failed := None;
    }

    /**
     * The inner loop of DeletePFDManagementTransactions, over the applications
     * of `t` in map order `ids`, after the transactions deleted in `aorders`.
     */
    method DeleteTransApps(t: AfPfdTransaction, ghost apps: set<string>, nc: PfdNotifyContext, ghost aorders: seq<seq<string>>)
      returns (failed: Option<HandlerResponse>, ids: seq<string>)
      requires t.externalAppIDs == apps
      requires nc.notifier == notifier && nc.Valid() && nc.changes == AllRemovals(aorders)
      modifies nc
      ensures nc.Valid() && IsEnumeration(ids, apps)
      ensures failed.None? ==> Emptied(ids, apps) && nc.changes == AllRemovals(aorders + [ids])
      ensures failed.Some? ==>
        var n := DeletedPrefix(udr, ids);
        n < |ids| && failed.value == PeerResponse(udr.appIdDelete(ids[n])) &&
        nc.changes == AllRemovals(aorders) + Removals(ids[..n])
    {
      ids := t.GetExtAppIDs();
      failed := DeleteApps(ids, nc);
      if failed.None? {
        assert ids[..DeletedPrefix(udr, ids)] == ids;
        AllRemovalsSnoc(aorders, ids);
      }
    }

    /**
     * The deletion loop with its own notification context, flushed at the
     * end. The NEF context is not touched; a handler that changes it
     * afterwards flushes the same batch, since the batch only depends on the
     * subscriptions and on the notifications queued.
     */
    method DeleteAppsAndFlush(ids: seq<string>)
      returns (failed: Option<HandlerResponse>, batch: map<string, seq<PfdChangeNotification>>, ghost changes: seq<Change>)
      ensures changes == Removals(ids[..DeletedPrefix(udr, ids)]) && batch == Flushed(changes)
      ensures failed.None? <==> DeletedPrefix(udr, ids) == |ids|
      ensures failed.Some? ==> failed.value == PeerResponse(udr.appIdDelete(ids[DeletedPrefix(udr, ids)]))
    {
      var nc := notifier.NewPfdNotifyContext();
      failed := DeleteApps(ids, nc);
      batch := nc.FlushNotifications();
      changes := nc.changes;
    }

    /**
     * The deletion loop of the transaction handlers: the applications of
     * `ids` are deleted from the UDR one by one, each removal queued, until
     * the UDR refuses one, whose reply is then returned.
     */
    method DeleteApps(ids: seq<string>, nc: PfdNotifyContext) returns (failed: Option<HandlerResponse>)
      requires nc.notifier == notifier && nc.Valid()
      modifies nc
      ensures nc.Valid()
      ensures nc.changes == old(nc.changes) + Removals(ids[..DeletedPrefix(udr, ids)])
      ensures failed.None? <==> DeletedPrefix(udr, ids) == |ids|
      ensures failed.Some? ==> failed.value == PeerResponse(udr.appIdDelete(ids[DeletedPrefix(udr, ids)]))
    {
      ghost var c0 := nc.changes;
      var i := 0;
      while i < |ids|
        invariant i <= DeletedPrefix(udr, ids)
        invariant nc.Valid() && nc.changes == c0 + Removals(ids[..i])
      {
        var del := DeleteOne(ids[i], nc);
        if del.Some? {
          assert DeletedPrefix(udr, ids) == i;
          return del;
        }
        RemovalsStep(ids, i);
        i := i + 1;
      }
      assert ids[..i] == ids;
      failed := None;
    }

    /** One step of the deletion loop: the UDR deletes the application and its removal is queued, or the UDR refuses. */
    method DeleteOne(appID: string, nc: PfdNotifyContext) returns (del: Option<HandlerResponse>)
      requires nc.notifier == notifier && nc.Valid()
      modifies nc
      ensures nc.Valid()
      ensures del.None? <==> Deletes(udr, appID)
      ensures del.Some? ==> del.value == PeerResponse(udr.appIdDelete(appID)) && nc.changes == old(nc.changes)
      ensures del.None? ==> nc.changes == old(nc.changes) + [Change(appID, Removal(appID))]
    {
      del := DeletePfdDataFromUDR(appID);
      if del.None? {
        nc.AddNotification(appID, Removal(appID));
      }
    }

    /** One AddNotification in a fresh notification context, then the deferred FlushNotifications. */
    method Announce(appID: string, notif: PfdChangeNotification)
      returns (batch: map<string, seq<PfdChangeNotification>>, ghost changes: seq<Change>)
      ensures changes == [Change(appID, notif)] && batch == Flushed(changes)
    {
      var nc := notifier.NewPfdNotifyContext();
      nc.AddNotification(appID, notif);
      batch := nc.FlushNotifications();
      changes := nc.changes;
    }

    /** afCtx.DeletePfdTrans for each transaction of `transIDs` in turn, with its effect on the registry. */
    method DropTransactions(afID: string, afCtx: AfContext, transIDs: seq<string>)
      requires nefCtx.Consistent() && afID in nefCtx.afCtxs && afCtx == nefCtx.afCtxs[afID]
      modifies afCtx`pfdTrans
      ensures nefCtx.Consistent()
      ensures afCtx.pfdTrans == old(afCtx.pfdTrans) - Elems(transIDs)
      ensures afCtx.subsc == old(afCtx.subsc) && afCtx.numSubscID == old(afCtx.numSubscID) && afCtx.numTransID == old(afCtx.numTransID)
      ensures nefCtx.Registry() == old(nefCtx.Registry()) - AtTransIn(old(nefCtx.Registry()), afID, Elems(transIDs))
    {
      ghost var reg0 := nefCtx.Registry();
      DeletePfdTransAll(afCtx, transIDs);
      forall e ensures e in nefCtx.Registry() <==> e in reg0 - AtTransIn(reg0, afID, Elems(transIDs)) {
        if e.1 == afID {
          assert e in nefCtx.Registry() <==> e.2 !in Elems(transIDs) && old(nefCtx.ProvisionedAt(e.0, e.1, e.2));
        } else {
          assert e in nefCtx.Registry() <==> old(nefCtx.ProvisionedAt(e.0, e.1, e.2));
        }
      }
    }

    /** afCtx.DeletePfdTrans(transID) on a registered AF, with its effect on the registry. */
    method DropTrans(afID: string, transID: string)
      requires nefCtx.Consistent() && afID in nefCtx.afCtxs
      modifies nefCtx.AfObj(afID)`pfdTrans
      ensures nefCtx.Consistent()
      ensures afID in nefCtx.afCtxs && nefCtx.afCtxs[afID].pfdTrans == old(nefCtx.afCtxs[afID].pfdTrans) - {transID}
      ensures var a := nefCtx.afCtxs[afID];
        a.subsc == old(a.subsc) && a.numSubscID == old(a.numSubscID) && a.numTransID == old(a.numTransID)
      ensures nefCtx.Registry() == old(nefCtx.Registry()) - AtTrans(old(nefCtx.Registry()), afID, transID)
    {
      ghost var reg := nefCtx.Registry();
      var afCtx := nefCtx.afCtxs[afID];
      afCtx.DeletePfdTrans(transID);
      forall e ensures e in nefCtx.Registry() <==> e in reg - AtTrans(reg, afID, transID) {
        if e.1 == afID {
          assert e in nefCtx.Registry() <==> e.2 != transID && old(nefCtx.ProvisionedAt(e.0, e.1, e.2));
        } else {
          assert e in nefCtx.Registry() <==> old(nefCtx.ProvisionedAt(e.0, e.1, e.2));
        }
      }
    }

    /** t.DeleteExtAppID(appID) on a stored transaction, with its effect on the registry. */
    method RemoveExtAppID(afID: string, transID: string, t: AfPfdTransaction, appID: string)
      requires nefCtx.Consistent()
      requires afID in nefCtx.afCtxs && transID in nefCtx.afCtxs[afID].pfdTrans && t == nefCtx.afCtxs[afID].pfdTrans[transID]
      modifies t
      ensures nefCtx.Consistent()
      ensures nefCtx.Registry() == old(nefCtx.Registry()) - {(appID, afID, transID)}
    {
      ghost var reg := nefCtx.Registry();
      AtTransOfRegistry(nefCtx, afID, transID);
      t.DeleteExtAppID(appID);
      forall a, tr | a in nefCtx.afCtxs && tr in nefCtx.afCtxs[a].pfdTrans && (a != afID || tr != transID)
        ensures nefCtx.afCtxs[a].pfdTrans[tr] != t
      {
      }
      forall e ensures e in nefCtx.Registry() <==> e in reg - {(appID, afID, transID)} {
        if e.1 == afID && e.2 == transID {
          assert e in nefCtx.Registry() <==> e.0 in t.externalAppIDs;
        } else {
          assert e in nefCtx.Registry() <==> nefCtx.ProvisionedAt(e.0, e.1, e.2);
          assert e in reg <==> old(nefCtx.ProvisionedAt(e.0, e.1, e.2));
        }
      }
    }

    /**
     * One pass of the create/replace loop: appID joins the transaction, its
     * PfdData is converted and stored in the UDR; a stored application gets
     * its URI (built on the SBI URI `sbi`) and its PFDs are announced.
     */
    method StoreOne(sbi: string, afID: string, t: AfPfdTransaction, mng: PfdManagement, r: PfdManagement, appID: string,
                    nc: PfdNotifyContext)
      returns (r': PfdManagement, ghost pord: seq<string>, ghost content: seq<PfdContent>)
      requires nc.notifier == notifier && nc.Valid() && appID in mng.pfdDatas
      modifies t, nc
      ensures nc.Valid()
      ensures t.externalAppIDs == old(t.externalAppIDs) + {appID}
      ensures ConvertedData(mng.pfdDatas[appID], pord, content)
      ensures r' == StoreStep(udr, sbi, afID, t.transID, mng, r, appID)
      ensures nc.changes == old(nc.changes) + StoreNote(udr, appID, content)
    {
      t.AddExtAppID(appID);
      var pfdData := mng.pfdDatas[appID];
      var fa;
      fa, pord := ConvertPfdDataToPfdDataForApp(pfdData);
      content := fa.pfds;
      var report := StorePfdDataToUDR(appID);
      if report.Some? {
        r' := r.(pfdDatas := r.pfdDatas - {appID}, pfdReports := AddPfdReport(r.pfdReports, report.value));
        assert nc.changes == nc.changes + [];
      } else {
        pfdData := pfdData.(self := GenPfdDataURI(sbi, afID, t.GetTransID(), appID));
        r' := r.(pfdDatas := r.pfdDatas[appID := pfdData]);
        nc.AddNotification(appID, PfdChangeNotification(appID, false, fa.pfds));
      }
    }

    /**
     * The create/replace loop: every application of the request, in map
     * order `order`, joins the transaction whether or not the UDR stores it;
     * the request ends as StoreOutcome says and the stored applications are
     * announced in loop order.
     */
    method StoreApps(sbi: string, afID: string, t: AfPfdTransaction, mng: PfdManagement, nc: PfdNotifyContext)
      returns (r: PfdManagement, ghost order: seq<string>, ghost pords: seq<seq<string>>, ghost contents: seq<seq<PfdContent>>)
      requires nc.notifier == notifier && nc.Valid()
      modifies t, nc
      ensures nc.Valid()
      ensures IsEnumeration(order, mng.pfdDatas.Keys) && Converted(mng, order, pords, contents)
      ensures t.externalAppIDs == old(t.externalAppIDs) + mng.pfdDatas.Keys
      ensures r == StoreOutcome(udr, sbi, afID, t.transID, mng, order)
      ensures nc.changes == old(nc.changes) + StoreChanges(udr, order, contents)
    {
      r, order, pords, contents := mng, [], [], [];
      var rest := mng.pfdDatas.Keys;
      StoreVisitedInit(mng, t.externalAppIDs);
      assert old(nc.changes) + [] == old(nc.changes);
      while rest != {}
        invariant nc.Valid()
        invariant StoreVisited(mng, rest, order, pords, contents, old(t.externalAppIDs), t.externalAppIDs)
        invariant StoreProduced(udr, sbi, afID, t.transID, mng, r, order, contents, old(nc.changes), nc.changes)
        decreases |rest|
      {
        var appID :| appID in rest;
        ghost var r0, apps, changes := r, t.externalAppIDs, nc.changes;
        ghost var pord, content;
        r, pord, content := StoreOne(sbi, afID, t, mng, r, appID, nc);
        StoreVisitedStep(mng, rest, order, pords, contents, old(t.externalAppIDs), apps, appID, pord, content);
        StoreProducedStep(udr, sbi, afID, t.transID, mng, r0, order, contents, old(nc.changes), changes, appID, content);
        order, pords, contents := order + [appID], pords + [pord], contents + [content];
        rest := rest - {appID};
      }
      StoreVisitedDone(mng, order, pords, contents, old(t.externalAppIDs), t.externalAppIDs);
    }

    /** The create/replace loop in a fresh notification context, then the deferred FlushNotifications. */
    method StoreAllAndFlush(sbi: string, afID: string, t: AfPfdTransaction, mng: PfdManagement)
      returns (r: PfdManagement, batch: map<string, seq<PfdChangeNotification>>, ghost changes: seq<Change>,
               ghost order: seq<string>, ghost pords: seq<seq<string>>, ghost contents: seq<seq<PfdContent>>)
      modifies t
      ensures IsEnumeration(order, mng.pfdDatas.Keys) && Converted(mng, order, pords, contents)
      ensures t.externalAppIDs == old(t.externalAppIDs) + mng.pfdDatas.Keys
      ensures r == StoreOutcome(udr, sbi, afID, t.transID, mng, order)
      ensures changes == StoreChanges(udr, order, contents) && batch == Flushed(changes)
    {
      var nc := notifier.NewPfdNotifyContext();
      r, order, pords, contents := StoreApps(sbi, afID, t, mng, nc);
      batch := nc.FlushNotifications();
      changes := nc.changes;
    }

    /**
     * The first half of CreateTrans: the AF's next transaction is allocated
     * and the create loop stores the request's applications under it, in a
     * notification context of its own; the registry does not change yet.
     */
    method OpenAndStore(sbi: string, afID: string, afCtx: AfContext, mng: PfdManagement)
      returns (t: AfPfdTransaction, r: PfdManagement, batch: map<string, seq<PfdChangeNotification>>,
               ghost changes: seq<Change>, ghost order: seq<string>, ghost pords: seq<seq<string>>,
               ghost contents: seq<seq<PfdContent>>)
      requires nefCtx.Consistent() && afID in nefCtx.afCtxs && afCtx == nefCtx.afCtxs[afID]
      modifies afCtx`numTransID
      ensures nefCtx.Consistent() && nefCtx.Registry() == old(nefCtx.Registry())
      ensures fresh(t) && t !in nefCtx.Transactions()
      ensures afCtx.numTransID == old(afCtx.numTransID) + 1
      ensures t.transID == NatToString(old(afCtx.numTransID) + 1) && Issued(t.transID, afCtx.numTransID)
      ensures t.transID !in afCtx.pfdTrans && t.externalAppIDs == mng.pfdDatas.Keys
      ensures IsEnumeration(order, mng.pfdDatas.Keys) && Converted(mng, order, pords, contents)
      ensures changes == StoreChanges(udr, order, contents) && batch == Flushed(changes)
      ensures r == StoreOutcome(udr, sbi, afID, t.transID, mng, order)
    {
      t := nefCtx.NewAfPfdTrans(afCtx);
      ghost var reg := nefCtx.Registry();
      r, batch, changes, order, pords, contents := StoreAllAndFlush(sbi, afID, t, mng);
      assert nefCtx.Registry() == reg;
    }

    /**
     * PostPFDManagementTransactions once the AF is known: a new transaction
     * (the AF's next identifier) collects every application of the request,
     * in map order `order`, and the stored ones are announced in `batch`. When
     * the UDR stored none, the reports are returned with 500 and the
     * transaction is dropped; otherwise it is registered under the AF and the
     * request is returned with its URI.
     */
    method CreateTrans(sbi: string, afID: string, afCtx: AfContext, mng: PfdManagement)
      returns (rsp: HandlerResponse, batch: map<string, seq<PfdChangeNotification>>, ghost changes: seq<Change>,
               ghost transID: string, ghost num: nat, ghost order: seq<string>, ghost pords: seq<seq<string>>,
               ghost contents: seq<seq<PfdContent>>)
      requires nefCtx.Consistent() && afID in nefCtx.afCtxs && afCtx == nefCtx.afCtxs[afID]
      requires forall a :: a in mng.pfdDatas ==> !ProvisionedIn(nefCtx.Registry(), a)
      modifies nefCtx`afCtxs, afCtx`numTransID, afCtx`pfdTrans
      ensures nefCtx.Consistent() && nefCtx.afCtxs == old(nefCtx.afCtxs)
      ensures num == old(nefCtx.afCtxs[afID].numTransID) && transID == NatToString(num + 1)
      ensures afCtx.numTransID == num + 1 && afCtx.subsc == old(afCtx.subsc) && afCtx.numSubscID == old(afCtx.numSubscID)
      ensures batch == Flushed(changes)
      ensures Created(udr, sbi, afID, transID, mng, order, pords, contents, changes, rsp, old(nefCtx.Registry()), nefCtx.Registry())
    {
      num := afCtx.numTransID;
      var t, r;
      t, r, batch, changes, order, pords, contents := OpenAndStore(sbi, afID, afCtx, mng);
      transID := t.transID;
      KeepIfStored(afID, afCtx, t, r);
      rsp := CreateAnswer(sbi, afID, t.GetTransID(), r);
    }

    /**
     * The second half of CreateTrans: the transaction is registered under
     * the AF only when the UDR stored at least one of its applications.
     */
    method KeepIfStored(afID: string, afCtx: AfContext, t: AfPfdTransaction, r: PfdManagement)
      requires nefCtx.Consistent() && afID in nefCtx.afCtxs && afCtx == nefCtx.afCtxs[afID]
      requires t !in nefCtx.Transactions() && t.transID !in afCtx.pfdTrans && Issued(t.transID, afCtx.numTransID)
      requires forall a :: a in t.externalAppIDs ==> !ProvisionedIn(nefCtx.Registry(), a)
      modifies nefCtx`afCtxs, afCtx`pfdTrans
      ensures nefCtx.Consistent() && nefCtx.afCtxs == old(nefCtx.afCtxs)
      ensures afCtx.pfdTrans == if |r.pfdDatas| == 0 then old(afCtx.pfdTrans) else old(afCtx.pfdTrans)[t.transID := t]
      ensures nefCtx.Registry() ==
        if |r.pfdDatas| == 0 then old(nefCtx.Registry()) else old(nefCtx.Registry()) + Triples(t.externalAppIDs, afID, t.transID)
    {
      if |r.pfdDatas| != 0 {
        AddTransaction(nefCtx, afID, afCtx, t);
      }
    }

    /**
     * PostPFDManagementTransactions once validatePfdManagement answered
     * `problem`, leaving `mng` of the request: a problem is answered as it is,
     * or with the reports when its status is 500; otherwise the AF must be
     * registered (404 otherwise) and CreateTrans creates the transaction.
     */
    method PostChecked(afID: string, problem: Option<ProblemDetails>, mng: PfdManagement)
      returns (rsp: HandlerResponse, batch: map<string, seq<PfdChangeNotification>>, ghost changes: seq<Change>,
               ghost transID: string, ghost num: nat, ghost order: seq<string>, ghost pords: seq<seq<string>>,
               ghost contents: seq<seq<PfdContent>>)
      requires nefCtx.Consistent() && InternalFactory.HasSbi(cfg)
      requires problem.None? ==> forall a :: a in mng.pfdDatas ==> !ProvisionedIn(nefCtx.Registry(), a)
      modifies nefCtx`afCtxs, nefCtx.AfObj(afID)`numTransID, nefCtx.AfObj(afID)`pfdTrans
      ensures nefCtx.Consistent() && batch == Flushed(changes)
      ensures nefCtx.afCtxs == old(nefCtx.afCtxs)
      ensures afID in nefCtx.afCtxs ==> var a := nefCtx.afCtxs[afID];
        a.subsc == old(a.subsc) && a.numSubscID == old(a.numSubscID) &&
        a.numTransID == old(a.numTransID) + (if problem.None? then 1 else 0)
      ensures problem.Some? ==>
        changes == [] && nefCtx.Registry() == old(nefCtx.Registry()) &&
        rsp == RefusedAnswer(problem.value, mng)
      ensures problem.None? && afID !in old(nefCtx.afCtxs) ==>
        rsp == ProblemResponse(ProblemDataNotFound(DetailNoAF)) &&
        changes == [] && nefCtx.Registry() == old(nefCtx.Registry())
      ensures problem.None? && afID in old(nefCtx.afCtxs) ==>
        num == old(nefCtx.afCtxs[afID].numTransID) && transID == NatToString(num + 1) &&
        Created(udr, InternalFactory.GetSbiUri(cfg), afID, transID, mng, order, pords, contents, changes, rsp,
                old(nefCtx.Registry()), nefCtx.Registry())
    {
      if problem.Some? {
        FlushedNothing();
        return RefusedAnswer(problem.value, mng), map[], [], "", 0, [], [], [];
      }
      var afCtx := nefCtx.GetAfCtx(afID);
      if afCtx == null {
        FlushedNothing();
        return ProblemResponse(ProblemDataNotFound(DetailNoAF)), map[], [], "", 0, [], [], [];
      }
      rsp, batch, changes, transID, num, order, pords, contents := CreateTrans(InternalFactory.GetSbiUri(cfg), afID, afCtx, mng);
    }

    /**
     * PostPFDManagementTransactions: the request is validated against
     * transaction "-1" (no transaction of any AF), so every application
     * already provisioned is dropped as a duplicate; PostChecked answers.
     */
    method PostPFDManagementTransactions(afID: string, req: PfdManagement)
      returns (rsp: HandlerResponse, batch: map<string, seq<PfdChangeNotification>>,
               ghost problem: Option<ProblemDetails>, ghost vmng: PfdManagement, ghost changes: seq<Change>,
               ghost transID: string, ghost num: nat, ghost order: seq<string>, ghost pords: seq<seq<string>>,
               ghost contents: seq<seq<PfdContent>>)
      requires nefCtx.Consistent() && InternalFactory.HasSbi(cfg)
      modifies nefCtx`afCtxs, nefCtx.AfObj(afID)`numTransID, nefCtx.AfObj(afID)`pfdTrans
      ensures nefCtx.Consistent() && batch == Flushed(changes)
      ensures nefCtx.afCtxs == old(nefCtx.afCtxs)
      ensures afID in nefCtx.afCtxs ==> var a := nefCtx.afCtxs[afID];
        a.subsc == old(a.subsc) && a.numSubscID == old(a.numSubscID) &&
        a.numTransID == old(a.numTransID) + (if problem.None? then 1 else 0)
      ensures IsValidation(old(nefCtx.Registry()), afID, "-1", req, problem, vmng)
      ensures problem.Some? ==>
        changes == [] && nefCtx.Registry() == old(nefCtx.Registry()) &&
        rsp == RefusedAnswer(problem.value, vmng)
      ensures problem.None? && afID !in old(nefCtx.afCtxs) ==>
        rsp == ProblemResponse(ProblemDataNotFound(DetailNoAF)) &&
        changes == [] && nefCtx.Registry() == old(nefCtx.Registry())
      ensures problem.None? && afID in old(nefCtx.afCtxs) ==>
        num == old(nefCtx.afCtxs[afID].numTransID) && transID == NatToString(num + 1) &&
        Created(udr, InternalFactory.GetSbiUri(cfg), afID, transID, vmng, order, pords, contents, changes, rsp,
                old(nefCtx.Registry()), nefCtx.Registry())
    {
      var pd, m := ValidatePfdManagement(afID, "-1", req, nefCtx);
      problem, vmng := pd, m;
      if pd.None? {
        CreateAppsUnprovisioned(nefCtx, afID, req, pd, m);
      }
      rsp, batch, changes, transID, num, order, pords, contents := PostChecked(afID, pd, m);
    }

    /**
     * buildPfdManagement: the transaction's applications, in map order
     * `ids`, are read from the UDR in one call; a refusal of the UDR is
     * passed on, otherwise each entry the UDR lists becomes a PfdData with
     * its URI under the transaction's URI.
     */
    method BuildPfdManagement(afID: string, t: AfPfdTransaction)
      returns (mng: PfdManagement, failed: Option<HandlerResponse>, ghost ids: seq<string>)
      requires Wired()
      ensures IsEnumeration(ids, t.externalAppIDs)
      ensures failed.Some? <==> udr.pfdsGet(ids).status != StatusOK
      ensures failed.Some? ==> failed.value == PeerResponse(udr.pfdsGet(ids))
      ensures failed.None? ==> mng == Built(InternalFactory.GetSbiUri(cfg), afID, t.transID, udr.pfdsGet(ids).body.apps)
    {
      var sbi := InternalFactory.GetSbiUri(cfg);
      var transID := t.GetTransID();
      var appIDs := t.GetExtAppIDs();
      ids := appIDs;
      mng := PfdManagement(GenPfdManagementURI(sbi, afID, transID), map[], map[]);
      var reply := udr.pfdsGet(appIDs);
      if reply.status != StatusOK {
        return mng, Some(PeerResponse(reply)), ids;
      }
      var apps := reply.body.apps;
      var i := 0;
      while i < |apps|
        invariant i <= |apps|
        invariant mng == Built(sbi, afID, transID, apps[..i])
      {
        var d := ConvertPfdDataForAppToPfdData(apps[i]);
        d := d.(self := GenPfdDataURI(sbi, afID, transID, d.externalAppId));
        BuiltStep(sbi, afID, transID, apps, i);
        mng := mng.(pfdDatas := mng.pfdDatas[d.externalAppId := d]);
        i := i + 1;
      }
      assert apps[..i] == apps;
      failed := None;
    }

    /**
     * GetIndividualPFDManagementTransaction: a missing AF or transaction is
     * answered with 404, a refusal of the UDR with its reply, and otherwise
     * the transaction as buildPfdManagement assembles it, with 200.
     */
    method GetIndividualPFDManagementTransaction(afID: string, transID: string)
      returns (rsp: HandlerResponse, ghost ids: seq<string>)
      requires Wired() && nefCtx.Valid()
      ensures nefCtx.GetAfCtxAndPfdTransWithTransID(afID, transID).Err? ==>
        rsp == ProblemResponse(ProblemDataNotFound(nefCtx.GetAfCtxAndPfdTransWithTransID(afID, transID).error))
      ensures nefCtx.GetAfCtxAndPfdTransWithTransID(afID, transID).Ok? ==>
        IsEnumeration(ids, nefCtx.AppsAt(afID, transID)) &&
        (udr.pfdsGet(ids).status != StatusOK ==> rsp == PeerResponse(udr.pfdsGet(ids))) &&
        (udr.pfdsGet(ids).status == StatusOK ==>
           rsp == HandlerResponse(StatusOK, None,
             Management(Built(InternalFactory.GetSbiUri(cfg), afID, transID, udr.pfdsGet(ids).body.apps))))
    {
      var r := nefCtx.GetAfCtxAndPfdTransWithTransID(afID, transID);
      if r.Err? {
        return ProblemResponse(ProblemDataNotFound(r.error)), [];
      }
      var mng, failed;
      mng, failed, ids := BuildPfdManagement(afID, r.value.1);
      if failed.Some? {
        return failed.value, ids;
      }
      rsp := HandlerResponse(StatusOK, None, Management(mng));
    }

    /**
     * GetPFDManagementTransactions: an unknown AF is answered with 404;
     * otherwise each transaction of the AF, in map order `torder`, is built
     * from the UDR (its applications asked for in map order `aorders[k]`)
     * until the UDR refuses one, whose reply is returned; when none is
     * refused the `done` managements `mngs` are listed with 200.
     */
    method GetPFDManagementTransactions(afID: string)
      returns (rsp: HandlerResponse, ghost torder: seq<string>, ghost aorders: seq<seq<string>>,
               ghost mngs: seq<PfdManagement>, done: nat)
      requires Wired() && nefCtx.Valid()
      ensures afID !in nefCtx.afCtxs ==> rsp == ProblemResponse(ProblemDataNotFound(DetailNoAF))
      ensures afID in nefCtx.afCtxs ==>
        var pfdTrans := nefCtx.afCtxs[afID].pfdTrans;
        IsEnumeration(torder, pfdTrans.Keys) && |mngs| == done <= |torder| && done <= |aorders| &&
        (forall k :: 0 <= k < done ==> BuiltFrom(afID, torder[k], pfdTrans[torder[k]].externalAppIDs, aorders[k], mngs[k])) &&
        (done < |torder| ==>
           |aorders| == done + 1 && RefusedBy(pfdTrans[torder[done]].externalAppIDs, aorders[done], rsp)) &&
        (done == |torder| ==>
           |aorders| == done && rsp == HandlerResponse(StatusOK, None, Managements(mngs)))
    {
      var afCtx := nefCtx.GetAfCtx(afID);
      if afCtx == null {
        return ProblemResponse(ProblemDataNotFound(DetailNoAF)), [], [], [], 0;
      }
      var ts;
      ts, torder := afCtx.GetAllPfdTrans();
      var failed, built;
      ghost var sets := seq(|ts|, k requires 0 <= k < |ts| reads ts => ts[k].externalAppIDs);
      failed, built, aorders := BuildAll(afID, ts, sets);
      mngs, done := built, |built|;
      if failed.Some? {
        return failed.value, torder, aorders, mngs, done;
      }
      rsp := HandlerResponse(StatusOK, None, Managements(built));
    }

    /**
     * buildPfdManagement answered `m` for transaction transID, whose
     * applications `apps` it asked the UDR for in order `ids`.
     */
    ghost predicate BuiltFrom(afID: string, transID: string, apps: set<string>, ids: seq<string>, m: PfdManagement)
    {
      InternalFactory.HasSbi(cfg) && IsEnumeration(ids, apps) &&
      udr.pfdsGet(ids).status == StatusOK && udr.pfdsGet(ids).body.PfdAppsBody? &&
      m == Built(InternalFactory.GetSbiUri(cfg), afID, transID, udr.pfdsGet(ids).body.apps)
    }

    /** buildPfdManagement refused the transaction with applications `apps`, asked for in order `ids`, with `rsp`. */
    ghost predicate RefusedBy(apps: set<string>, ids: seq<string>, rsp: HandlerResponse)
    {
      IsEnumeration(ids, apps) && udr.pfdsGet(ids).status != StatusOK && rsp == PeerResponse(udr.pfdsGet(ids))
    }

    /** The loop step of BuildAll: one more transaction built. */
    lemma AllBuiltSnoc(afID: string, ts: seq<AfPfdTransaction>, sets: seq<set<string>>, aorders: seq<seq<string>>,
                       mngs: seq<PfdManagement>, ids: seq<string>, m: PfdManagement)
      requires |mngs| == |aorders| < |ts| == |sets|
      requires forall k :: 0 <= k < |mngs| ==> BuiltFrom(afID, ts[k].transID, sets[k], aorders[k], mngs[k])
      requires BuiltFrom(afID, ts[|mngs|].transID, sets[|mngs|], ids, m)
      ensures forall k :: 0 <= k < |mngs| + 1 ==> BuiltFrom(afID, ts[k].transID, sets[k], (aorders + [ids])[k], (mngs + [m])[k])
    {
    }

    /**
     * The loop of GetPFDManagementTransactions over the transactions `ts`,
     * with applications `sets`: each is built in turn until the UDR refuses
     * one.
     */
    method BuildAll(afID: string, ts: seq<AfPfdTransaction>, ghost sets: seq<set<string>>)
      returns (failed: Option<HandlerResponse>, mngs: seq<PfdManagement>, ghost aorders: seq<seq<string>>)
      requires Wired()
      requires |sets| == |ts| && forall k :: 0 <= k < |ts| ==> ts[k].externalAppIDs == sets[k]
      ensures |mngs| <= |aorders| <= |ts|
      ensures forall k :: 0 <= k < |mngs| ==> BuiltFrom(afID, ts[k].transID, sets[k], aorders[k], mngs[k])
      ensures failed.None? ==> |mngs| == |aorders| == |ts|
      ensures failed.Some? ==> |aorders| == |mngs| + 1 && RefusedBy(sets[|mngs|], aorders[|mngs|], failed.value)
    {
      mngs, aorders := [], [];
      while |mngs| < |ts|
        invariant |mngs| == |aorders| <= |ts|
        invariant forall k :: 0 <= k < |mngs| ==> BuiltFrom(afID, ts[k].transID, sets[k], aorders[k], mngs[k])
      {
        var m, f, ids := BuildPfdManagement(afID, ts[|mngs|]);
        if f.Some? {
          return f, mngs, aorders + [ids];
        }
        AllBuiltSnoc(afID, ts, sets, aorders, mngs, ids, m);
        mngs, aorders := mngs + [m], aorders + [ids];
      }
      failed := None;
    }

    /**
     * The UDR loops of the replace handler in one notification context,
     * flushed at the end: the applications of `dep` are deleted and their
     * removals queued until the UDR refuses one; when all are deleted the
     * transaction is emptied and the create/replace loop stores the request.
     */
    method ReplaceAndFlush(sbi: string, afID: string, t: AfPfdTransaction, dep: seq<string>, mng: PfdManagement)
      returns (failed: Option<HandlerResponse>, r: PfdManagement, batch: map<string, seq<PfdChangeNotification>>,
               ghost changes: seq<Change>, ghost order: seq<string>, ghost pords: seq<seq<string>>,
               ghost contents: seq<seq<PfdContent>>)
      modifies t
      ensures batch == Flushed(changes)
      ensures Relisted(udr, sbi, afID, t.transID, mng, dep, failed, r, changes, order, pords, contents)
      ensures t.externalAppIDs == if failed.Some? then old(t.externalAppIDs) else mng.pfdDatas.Keys
    {
      var nc := notifier.NewPfdNotifyContext();
      failed, r, order, pords, contents := ReplaceInto(sbi, afID, t, dep, mng, nc);
      batch := nc.FlushNotifications();
      changes := nc.changes;
    }

    /** The loops of ReplaceAndFlush, queueing the notifications in `nc`. */
    method ReplaceInto(sbi: string, afID: string, t: AfPfdTransaction, dep: seq<string>, mng: PfdManagement,
                       nc: PfdNotifyContext)
      returns (failed: Option<HandlerResponse>, r: PfdManagement, ghost order: seq<string>,
               ghost pords: seq<seq<string>>, ghost contents: seq<seq<PfdContent>>)
      requires nc.notifier == notifier && nc.Valid() && nc.changes == []
      modifies t, nc
      ensures nc.Valid()
      ensures failed.Some? <==> DeletedPrefix(udr, dep) < |dep|
      ensures failed.Some? ==>
        failed.value == PeerResponse(udr.appIdDelete(dep[DeletedPrefix(udr, dep)])) &&
        r == mng && nc.changes == Removals(dep[..DeletedPrefix(udr, dep)]) && t.externalAppIDs == old(t.externalAppIDs)
      ensures failed.None? ==>
        IsEnumeration(order, mng.pfdDatas.Keys) && Converted(mng, order, pords, contents) &&
        t.externalAppIDs == mng.pfdDatas.Keys && r == StoreOutcome(udr, sbi, afID, t.transID, mng, order) &&
        nc.changes == Removals(dep) + StoreChanges(udr, order, contents)
    {
      failed := DeleteApps(dep, nc);
      r, order, pords, contents := mng, [], [], [];
      if failed.Some? {
        assert [] + Removals(dep[..DeletedPrefix(udr, dep)]) == Removals(dep[..DeletedPrefix(udr, dep)]);
        return;
      }
      assert nc.changes == Removals(dep) by {
        assert dep[..|dep|] == dep;
        assert [] + Removals(dep) == Removals(dep);
      }
      t.DeleteAllExtAppIDs();
      r, order, pords, contents := StoreApps(sbi, afID, t, mng, nc);
    }

    /**
     * PutIndividualPFDManagementTransaction once the transaction `t` is
     * found: the deprecated applications are deleted, then the request's
     * applications replace the transaction's.
     */
    method PutStored(sbi: string, afID: string, transID: string, t: AfPfdTransaction, mng: PfdManagement)
      returns (rsp: HandlerResponse, batch: map<string, seq<PfdChangeNotification>>, ghost changes: seq<Change>,
               ghost ids: seq<string>, ghost order: seq<string>, ghost pords: seq<seq<string>>,
               ghost contents: seq<seq<PfdContent>>)
      requires nefCtx.Consistent() && afID in nefCtx.afCtxs && transID in nefCtx.afCtxs[afID].pfdTrans
      requires t == nefCtx.afCtxs[afID].pfdTrans[transID]
      requires forall a :: a in mng.pfdDatas ==> !ProvisionedIn(nefCtx.Registry(), a) || (a, afID, transID) in nefCtx.Registry()
      modifies t
      ensures nefCtx.Consistent() && batch == Flushed(changes)
      ensures IsEnumeration(ids, old(t.externalAppIDs))
      ensures Replaced(udr, sbi, afID, transID, mng, ids, order, pords, contents, changes, rsp,
                       old(nefCtx.Registry()), nefCtx.Registry())
    {
      ghost var reg := nefCtx.Registry();
      AtTransOfRegistry(nefCtx, afID, transID);
      var appIDs := t.GetExtAppIDs();
      ids := appIDs;
      var dep := DeprecatedAppIDs(appIDs, mng.pfdDatas);
      assert nefCtx.Registry() == reg;
      var failed, r;
      failed, r, batch, changes, order, pords, contents := RelistTrans(sbi, afID, transID, t, dep, mng);
      rsp := if failed.Some? then failed.value else ReplaceAnswer(sbi, afID, transID, r);
      ReplacedOf(udr, sbi, afID, transID, mng, ids, dep, failed, r, changes, order, pords, contents, rsp,
                 reg, nefCtx.Registry(), old(t.externalAppIDs), t.externalAppIDs);
    }

    /**
     * The replace handler after validation: a problem is answered (the
     * reports with 500, else the problem), an unknown AF or transaction with
     * 404 and the lookup's error; otherwise PutStored replaces the
     * transaction.
     */
    method PutChecked(afID: string, transID: string, problem: Option<ProblemDetails>, mng: PfdManagement)
      returns (rsp: HandlerResponse, batch: map<string, seq<PfdChangeNotification>>, ghost changes: seq<Change>,
               ghost ids: seq<string>, ghost order: seq<string>, ghost pords: seq<seq<string>>,
               ghost contents: seq<seq<PfdContent>>)
      requires nefCtx.Consistent() && InternalFactory.HasSbi(cfg)
      requires problem.None? ==>
        forall a :: a in mng.pfdDatas ==> !ProvisionedIn(nefCtx.Registry(), a) || (a, afID, transID) in nefCtx.Registry()
      modifies nefCtx.TransObj(afID, transID)
      ensures nefCtx.Consistent() && batch == Flushed(changes)
      ensures problem.Some? ==>
        changes == [] && nefCtx.Registry() == old(nefCtx.Registry()) &&
        rsp == RefusedAnswer(problem.value, mng)
      ensures problem.None? && old(nefCtx.GetAfCtxAndPfdTransWithTransID(afID, transID)).Err? ==>
        rsp == ProblemResponse(ProblemDataNotFound(old(nefCtx.GetAfCtxAndPfdTransWithTransID(afID, transID)).error)) &&
        changes == [] && nefCtx.Registry() == old(nefCtx.Registry())
      ensures problem.None? && old(nefCtx.GetAfCtxAndPfdTransWithTransID(afID, transID)).Ok? ==>
        IsEnumeration(ids, old(nefCtx.AppsAt(afID, transID))) &&
        Replaced(udr, InternalFactory.GetSbiUri(cfg), afID, transID, mng, ids, order, pords, contents, changes, rsp,
                 old(nefCtx.Registry()), nefCtx.Registry())
    {
      if problem.Some? {
        FlushedNothing();
        return RefusedAnswer(problem.value, mng), map[], [], [], [], [], [];
      }
      var found := nefCtx.GetAfCtxAndPfdTransWithTransID(afID, transID);
      if found.Err? {
        FlushedNothing();
        return ProblemResponse(ProblemDataNotFound(found.error)), map[], [], [], [], [], [];
      }
      rsp, batch, changes, ids, order, pords, contents :=
        PutStored(InternalFactory.GetSbiUri(cfg), afID, transID, found.value.1, mng);
    }

    /**
     * PutIndividualPFDManagementTransaction: the request is validated
     * against transaction (afID, transID), whose own applications are no
     * duplicates; PutChecked answers.
     */
    method PutIndividualPFDManagementTransaction(afID: string, transID: string, req: PfdManagement)
      returns (rsp: HandlerResponse, batch: map<string, seq<PfdChangeNotification>>,
               ghost problem: Option<ProblemDetails>, ghost vmng: PfdManagement, ghost changes: seq<Change>,
               ghost ids: seq<string>, ghost order: seq<string>, ghost pords: seq<seq<string>>,
               ghost contents: seq<seq<PfdContent>>)
      requires nefCtx.Consistent() && InternalFactory.HasSbi(cfg)
      modifies nefCtx.TransObj(afID, transID)
      ensures nefCtx.Consistent() && batch == Flushed(changes)
      ensures IsValidation(old(nefCtx.Registry()), afID, transID, req, problem, vmng)
      ensures problem.Some? ==>
        changes == [] && nefCtx.Registry() == old(nefCtx.Registry()) &&
        rsp == RefusedAnswer(problem.value, vmng)
      ensures problem.None? && old(nefCtx.GetAfCtxAndPfdTransWithTransID(afID, transID)).Err? ==>
        rsp == ProblemResponse(ProblemDataNotFound(old(nefCtx.GetAfCtxAndPfdTransWithTransID(afID, transID)).error)) &&
        changes == [] && nefCtx.Registry() == old(nefCtx.Registry())
      ensures problem.None? && old(nefCtx.GetAfCtxAndPfdTransWithTransID(afID, transID)).Ok? ==>
        IsEnumeration(ids, old(nefCtx.AppsAt(afID, transID))) &&
        Replaced(udr, InternalFactory.GetSbiUri(cfg), afID, transID, vmng, ids, order, pords, contents, changes, rsp,
                 old(nefCtx.Registry()), nefCtx.Registry())
    {
      var pd, m := ValidatePfdManagement(afID, transID, req, nefCtx);
      problem, vmng := pd, m;
      if pd.None? {
        ReplaceAppsAvailable(nefCtx.Registry(), afID, transID, req, pd, m);
      }
      rsp, batch, changes, ids, order, pords, contents := PutChecked(afID, transID, pd, m);
    }

    /**
     * ReplaceAndFlush on the stored transaction (afID, transID), with its
     * effect on the registry: none when the UDR refused a deletion, else the
     * transaction's triples become those of the request's applications.
     */
    method RelistTrans(sbi: string, afID: string, transID: string, t: AfPfdTransaction, dep: seq<string>, mng: PfdManagement)
      returns (failed: Option<HandlerResponse>, r: PfdManagement, batch: map<string, seq<PfdChangeNotification>>,
               ghost changes: seq<Change>, ghost order: seq<string>, ghost pords: seq<seq<string>>,
               ghost contents: seq<seq<PfdContent>>)
      requires nefCtx.Consistent() && afID in nefCtx.afCtxs && transID in nefCtx.afCtxs[afID].pfdTrans
      requires t == nefCtx.afCtxs[afID].pfdTrans[transID]
      requires forall a :: a in mng.pfdDatas ==> !ProvisionedIn(nefCtx.Registry(), a) || (a, afID, transID) in nefCtx.Registry()
      modifies t
      ensures nefCtx.Consistent() && batch == Flushed(changes)
      ensures Relisted(udr, sbi, afID, transID, mng, dep, failed, r, changes, order, pords, contents)
      ensures nefCtx.Registry() ==
        (old(nefCtx.Registry()) - AtTrans(old(nefCtx.Registry()), afID, transID)) + Triples(t.externalAppIDs, afID, transID)
      ensures t.externalAppIDs == if failed.Some? then old(t.externalAppIDs) else mng.pfdDatas.Keys
    {
      ghost var reg := nefCtx.Registry();
      AtTransOfRegistry(nefCtx, afID, transID);
      failed, r, batch, changes, order, pords, contents := ReplaceAndFlush(sbi, afID, t, dep, mng);
      forall a, tr | a in nefCtx.afCtxs && tr in nefCtx.afCtxs[a].pfdTrans && (a != afID || tr != transID)
        ensures nefCtx.afCtxs[a].pfdTrans[tr] != t
      {
      }
      forall app, a, tr
        ensures (app, a, tr) in nefCtx.Registry() <==>
                if a == afID && tr == transID then app in t.externalAppIDs else (app, a, tr) in reg
      {
        if a != afID || tr != transID {
          assert (app, a, tr) in nefCtx.Registry() <==> old(nefCtx.ProvisionedAt(app, a, tr));
        }
      }
      RetargetedRegistry(reg, nefCtx.Registry(), afID, transID, t.externalAppIDs);
      UniqueReplace(reg, t.externalAppIDs, afID, transID);
    }
  }
}
