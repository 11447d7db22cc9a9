/**
 * The PFD subscription index kept both by the NEF context (PfdSubInfo in
 * internal/context/nef_context.go) and by the PFD change notifier
 * (internal/notifier/pfd_notifier.go): a counter for subscription
 * identifiers, the subscribers of each application, and the notification
 * URI of each subscription. Both Go types run the same code; this module
 * holds what that code computes and what it preserves.
 */
module PfdSubIndex {
  import opened Common
  import opened Models

  datatype PfdSubInfo = PfdSubInfo(
    numPfdSubID: nat,
    appIdToSubIDs: map<string, set<string>>,
    subIdToURI: map<string, string>)

  /** The subscribers of an application; none when the application is not indexed. */
  function SubsOf(index: map<string, set<string>>, appID: string): set<string>
  {
    if appID in index then index[appID] else {}
  }

  /** The index after subID has been added under every listed application. */
  function Indexed(index: map<string, set<string>>, appIDs: seq<string>, subID: string): map<string, set<string>>
  {
    map a | a in index.Keys + (set x | x in appIDs) ::
      SubsOf(index, a) + (if a in appIDs then {subID} else {})
  }

  /** The index after subID has been removed from every application's set. */
  function Unindexed(index: map<string, set<string>>, subID: string): map<string, set<string>>
  {
    map a | a in index :: index[a] - {subID}
  }

  /**
   * Every subscription identifier in use was drawn from the counter, and the
   * index only names subscriptions that have a notification URI.
   */
  ghost predicate IndexValid(num: nat, index: map<string, set<string>>, uris: map<string, string>)
  {
    (forall s :: s in uris ==> Issued(s, num)) &&
    (forall a, s :: a in index && s in index[a] ==> s in uris)
  }

  lemma IndexedStep(index: map<string, set<string>>, appIDs: seq<string>, i: nat, subID: string)
    requires i < |appIDs|
    ensures Indexed(index, appIDs[..i + 1], subID)
         == Indexed(index, appIDs[..i], subID)[appIDs[i] := SubsOf(Indexed(index, appIDs[..i], subID), appIDs[i]) + {subID}]
  {
    var a := appIDs[i];
    var before := Indexed(index, appIDs[..i], subID);
    var after := Indexed(index, appIDs[..i + 1], subID);
    var expected := before[a := SubsOf(before, a) + {subID}];
    assert appIDs[..i + 1] == appIDs[..i] + [a];
    assert forall x :: x in appIDs[..i + 1] <==> x in appIDs[..i] || x == a;
    assert after.Keys == expected.Keys;
    forall x | x in after ensures after[x] == expected[x] {
      if x == a {
        assert after[x] == SubsOf(index, a) + {subID};
      }
    }
  }

  /**
   * AddPfdSub indexes a fresh subscription under exactly the listed
   * applications; with no application listed it is indexed nowhere.
   */
  lemma {:induction false} AddIndexesExactly(info: PfdSubInfo, appIDs: seq<string>)
    requires IndexValid(info.numPfdSubID, info.appIdToSubIDs, info.subIdToURI)
    ensures var subID := NatToString(info.numPfdSubID + 1);
      var index := Indexed(info.appIdToSubIDs, appIDs, subID);
      forall a :: (a in index && subID in index[a]) <==> a in appIDs
  {
    var subID := NatToString(info.numPfdSubID + 1);
    var index := Indexed(info.appIdToSubIDs, appIDs, subID);
    forall a | a in index && subID in index[a] ensures a in appIDs {
      if a !in appIDs {
        assert subID in info.appIdToSubIDs[a];
        NextIdIsFresh(subID, info.numPfdSubID);
      }
    }
  }

  /** Adding a fresh subscription keeps the index consistent with the URI map. */
  lemma AddKeepsIndexValid(info: PfdSubInfo, appIDs: seq<string>, uri: string)
    requires IndexValid(info.numPfdSubID, info.appIdToSubIDs, info.subIdToURI)
    ensures var subID := NatToString(info.numPfdSubID + 1);
      IndexValid(info.numPfdSubID + 1, Indexed(info.appIdToSubIDs, appIDs, subID), info.subIdToURI[subID := uri])
  {
    var subID := NatToString(info.numPfdSubID + 1);
    NextIdIssued(info.numPfdSubID);
    forall s | s in info.subIdToURI ensures Issued(s, info.numPfdSubID + 1) {
      IssuedGrows(s, info.numPfdSubID, info.numPfdSubID + 1);
    }
  }

  /** Removing a subscription leaves every other subscriber of every application in place. */
  lemma UnindexedKeepsOthers(index: map<string, set<string>>, subID: string)
    ensures Unindexed(index, subID).Keys == index.Keys
    ensures forall a :: a in index ==> subID !in Unindexed(index, subID)[a]
    ensures forall a, s :: a in index && s != subID ==> (s in Unindexed(index, subID)[a] <==> s in index[a])
  {
  }

  lemma DeleteKeepsIndexValid(info: PfdSubInfo, subID: string)
    requires IndexValid(info.numPfdSubID, info.appIdToSubIDs, info.subIdToURI)
    ensures IndexValid(info.numPfdSubID, Unindexed(info.appIdToSubIDs, subID), info.subIdToURI - {subID})
  {
  }

  /**
   * Deleting the subscription just added gives every application back its
   * earlier subscriber set; applications first indexed by it keep an empty set.
   */
  lemma {:induction false} AddThenDeleteRestores(info: PfdSubInfo, appIDs: seq<string>)
    requires IndexValid(info.numPfdSubID, info.appIdToSubIDs, info.subIdToURI)
    ensures var subID := NatToString(info.numPfdSubID + 1);
      var back := Unindexed(Indexed(info.appIdToSubIDs, appIDs, subID), subID);
      (forall a :: a in info.appIdToSubIDs ==> a in back && back[a] == info.appIdToSubIDs[a]) &&
      (forall a :: a in back && a !in info.appIdToSubIDs ==> back[a] == {})
  {
    var subID := NatToString(info.numPfdSubID + 1);
    forall a | a in info.appIdToSubIDs ensures subID !in info.appIdToSubIDs[a] {
      if subID in info.appIdToSubIDs[a] {
        NextIdIsFresh(subID, info.numPfdSubID);
      }
    }
  }

  /** The loop of AddPfdSub over the listed applications: creates missing sets, then adds subID. */
  method AddToIndex(index: map<string, set<string>>, appIDs: seq<string>, subID: string)
    returns (r: map<string, set<string>>)
    ensures r == Indexed(index, appIDs, subID)
  {
    r := index;
    var i := 0;
    IndexedNone(index, appIDs, subID);
    while i < |appIDs|
      invariant 0 <= i <= |appIDs|
      invariant r == Indexed(index, appIDs[..i], subID)
    {
      var a := appIDs[i];
      IndexedStep(index, appIDs, i, subID);
      if a !in r {
        r := r[a := {}];
      }
      r := r[a := r[a] + {subID}];
      i := i + 1;
    }
    assert appIDs[..i] == appIDs;
  }

  /** Before the loop nothing has been indexed yet. */
  lemma IndexedNone(index: map<string, set<string>>, appIDs: seq<string>, subID: string)
    ensures Indexed(index, appIDs[..0], subID) == index
  {
    var e := Indexed(index, appIDs[..0], subID);
    assert appIDs[..0] == [];
    assert (set x | x in appIDs[..0]) == {};
    assert e.Keys == index.Keys;
    forall a | a in index ensures e[a] == index[a] {
    }
  }

  /** The loop of DeletePfdSub over every application's set, in map order. */
  method RemoveFromIndex(index: map<string, set<string>>, subID: string)
    returns (r: map<string, set<string>>)
    ensures r == Unindexed(index, subID)
  {
    r := index;
    var rest := index.Keys;
    while rest != {}
      invariant rest <= index.Keys && r.Keys == index.Keys
      invariant forall a :: a in index ==> r[a] == if a in rest then index[a] else index[a] - {subID}
      decreases |rest|
    {
      var a :| a in rest;
      r := r[a := r[a] - {subID}];
      rest := rest - {a};
    }
  }

  /**
   * AddPfdSub: draws the next subscription identifier, records its
   * notification URI and indexes it under every listed application.
   */
  method AddSub(info: PfdSubInfo, pfdSub: PfdSubscription) returns (r: PfdSubInfo, subID: string)
    requires IndexValid(info.numPfdSubID, info.appIdToSubIDs, info.subIdToURI)
    ensures IndexValid(r.numPfdSubID, r.appIdToSubIDs, r.subIdToURI)
    ensures r.numPfdSubID == info.numPfdSubID + 1
    ensures subID == NatToString(r.numPfdSubID)
    ensures subID !in info.subIdToURI
    ensures r.subIdToURI == info.subIdToURI[subID := pfdSub.notifyUri]
    ensures r.appIdToSubIDs == Indexed(info.appIdToSubIDs, pfdSub.applicationIds, subID)
    ensures forall a :: a in pfdSub.applicationIds <==> subID in SubsOf(r.appIdToSubIDs, a)
  {
    AddKeepsIndexValid(info, pfdSub.applicationIds, pfdSub.notifyUri);
    AddIndexesExactly(info, pfdSub.applicationIds);
    subID := NatToString(info.numPfdSubID + 1);
    if subID in info.subIdToURI {
      NextIdIsFresh(subID, info.numPfdSubID);
    }
    var index := AddToIndex(info.appIdToSubIDs, pfdSub.applicationIds, subID);
    r := PfdSubInfo(info.numPfdSubID + 1, index, info.subIdToURI[subID := pfdSub.notifyUri]);
  }

  /**
   * DeletePfdSub: an unknown identifier is an error and changes nothing;
   * otherwise the URI and every index entry of the subscription go.
   */
  method DeleteSub(info: PfdSubInfo, subID: string) returns (r: PfdSubInfo, err: Option<string>)
    requires IndexValid(info.numPfdSubID, info.appIdToSubIDs, info.subIdToURI)
    ensures IndexValid(r.numPfdSubID, r.appIdToSubIDs, r.subIdToURI)
    ensures r.numPfdSubID == info.numPfdSubID
    ensures subID !in info.subIdToURI ==> err == Some("Subscription not found") && r == info
    ensures subID in info.subIdToURI ==>
      err == None &&
      r.subIdToURI == info.subIdToURI - {subID} &&
      r.appIdToSubIDs == Unindexed(info.appIdToSubIDs, subID)
  {
    if subID !in info.subIdToURI {
      return info, Some("Subscription not found");
    }
    DeleteKeepsIndexValid(info, subID);
    var index := RemoveFromIndex(info.appIdToSubIDs, subID);
    r := PfdSubInfo(info.numPfdSubID, index, info.subIdToURI - {subID});
    err := None;
  }
}
