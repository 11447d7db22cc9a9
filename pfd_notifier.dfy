/**
 * The PFD change notifier (internal/notifier/pfd_notifier.go): the
 * subscription index of the Nnef_PFDManagement service (3GPP TS 29.551) and
 * the per-request batching of change notifications. A request queues one
 * notification per changed application in a PfdNotifyContext; at the end of
 * the request every subscriber of a changed application receives one list.
 * The HTTP send of each list is not part of this model.
 */
module PfdNotifier {
  import opened Common
  import opened Models
  import opened PfdSubIndex

  // ---------------------------------------------------------------------------
  // What a request's notifications amount to
  // ---------------------------------------------------------------------------

  /** One AddNotification call: the changed application and its notification. */
  datatype Change = Change(appID: string, notif: PfdChangeNotification)

  /** The notification kept for each application: the one queued last. */
  function Latest(changes: seq<Change>): map<string, PfdChangeNotification>
    decreases |changes|
  {
    if changes == [] then map[]
    else
      var last := changes[|changes| - 1];
      Latest(changes[..|changes| - 1])[last.appID := last.notif]
  }

  /** appID appended to the changed list of every subscriber in `subs`. */
  function AppendChanged(m: map<string, seq<string>>, subs: set<string>, appID: string): map<string, seq<string>>
  {
    map s | s in m.Keys + subs :: (if s in m then m[s] else []) + (if s in subs then [appID] else [])
  }

  /** subIdToChangedAppIDs after the given calls, replayed one by one against the index. */
  function ChangedApps(index: map<string, set<string>>, changes: seq<Change>): map<string, seq<string>>
    decreases |changes|
  {
    if changes == [] then map[]
    else
      var last := changes[|changes| - 1];
      AppendChanged(ChangedApps(index, changes[..|changes| - 1]), SubsOf(index, last.appID), last.appID)
  }

  /**
   * Reference definition, per subscriber: the applications of the calls that
   * concern subscriber s, in call order.
   */
  function AppsFor(index: map<string, set<string>>, changes: seq<Change>, s: string): seq<string>
    decreases |changes|
  {
    if changes == [] then []
    else
      var last := changes[|changes| - 1];
      AppsFor(index, changes[..|changes| - 1], s) + (if s in SubsOf(index, last.appID) then [last.appID] else [])
  }

  /** Go's map lookup: the zero notification for an absent application. */
  function LookupNotif(m: map<string, PfdChangeNotification>, appID: string): PfdChangeNotification
  {
    if appID in m then m[appID] else ZeroNotification
  }

  function Notifications(m: map<string, PfdChangeNotification>, appIDs: seq<string>): seq<PfdChangeNotification>
  {
    seq(|appIDs|, i requires 0 <= i < |appIDs| => LookupNotif(m, appIDs[i]))
  }

  /** The list FlushNotifications builds for each subscriber. */
  function Batch(notifs: map<string, PfdChangeNotification>, changed: map<string, seq<string>>)
    : map<string, seq<PfdChangeNotification>>
  {
    map s | s in changed :: Notifications(notifs, changed[s])
  }

  lemma {:induction false} ChangedAppsIsAppsFor(index: map<string, set<string>>, changes: seq<Change>)
    ensures forall s :: s in ChangedApps(index, changes) <==> AppsFor(index, changes, s) != []
    ensures forall s :: s in ChangedApps(index, changes) ==> ChangedApps(index, changes)[s] == AppsFor(index, changes, s)
    decreases |changes|
  {
    if changes != [] {
      ChangedAppsIsAppsFor(index, changes[..|changes| - 1]);
    }
  }

  lemma {:induction false} LatestIsLastQueued(changes: seq<Change>)
    ensures forall a :: a in Latest(changes) <==> exists i :: 0 <= i < |changes| && changes[i].appID == a
    ensures forall a :: a in Latest(changes) ==>
      exists i :: (0 <= i < |changes| && changes[i].appID == a && Latest(changes)[a] == changes[i].notif &&
        forall j :: i < j < |changes| ==> changes[j].appID != a)
    decreases |changes|
  {
    if changes != [] {
      var prefix := changes[..|changes| - 1];
      var last := changes[|changes| - 1];
      LatestIsLastQueued(prefix);
      forall a | exists i :: 0 <= i < |changes| && changes[i].appID == a ensures a in Latest(changes) {
        var i :| 0 <= i < |changes| && changes[i].appID == a;
        if i < |changes| - 1 {
          assert prefix[i].appID == a;
        }
      }
      forall a | a in Latest(changes)
        ensures exists i :: (0 <= i < |changes| && changes[i].appID == a && Latest(changes)[a] == changes[i].notif &&
          forall j :: i < j < |changes| ==> changes[j].appID != a)
      {
        if a == last.appID {
          assert changes[|changes| - 1].appID == a;
        } else {
          var i :| (0 <= i < |prefix| && prefix[i].appID == a && Latest(prefix)[a] == prefix[i].notif &&
            forall j :: i < j < |prefix| ==> prefix[j].appID != a);
          assert changes[i] == prefix[i];
          forall j | i < j < |changes| ensures changes[j].appID != a {
            if j < |prefix| {
              assert changes[j] == prefix[j];
            }
          }
        }
      }
    }
  }

  /** Every application a subscriber is told about has a queued notification. */
  lemma {:induction false} AppsForAreQueued(index: map<string, set<string>>, changes: seq<Change>, s: string)
    ensures forall a :: a in AppsFor(index, changes, s) ==> exists i :: 0 <= i < |changes| && changes[i].appID == a
    decreases |changes|
  {
    if changes != [] {
      var prefix := changes[..|changes| - 1];
      AppsForAreQueued(index, prefix, s);
      forall a | a in AppsFor(index, changes, s) ensures exists i :: 0 <= i < |changes| && changes[i].appID == a {
        if a in AppsFor(index, prefix, s) {
          var i :| 0 <= i < |prefix| && prefix[i].appID == a;
          assert changes[i] == prefix[i];
        } else {
          assert changes[|changes| - 1].appID == a;
        }
      }
    }
  }

  /**
   * The batch of a request: exactly the subscribers indexed under some changed
   * application receive a list; each list names the applications that concern
   * the subscriber in AddNotification order, each with its latest notification.
   */
  lemma FlushBatchMeaning(index: map<string, set<string>>, changes: seq<Change>)
    ensures var batch := Batch(Latest(changes), ChangedApps(index, changes));
      (forall s :: s in batch <==> AppsFor(index, changes, s) != []) &&
      (forall s :: s in batch ==>
        |batch[s]| == |AppsFor(index, changes, s)| &&
        forall k :: 0 <= k < |batch[s]| ==>
          AppsFor(index, changes, s)[k] in Latest(changes) &&
          batch[s][k] == Latest(changes)[AppsFor(index, changes, s)[k]])
  {
    ChangedAppsIsAppsFor(index, changes);
    LatestIsLastQueued(changes);
    forall s | AppsFor(index, changes, s) != [] ensures forall a :: a in AppsFor(index, changes, s) ==> a in Latest(changes) {
      AppsForAreQueued(index, changes, s);
    }
  }

  /** Queuing the same application twice lists it twice for each of its subscribers. */
  lemma QueuedTwiceListedTwice(index: map<string, set<string>>, changes: seq<Change>, c1: Change, c2: Change, s: string)
    requires c1.appID == c2.appID && s in SubsOf(index, c1.appID)
    ensures AppsFor(index, changes + [c1, c2], s) == AppsFor(index, changes, s) + [c1.appID, c1.appID]
  {
    assert (changes + [c1, c2])[..|changes| + 1] == changes + [c1];
    assert (changes + [c1])[..|changes|] == changes;
  }

  /**
   * The subscription scenario of pfdf_handler_test.go: subscription "2" follows
   * app1, subscription "3" follows app1 and app2. Changing app1 notifies both,
   * changing app2 notifies "3" only.
   */
  lemma TwoSubscribersScenario(n1: PfdChangeNotification, n2: PfdChangeNotification)
    ensures var index := map["app1" := {"2", "3"}, "app2" := {"3"}];
      Batch(Latest([Change("app1", n1)]), ChangedApps(index, [Change("app1", n1)])) == map["2" := [n1], "3" := [n1]] &&
      Batch(Latest([Change("app2", n2)]), ChangedApps(index, [Change("app2", n2)])) == map["3" := [n2]]
  {
    var index := map["app1" := {"2", "3"}, "app2" := {"3"}];
    var c1 := [Change("app1", n1)];
    var c2 := [Change("app2", n2)];
    assert c1[..0] == [] && c2[..0] == [];
    assert ChangedApps(index, c1) == map["2" := ["app1"], "3" := ["app1"]] by {
      var m := AppendChanged(map[], {"2", "3"}, "app1");
      assert ChangedApps(index, c1) == m;
      assert m.Keys == {"2", "3"};
      assert m["2"] == ["app1"] && m["3"] == ["app1"];
    }
    assert ChangedApps(index, c2) == map["3" := ["app2"]] by {
      var m := AppendChanged(map[], {"3"}, "app2");
      assert ChangedApps(index, c2) == m;
      assert m.Keys == {"3"};
      assert m["3"] == ["app2"];
    }
    assert Notifications(Latest(c1), ["app1"]) == [n1];
    assert Notifications(Latest(c2), ["app2"]) == [n2];
  }

  // ---------------------------------------------------------------------------
  // The notifier and its per-request context
  // ---------------------------------------------------------------------------

  class PfdChangeNotifier {
    var numPfdSubID: nat
    var appIdToSubIDs: map<string, set<string>>
    var subIdToURI: map<string, string>

    ghost predicate Valid()
      reads this
    {
      IndexValid(numPfdSubID, appIdToSubIDs, subIdToURI)
    }

    constructor ()
      ensures numPfdSubID == 0 && appIdToSubIDs == map[] && subIdToURI == map[]
      ensures Valid()
    {
      numPfdSubID := 0;
      appIdToSubIDs := map[];
      subIdToURI := map[];
    }

    method AddPfdSub(pfdSub: PfdSubscription) returns (subID: string)
      requires Valid()
      modifies this
      ensures Valid()
      ensures numPfdSubID == old(numPfdSubID) + 1
      ensures subID == NatToString(numPfdSubID)
      ensures subID !in old(subIdToURI)
      ensures subIdToURI == old(subIdToURI)[subID := pfdSub.notifyUri]
      ensures appIdToSubIDs == Indexed(old(appIdToSubIDs), pfdSub.applicationIds, subID)
      ensures forall a :: a in pfdSub.applicationIds <==> subID in SubsOf(appIdToSubIDs, a)
    {
      var info;
      info, subID := AddSub(PfdSubInfo(numPfdSubID, appIdToSubIDs, subIdToURI), pfdSub);
      numPfdSubID, appIdToSubIDs, subIdToURI := info.numPfdSubID, info.appIdToSubIDs, info.subIdToURI;
    }

    method DeletePfdSub(subID: string) returns (err: Option<string>)
      requires Valid()
      modifies this
      ensures Valid()
      ensures numPfdSubID == old(numPfdSubID)
      ensures subID !in old(subIdToURI) ==>
        err == Some("Subscription not found") &&
        subIdToURI == old(subIdToURI) && appIdToSubIDs == old(appIdToSubIDs)
      ensures subID in old(subIdToURI) ==>
        err == None &&
        subIdToURI == old(subIdToURI) - {subID} &&
        appIdToSubIDs == Unindexed(old(appIdToSubIDs), subID)
    {
      var info;
      info, err := DeleteSub(PfdSubInfo(numPfdSubID, appIdToSubIDs, subIdToURI), subID);
      numPfdSubID, appIdToSubIDs, subIdToURI := info.numPfdSubID, info.appIdToSubIDs, info.subIdToURI;
    }

    /** getSubIDs: the subscribers of an application, each once, in map order. */
    method GetSubIDs(appID: string) returns (subIDs: seq<string>)
      ensures forall i, j :: 0 <= i < j < |subIDs| ==> subIDs[i] != subIDs[j]
      ensures forall s :: s in subIDs <==> s in SubsOf(appIdToSubIDs, appID)
    {
      subIDs := [];
      var rest := SubsOf(appIdToSubIDs, appID);
      while rest != {}
        invariant rest <= SubsOf(appIdToSubIDs, appID)
        invariant forall s :: s in subIDs <==> s in SubsOf(appIdToSubIDs, appID) && s !in rest
        invariant forall i, j :: 0 <= i < j < |subIDs| ==> subIDs[i] != subIDs[j]
        decreases |rest|
      {
        var s :| s in rest;
        subIDs := subIDs + [s];
        rest := rest - {s};
      }
    }

    /** getSubURI: the notification URI of a subscription, "" once it is deleted. */
    function GetSubURI(subID: string): string
      reads this
    {
      if subID in subIdToURI then subIdToURI[subID] else ""
    }

    method NewPfdNotifyContext() returns (nc: PfdNotifyContext)
      ensures fresh(nc) && nc.notifier == this
      ensures nc.appIdToNotification == map[] && nc.subIdToChangedAppIDs == map[]
      ensures nc.changes == [] && nc.Valid()
    {
      nc := new PfdNotifyContext(this);
    }
  }

  lemma AppendChangedNone(m: map<string, seq<string>>, appID: string)
    ensures AppendChanged(m, {}, appID) == m
  {
    assert AppendChanged(m, {}, appID).Keys == m.Keys;
    forall x | x in m ensures AppendChanged(m, {}, appID)[x] == m[x] {
      assert m[x] + [] == m[x];
    }
  }

  /** One more subscriber appended to. */
  lemma AppendChangedStep(m: map<string, seq<string>>, subIDs: seq<string>, i: nat, appID: string)
    requires i < |subIDs|
    requires forall j, k :: 0 <= j < k < |subIDs| ==> subIDs[j] != subIDs[k]
    ensures var before := AppendChanged(m, Elems(subIDs[..i]), appID);
      AppendChanged(m, Elems(subIDs[..i + 1]), appID) ==
      before[subIDs[i] := (if subIDs[i] in before then before[subIDs[i]] else []) + [appID]]
  {
    var s := subIDs[i];
    var subs := Elems(subIDs[..i]);
    assert Elems(subIDs[..i + 1]) == subs + {s} by {
      assert subIDs[..i + 1] == subIDs[..i] + [s];
    }
    var before := AppendChanged(m, subs, appID);
    var after := AppendChanged(m, subs + {s}, appID);
    var expected := before[s := (if s in before then before[s] else []) + [appID]];
    assert after.Keys == expected.Keys;
    forall x | x in after ensures after[x] == expected[x] {
      if x == s {
        assert s !in subs by {
          forall j | 0 <= j < i ensures subIDs[..i][j] != s {
            assert subIDs[..i][j] == subIDs[j];
          }
        }
        assert before.Keys == m.Keys + subs;
      }
    }
  }

  /** appID appended to the lists of the first `n` subscribers, one after the other. */
  function AppendEach(m: map<string, seq<string>>, subIDs: seq<string>, n: nat, appID: string): map<string, seq<string>>
    requires n <= |subIDs|
  {
    if n == 0 then m
    else
      var before := AppendEach(m, subIDs, n - 1, appID);
      var s := subIDs[n - 1];
      before[s := (if s in before then before[s] else []) + [appID]]
  }

  /** For distinct subscribers, appending one by one is appending to the set of them. */
  lemma {:induction false} AppendEachMeaning(m: map<string, seq<string>>, subIDs: seq<string>, n: nat, appID: string)
    requires n <= |subIDs|
    requires forall j, k :: 0 <= j < k < |subIDs| ==> subIDs[j] != subIDs[k]
    ensures AppendEach(m, subIDs, n, appID) == AppendChanged(m, Elems(subIDs[..n]), appID)
  {
    if n == 0 {
      assert Elems(subIDs[..0]) == {};
      AppendChangedNone(m, appID);
    } else {
      var before := AppendEach(m, subIDs, n - 1, appID);
      var s := subIDs[n - 1];
      var after := before[s := (if s in before then before[s] else []) + [appID]];
      assert AppendEach(m, subIDs, n, appID) == after;
      AppendEachMeaning(m, subIDs, n - 1, appID);
      assert before == AppendChanged(m, Elems(subIDs[..n - 1]), appID);
      AppendChangedStep(m, subIDs, n - 1, appID);
      assert AppendChanged(m, Elems(subIDs[..n]), appID) == after;
    }
  }

  /** The inner loop of AddNotification: appID appended to each listed subscriber's list. */
  method AppendToSubs(changed: map<string, seq<string>>, subIDs: seq<string>, appID: string)
    returns (r: map<string, seq<string>>)
    requires forall j, k :: 0 <= j < k < |subIDs| ==> subIDs[j] != subIDs[k]
    ensures r == AppendChanged(changed, Elems(subIDs), appID)
  {
    r := changed;
    var i := 0;
    while i < |subIDs|
      invariant 0 <= i <= |subIDs|
      invariant r == AppendEach(changed, subIDs, i, appID)
    {
      var s := subIDs[i];
      var listed := if s in r then r[s] else [];
      r := r[s := listed + [appID]];
      i := i + 1;
    }
    AppendEachMeaning(changed, subIDs, i, appID);
    assert subIDs[..i] == subIDs;
  }

  class PfdNotifyContext {
    const notifier: PfdChangeNotifier
    var appIdToNotification: map<string, PfdChangeNotification>
    var subIdToChangedAppIDs: map<string, seq<string>>
    /** The AddNotification calls made so far. */
    ghost var changes: seq<Change>

    /** The two maps are what the calls so far make of the notifier's current index. */
    ghost predicate Valid()
      reads this, notifier
    {
      appIdToNotification == Latest(changes) &&
      subIdToChangedAppIDs == ChangedApps(notifier.appIdToSubIDs, changes)
    }

    constructor (notifier: PfdChangeNotifier)
      ensures this.notifier == notifier
      ensures appIdToNotification == map[] && subIdToChangedAppIDs == map[]
      ensures changes == [] && Valid()
    {
      this.notifier := notifier;
      appIdToNotification := map[];
      subIdToChangedAppIDs := map[];
      changes := [];
    }

    method AddNotification(appID: string, notif: PfdChangeNotification)
      requires Valid()
      modifies this
      ensures Valid()
      ensures changes == old(changes) + [Change(appID, notif)]
      ensures appIdToNotification == old(appIdToNotification)[appID := notif]
      ensures subIdToChangedAppIDs == AppendChanged(old(subIdToChangedAppIDs), SubsOf(notifier.appIdToSubIDs, appID), appID)
    {
      var subIDs := notifier.GetSubIDs(appID);
      var changed := AppendToSubs(subIdToChangedAppIDs, subIDs, appID);
      assert Elems(subIDs) == SubsOf(notifier.appIdToSubIDs, appID);
      appIdToNotification := appIdToNotification[appID := notif];
      subIdToChangedAppIDs := changed;
      changes := changes + [Change(appID, notif)];
      assert changes[..|changes| - 1] == old(changes);
    }

    /** The batch-building part of FlushNotifications: one list per changed subscriber. */
    method FlushNotifications() returns (batch: map<string, seq<PfdChangeNotification>>)
      ensures batch == Batch(appIdToNotification, subIdToChangedAppIDs)
      ensures Valid() ==> batch == Batch(Latest(changes), ChangedApps(notifier.appIdToSubIDs, changes))
    {
      batch := map[];
      var rest := subIdToChangedAppIDs.Keys;
      while rest != {}
        invariant rest <= subIdToChangedAppIDs.Keys
        invariant batch.Keys == subIdToChangedAppIDs.Keys - rest
        invariant forall s :: s in batch ==> batch[s] == Notifications(appIdToNotification, subIdToChangedAppIDs[s])
        decreases |rest|
      {
        var s :| s in rest;
        var appIDs := subIdToChangedAppIDs[s];
        var list := [];
        var i := 0;
        while i < |appIDs|
          invariant 0 <= i <= |appIDs|
          invariant list == Notifications(appIdToNotification, appIDs[..i])
        {
          list := list + [LookupNotif(appIdToNotification, appIDs[i])];
          i := i + 1;
        }
        assert appIDs[..i] == appIDs;
        batch := batch[s := list];
        rest := rest - {s};
      }
    }
  }
}
