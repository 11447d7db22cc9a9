/**
 * The request-level rules of the PFD management service
 * (internal/processor/pfd_handler.go): the checks on one PfdData, the
 * aggregation of PFD reports per failure code, the PATCH merge of PFD maps
 * (3GPP TS 29.250 clause 4.4.1), the two conversions between the PfdData of
 * 3GPP TS 29.122 and the PfdDataForApp stored in the UDR, and the resource
 * URIs of transactions and applications.
 *
 * Request bodies are values here: where the Go code updates a body through a
 * pointer, the model returns the updated value.
 */
module PfdRules {
  import opened Common
  import opened Models
  import InternalFactory

  const DetailNoAF := "Given AF is not existed"
  const DetailNoPfdData := "Absent of PfdManagement.PfdDatas"
  const DetailNoPfd := "Absent of PfdData.Pfds"
  const DetailNoExtAppID := "Absent of PfdData.ExternalAppID"
  const DetailNoPfdID := "Absent of Pfd.PfdID"
  const DetailNoPfdInfo := "One of FlowDescriptions, Urls or DomainNames should be provided"

  // ---------------------------------------------------------------------------
  // validatePfdData
  // ---------------------------------------------------------------------------

  /**
   * A PFD passes the check: it names its identifier and, outside a PATCH,
   * carries at least one flow description, URL or domain name.
   */
  predicate PfdValid(p: Pfd, isPatch: bool)
  {
    p.pfdId != "" && (isPatch || !NoPfdInfo(p))
  }

  predicate PfdDataValid(d: PfdData, isPatch: bool)
  {
    d.externalAppId != "" && |d.pfds| > 0 &&
    forall k :: k in d.pfds ==> PfdValid(d.pfds[k], isPatch)
  }

  /** The problem reported for an offending PFD: a missing identifier wins over missing content. */
  function PfdProblem(p: Pfd): ProblemDetails
  {
    if p.pfdId == "" then ProblemDataNotFound(DetailNoPfdID) else ProblemDataNotFound(DetailNoPfdInfo)
  }

  /**
   * `pd` is a problem the check may report for `d`: the application
   * identifier is checked first, then the presence of PFDs, then the PFDs
   * one by one in map order, so with several bad PFDs any of them may be
   * the one reported.
   */
  ghost predicate IsDataProblem(d: PfdData, isPatch: bool, pd: ProblemDetails)
  {
    if d.externalAppId == "" then pd == ProblemDataNotFound(DetailNoExtAppID)
    else if |d.pfds| == 0 then pd == ProblemDataNotFound(DetailNoPfd)
    else exists k :: k in d.pfds && !PfdValid(d.pfds[k], isPatch) && pd == PfdProblem(d.pfds[k])
  }

  /** validatePfdData: None when the data passes, else the problem of the first failing check. */
  method ValidatePfdData(d: PfdData, isPatch: bool) returns (problem: Option<ProblemDetails>)
    ensures problem.None? <==> PfdDataValid(d, isPatch)
    ensures problem.Some? ==> IsDataProblem(d, isPatch, problem.value)
  {
    if d.externalAppId == "" {
      return Some(ProblemDataNotFound(DetailNoExtAppID));
    }
    if |d.pfds| == 0 {
      return Some(ProblemDataNotFound(DetailNoPfd));
    }
    var rest := d.pfds.Keys;
    while rest != {}
      invariant rest <= d.pfds.Keys
      invariant forall k :: k in d.pfds && k !in rest ==> PfdValid(d.pfds[k], isPatch)
      decreases |rest|
    {
      var k :| k in rest;
      var pfd := d.pfds[k];
      if pfd.pfdId == "" {
        return Some(ProblemDataNotFound(DetailNoPfdID));
      }
      if !isPatch && NoPfdInfo(pfd) {
        return Some(ProblemDataNotFound(DetailNoPfdInfo));
      }
      rest := rest - {k};
    }
    return None;
  }

  /** Whatever is accepted for a create or replace is accepted for a PATCH too. */
  lemma PatchCheckIsWeaker(d: PfdData)
    requires PfdDataValid(d, false)
    ensures PfdDataValid(d, true)
  {
  }

  /** Every problem the check reports is a 404 DATA_NOT_FOUND. */
  lemma DataProblemIsNotFound(d: PfdData, isPatch: bool, pd: ProblemDetails)
    requires IsDataProblem(d, isPatch, pd)
    ensures pd.status == StatusNotFound && pd.kind == DataNotFound
  {
  }

  // ---------------------------------------------------------------------------
  // addPfdReport
  // ---------------------------------------------------------------------------

  /** The application identifiers reported under `code` (none when there is no such report). */
  function Listed(reports: map<FailureCode, PfdReport>, code: FailureCode): seq<string>
  {
    if code in reports then reports[code].externalAppIds else []
  }

  /**
   * addPfdReport as written: a report whose failure code is already present
   * is appended to a copy of the stored report (line 515), so the stored map
   * does not change.
   */
  function AddPfdReportAsWritten(reports: map<FailureCode, PfdReport>, r: PfdReport): (res: map<FailureCode, PfdReport>)
    ensures r.failureCode !in reports ==> Listed(res, r.failureCode) == r.externalAppIds
    ensures r.failureCode in reports ==> res == reports
    ensures forall c :: c != r.failureCode ==> Listed(res, c) == Listed(reports, c)
  {
    if r.failureCode in reports then reports else reports[r.failureCode := r]
  }

  /**
   * Two applications rejected for the same reason: as written, the second
   * identifier never reaches the report.
   */
  lemma AsWrittenLosesSecondReport()
    ensures var once := AddPfdReportAsWritten(map[], PfdReport(["app1"], MALFUNCTION));
            var twice := AddPfdReportAsWritten(once, PfdReport(["app2"], MALFUNCTION));
            Listed(twice, MALFUNCTION) == ["app1"] && "app2" !in Listed(twice, MALFUNCTION)
  {
    var once := AddPfdReportAsWritten(map[], PfdReport(["app1"], MALFUNCTION));
    assert Listed(once, MALFUNCTION) == ["app1"];
    assert "app2" !in ["app1"];
  }

  /**
   * addPfdReport as intended: the identifiers of a report whose failure code
   * is already present are appended to the stored report.
   */
  function AddPfdReport(reports: map<FailureCode, PfdReport>, r: PfdReport): (res: map<FailureCode, PfdReport>)
    ensures res.Keys == reports.Keys + {r.failureCode}
    ensures Listed(res, r.failureCode) == Listed(reports, r.failureCode) + r.externalAppIds
    ensures forall c :: c != r.failureCode ==> c in res ==> res[c] == reports[c]
    ensures (forall c :: c in reports ==> reports[c].failureCode == c) ==>
            (forall c :: c in res ==> res[c].failureCode == c)
  {
    var code := r.failureCode;
    if code in reports then reports[code := reports[code].(externalAppIds := reports[code].externalAppIds + r.externalAppIds)]
    else reports[code := r]
  }

  /** The corrected aggregation keeps every identifier reported, in report order. */
  lemma CorrectedKeepsSecondReport()
    ensures var once := AddPfdReport(map[], PfdReport(["app1"], MALFUNCTION));
            var twice := AddPfdReport(once, PfdReport(["app2"], MALFUNCTION));
            Listed(twice, MALFUNCTION) == ["app1", "app2"]
  {
  }

  /** A one-application report, the only shape the handlers produce. */
  function SingleReport(appID: string, code: FailureCode): PfdReport
  {
    PfdReport([appID], code)
  }

  // ---------------------------------------------------------------------------
  // patchModifyPfdData
  // ---------------------------------------------------------------------------

  /** The patch names, with empty content, a PFD that the old data does not have. */
  predicate PatchFails(base: map<string, Pfd>, patch: map<string, Pfd>)
  {
    exists k :: k in patch && NoPfdInfo(patch[k]) && k !in base
  }

  /**
   * The PFDs after a PATCH (TS 29.250 clause 4.4.1): an entry with empty
   * content deletes the PFD, any other entry adds or replaces it, and PFDs
   * the patch does not name stay as they were.
   */
  function PatchedPfds(base: map<string, Pfd>, patch: map<string, Pfd>): map<string, Pfd>
  {
    map k | k in base.Keys + patch.Keys && !(k in patch && NoPfdInfo(patch[k])) ::
      if k in patch then patch[k] else base[k]
  }

  /**
   * patchModifyPfdData: applies the patch entries one by one in map order.
   * On failure the handler discards the partially patched data, so only its
   * untouched application identifier is stated then.
   */
  method PatchModifyPfdData(base: PfdData, patch: PfdData) returns (patched: PfdData, problem: Option<ProblemDetails>)
    ensures problem.None? <==> !PatchFails(base.pfds, patch.pfds)
    ensures problem.Some? ==> problem.value == ProblemDataNotFound(DetailNoPfdInfo)
    ensures problem.None? ==> patched == base.(pfds := PatchedPfds(base.pfds, patch.pfds))
    ensures patched.externalAppId == base.externalAppId && patched.self == base.self
  {
    var pfds := base.pfds;
    var rest := patch.pfds.Keys;
    ghost var done: set<string> := {};
    var failed := false;
    PatchNothing(base.pfds, patch.pfds);
    while rest != {} && !failed
      invariant rest <= patch.pfds.Keys && done == patch.pfds.Keys - rest
      invariant failed ==> PatchFails(base.pfds, patch.pfds)
      invariant !failed ==> !PatchFails(base.pfds, Restrict(patch.pfds, done))
      invariant !failed ==> pfds == PatchedPfds(base.pfds, Restrict(patch.pfds, done))
      decreases |rest|, !failed
    {
      var k :| k in rest;
      pfds, failed := ApplyPatchEntry(base.pfds, patch.pfds, done, pfds, k);
      if !failed {
        rest := rest - {k};
        done := done + {k};
      }
    }
    patched := base.(pfds := pfds);
    if failed {
      problem := Some(ProblemDataNotFound(DetailNoPfdInfo));
    } else {
      assert done == patch.pfds.Keys;
      RestrictToAllKeys(patch.pfds);
      assert pfds == PatchedPfds(base.pfds, patch.pfds);
      problem := None;
    }
  }

  /**
   * One iteration of the merge: an empty entry deletes an existing PFD or
   * fails, any other entry adds or replaces the PFD.
   */
  method ApplyPatchEntry(base: map<string, Pfd>, patch: map<string, Pfd>, ghost done: set<string>,
                         pfds: map<string, Pfd>, k: string)
    returns (r: map<string, Pfd>, failed: bool)
    requires k in patch && k !in done
    requires !PatchFails(base, Restrict(patch, done))
    requires pfds == PatchedPfds(base, Restrict(patch, done))
    ensures failed ==> PatchFails(base, patch)
    ensures !failed ==> !PatchFails(base, Restrict(patch, done + {k}))
    ensures !failed ==> r == PatchedPfds(base, Restrict(patch, done + {k}))
  {
    PatchStep(base, patch, done, k);
    var p := patch[k];
    if NoPfdInfo(p) {
      if k in pfds {
        return pfds - {k}, false;
      }
      return pfds, true;
    }
    return pfds[k := p], false;
  }

  /** The entries of `m` whose keys are in `ks`. */
  function Restrict(m: map<string, Pfd>, ks: set<string>): map<string, Pfd>
  {
    map k | k in m.Keys && k in ks :: m[k]
  }

  lemma PatchNothing(base: map<string, Pfd>, patch: map<string, Pfd>)
    ensures !PatchFails(base, Restrict(patch, {}))
    ensures PatchedPfds(base, Restrict(patch, {})) == base
  {
    assert Restrict(patch, {}) == map[];
  }

  lemma RestrictToAllKeys(m: map<string, Pfd>)
    ensures Restrict(m, m.Keys) == m
  {
  }

  /** Applying one more patch entry to the PFDs patched so far. */
  lemma PatchStep(base: map<string, Pfd>, patch: map<string, Pfd>, done: set<string>, k: string)
    requires k in patch && k !in done
    requires !PatchFails(base, Restrict(patch, done))
    ensures var before := PatchedPfds(base, Restrict(patch, done));
            var after := PatchedPfds(base, Restrict(patch, done + {k}));
            (NoPfdInfo(patch[k]) && k !in before ==> PatchFails(base, patch)) &&
            (NoPfdInfo(patch[k]) && k in before ==> !PatchFails(base, Restrict(patch, done + {k})) && after == before - {k}) &&
            (!NoPfdInfo(patch[k]) ==> !PatchFails(base, Restrict(patch, done + {k})) && after == before[k := patch[k]])
  {
    var r := Restrict(patch, done);
    assert Restrict(patch, done + {k}) == r[k := patch[k]];
    PatchOneMore(base, r, k, patch[k]);
    if NoPfdInfo(patch[k]) && k !in PatchedPfds(base, r) {
      assert k in patch && NoPfdInfo(patch[k]) && k !in base;
    }
  }

  /** One entry, for a PFD the patch did not name yet, added to a patch. */
  lemma PatchOneMore(base: map<string, Pfd>, r: map<string, Pfd>, k: string, p: Pfd)
    requires k !in r
    ensures k in PatchedPfds(base, r) <==> k in base
    ensures PatchFails(base, r[k := p]) <==> PatchFails(base, r) || (NoPfdInfo(p) && k !in base)
    ensures NoPfdInfo(p) ==> PatchedPfds(base, r[k := p]) == PatchedPfds(base, r) - {k}
    ensures !NoPfdInfo(p) ==> PatchedPfds(base, r[k := p]) == PatchedPfds(base, r)[k := p]
  {
    if PatchFails(base, r[k := p]) && !(NoPfdInfo(p) && k !in base) {
      var x :| x in r[k := p] && NoPfdInfo(r[k := p][x]) && x !in base;
      assert x in r && NoPfdInfo(r[x]);
    }
    var a, b := PatchedPfds(base, r[k := p]), PatchedPfds(base, r);
    var c := if NoPfdInfo(p) then b - {k} else b[k := p];
    forall x ensures x in a <==> x in c {
      if x != k {
        assert x in r[k := p] <==> x in r;
      }
    }
    assert a.Keys == c.Keys;
    forall x | x in a ensures a[x] == c[x] {
      if x != k {
        assert x in b;
      }
    }
  }

  /** PFDs the patch does not name keep their content; the patch's non-empty entries are taken as given. */
  lemma PatchedPfdsMeaning(base: map<string, Pfd>, patch: map<string, Pfd>, k: string)
    ensures k !in patch ==> (k in PatchedPfds(base, patch) <==> k in base)
    ensures k !in patch && k in base ==> PatchedPfds(base, patch)[k] == base[k]
    ensures k in patch && NoPfdInfo(patch[k]) ==> k !in PatchedPfds(base, patch)
    ensures k in patch && !NoPfdInfo(patch[k]) ==> k in PatchedPfds(base, patch) && PatchedPfds(base, patch)[k] == patch[k]
  {
  }

  /** A patch that deletes nothing can be applied again without effect. */
  lemma PatchWithoutDeletionIdempotent(base: map<string, Pfd>, patch: map<string, Pfd>)
    requires forall k :: k in patch ==> !NoPfdInfo(patch[k])
    ensures !PatchFails(base, patch) && !PatchFails(PatchedPfds(base, patch), patch)
    ensures PatchedPfds(PatchedPfds(base, patch), patch) == PatchedPfds(base, patch)
  {
  }

  /** A patch that deleted a PFD fails when applied a second time. */
  lemma {:induction false} ReappliedDeletionFails(base: map<string, Pfd>, patch: map<string, Pfd>, k: string)
    requires !PatchFails(base, patch)
    requires k in patch && NoPfdInfo(patch[k])
    ensures PatchFails(PatchedPfds(base, patch), patch)
  {
    assert k !in PatchedPfds(base, patch);
  }

  /**
   * The deletion scenario of the handler's tests: patching {pfd1, pfd2} with
   * an empty pfd1 leaves pfd2 alone.
   */
  lemma PatchDeletesEmptyEntry(pfd1: Pfd, pfd2: Pfd)
    requires !NoPfdInfo(pfd2)
    ensures PatchedPfds(map["pfd1" := pfd1, "pfd2" := pfd2], map["pfd1" := Pfd("pfd1", [], [], [])])
            == map["pfd2" := pfd2]
  {
    var r := PatchedPfds(map["pfd1" := pfd1, "pfd2" := pfd2], map["pfd1" := Pfd("pfd1", [], [], [])]);
    assert r.Keys == {"pfd2"};
  }

  // ---------------------------------------------------------------------------
  // Conversions between PfdData and PfdDataForApp
  // ---------------------------------------------------------------------------

  function PfdOf(c: PfdContent): Pfd
  {
    Pfd(c.pfdId, c.flowDescriptions, c.urls, c.domainNames)
  }

  function ContentOf(p: Pfd): PfdContent
  {
    PfdContent(p.pfdId, p.flowDescriptions, p.urls, p.domainNames)
  }

  /** The PFD map built from a content list: each content under its PfdId, a later duplicate replacing an earlier one. */
  function PfdsOfContents(cs: seq<PfdContent>): map<string, Pfd>
  {
    if cs == [] then map[]
    else PfdsOfContents(cs[..|cs| - 1])[cs[|cs| - 1].pfdId := PfdOf(cs[|cs| - 1])]
  }

  /**
   * The map holds exactly the PfdIds of the list, each bound to the PFD of
   * the last content carrying it.
   */
  lemma {:induction false} PfdsOfContentsMeaning(cs: seq<PfdContent>)
    ensures forall k :: k in PfdsOfContents(cs) <==> exists i :: 0 <= i < |cs| && cs[i].pfdId == k
    ensures forall i :: 0 <= i < |cs| ==>
      (forall j :: i < j < |cs| ==> cs[j].pfdId != cs[i].pfdId) ==> PfdsOfContents(cs)[cs[i].pfdId] == PfdOf(cs[i])
    decreases |cs|
  {
    if cs != [] {
      var init := cs[..|cs| - 1];
      PfdsOfContentsMeaning(init);
      forall k ensures k in PfdsOfContents(cs) <==> exists i :: 0 <= i < |cs| && cs[i].pfdId == k {
        if k in PfdsOfContents(init) {
          var i :| 0 <= i < |init| && init[i].pfdId == k;
          assert cs[i].pfdId == k;
        }
        if exists i :: 0 <= i < |cs| && cs[i].pfdId == k {
          var i :| 0 <= i < |cs| && cs[i].pfdId == k;
          if i < |cs| - 1 {
            assert init[i].pfdId == k;
          }
        }
      }
      forall i | 0 <= i < |cs| && (forall j :: i < j < |cs| ==> cs[j].pfdId != cs[i].pfdId)
        ensures PfdsOfContents(cs)[cs[i].pfdId] == PfdOf(cs[i])
      {
        if i < |cs| - 1 {
          assert init[i] == cs[i];
          assert forall j :: i < j < |init| ==> init[j].pfdId != init[i].pfdId by {
            forall j | i < j < |init| ensures init[j].pfdId != init[i].pfdId {
              assert init[j] == cs[j];
            }
          }
        }
      }
    }
  }

  /** convertPfdDataForAppToPfdData: the application identifier and the PFDs keyed by PfdId. */
  method ConvertPfdDataForAppToPfdData(fa: PfdDataForApp) returns (d: PfdData)
    ensures d.externalAppId == fa.applicationId && d.self == ""
    ensures d.pfds == PfdsOfContents(fa.pfds)
  {
    var pfds: map<string, Pfd> := map[];
    var i := 0;
    while i < |fa.pfds|
      invariant 0 <= i <= |fa.pfds|
      invariant pfds == PfdsOfContents(fa.pfds[..i])
    {
      var c := fa.pfds[i];
      assert fa.pfds[..i + 1][..i] == fa.pfds[..i];
      pfds := pfds[c.pfdId := PfdOf(c)];
      i := i + 1;
    }
    assert fa.pfds[..i] == fa.pfds;
    d := PfdData(fa.applicationId, "", pfds);
  }

  /** The contents of the PFDs of `m`, listed in the key order `order`. */
  function ContentsOf(m: map<string, Pfd>, order: seq<string>): (r: seq<PfdContent>)
    requires forall i :: 0 <= i < |order| ==> order[i] in m
    ensures |r| == |order|
  {
    seq(|order|, i requires 0 <= i < |order| => ContentOf(m[order[i]]))
  }

  /**
   * convertPfdDataToPfdDataForApp: one content per PFD, in the map order
   * `order` (ghost) of the range loop.
   */
  method ConvertPfdDataToPfdDataForApp(d: PfdData) returns (fa: PfdDataForApp, ghost order: seq<string>)
    ensures IsEnumeration(order, d.pfds.Keys)
    ensures fa.applicationId == d.externalAppId
    ensures fa.pfds == ContentsOf(d.pfds, order)
  {
    var cs: seq<PfdContent> := [];
    order := [];
    var rest := d.pfds.Keys;
    while rest != {}
      invariant rest <= d.pfds.Keys
      invariant forall i :: 0 <= i < |order| ==> order[i] in d.pfds && order[i] !in rest
      invariant forall i, j :: 0 <= i < j < |order| ==> order[i] != order[j]
      invariant forall k :: k in d.pfds && k !in rest ==> k in order
      invariant cs == ContentsOf(d.pfds, order)
      decreases |rest|
    {
      var k :| k in rest;
      cs := cs + [ContentOf(d.pfds[k])];
      order := order + [k];
      assert cs == ContentsOf(d.pfds, order);
      rest := rest - {k};
    }
    fa := PfdDataForApp(d.externalAppId, cs);
  }

  /** The PFDs of the first n keys of `order`. */
  lemma {:induction false} PfdsOfContentsPrefix(m: map<string, Pfd>, order: seq<string>, n: nat)
    requires forall i :: 0 <= i < |order| ==> order[i] in m
    requires forall k :: k in m ==> m[k].pfdId == k
    requires n <= |order|
    ensures PfdsOfContents(ContentsOf(m, order[..n])) == map k | k in order[..n] :: m[k]
  {
    if n > 0 {
      PfdsOfContentsPrefix(m, order, n - 1);
      var cs := ContentsOf(m, order[..n]);
      assert cs[..n - 1] == ContentsOf(m, order[..n - 1]);
      var last := order[n - 1];
      assert cs[n - 1] == ContentOf(m[last]);
      assert PfdOf(ContentOf(m[last])) == m[last];
      assert order[..n] == order[..n - 1] + [last];
    }
  }

  /**
   * For PfdData whose map keys are the PfdIds of their PFDs (as the API
   * requires), converting to PfdDataForApp and back restores the data.
   */
  lemma DataRoundTrip(d: PfdData, order: seq<string>)
    requires IsEnumeration(order, d.pfds.Keys)
    requires forall k :: k in d.pfds ==> d.pfds[k].pfdId == k
    ensures PfdsOfContents(ContentsOf(d.pfds, order)) == d.pfds
  {
    PfdsOfContentsPrefix(d.pfds, order, |order|);
    assert order[..|order|] == order;
  }

  // ---------------------------------------------------------------------------
  // Resource URIs
  // ---------------------------------------------------------------------------

  /** The URI of a PFD transaction resource. */
  function GenPfdManagementURI(sbiURI: string, afID: string, transID: string): string
  {
    sbiURI + InternalFactory.PfdMngResUriPrefix + "/" + afID + "/transactions/" + transID
  }

  /** The URI of one application inside a PFD transaction. */
  function GenPfdDataURI(sbiURI: string, afID: string, transID: string, appID: string): string
  {
    sbiURI + InternalFactory.PfdMngResUriPrefix + "/" + afID + "/transactions/" + transID + "/applications/" + appID
  }

  /** An application's URI lies below its transaction's URI. */
  lemma DataURIBelowManagementURI(sbiURI: string, afID: string, transID: string, appID: string)
    ensures GenPfdDataURI(sbiURI, afID, transID, appID) ==
            GenPfdManagementURI(sbiURI, afID, transID) + "/applications/" + appID
  {
  }

  /** The transaction and application identifiers are recovered from the last URI segment. */
  lemma URIsEndWithIdentifiers(sbiURI: string, afID: string, transID: string, appID: string)
    requires NoSlash(transID) && NoSlash(appID)
    ensures LastSegment(GenPfdManagementURI(sbiURI, afID, transID)) == transID
    ensures LastSegment(GenPfdDataURI(sbiURI, afID, transID, appID)) == appID
  {
    var trans := sbiURI + InternalFactory.PfdMngResUriPrefix + "/" + afID + "/transactions";
    assert GenPfdManagementURI(sbiURI, afID, transID) == trans + "/" + transID;
    LastSegmentOfAppend(trans, transID);
    var apps := GenPfdManagementURI(sbiURI, afID, transID) + "/applications";
    assert GenPfdDataURI(sbiURI, afID, transID, appID) == apps + "/" + appID;
    LastSegmentOfAppend(apps, appID);
  }
}
