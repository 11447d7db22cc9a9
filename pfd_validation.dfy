/**
 * The check of a whole PfdManagement of 3GPP TS 29.122 clause 5.11 against
 * the registry (validatePfdManagement of internal/processor/pfd_handler.go):
 * an empty request and invalid PFD data are rejected, and applications that
 * another transaction already provisions are dropped and reported as
 * APP_ID_DUPLICATED.
 */
module PfdValidation {
  import opened Common
  import opened Models
  import opened PfdRules
  import opened NefContexts

  const NoneCreated := ProblemSystemFailure("None of the PFDs were created")

  // ---------------------------------------------------------------------------
  // validatePfdManagement
  // ---------------------------------------------------------------------------

  /** Every PfdData of the request passes the create/replace check. */
  predicate AllDataValid(req: PfdManagement)
  {
    forall a :: a in req.pfdDatas ==> PfdDataValid(req.pfdDatas[a], false)
  }

  /**
   * `problem` and `mng` are a possible outcome of checking `req` for the
   * transaction (afID, transID) against the registry `reg`:
   *  - the reports start empty and only duplicates are reported;
   *  - an empty request is rejected first;
   *  - an invalid PfdData yields the problem of one offending PfdData;
   *  - otherwise every application provisioned elsewhere is dropped and
   *    reported as APP_ID_DUPLICATED, the others are kept, and the request
   *    fails with SYSTEM_FAILURE when nothing is left.
   */
  ghost predicate IsValidation(reg: Provisioning, afID: string, transID: string, req: PfdManagement,
                               problem: Option<ProblemDetails>, mng: PfdManagement)
  {
    mng.self == req.self &&
    mng.pfdDatas.Keys <= req.pfdDatas.Keys &&
    (forall a :: a in mng.pfdDatas ==> mng.pfdDatas[a] == req.pfdDatas[a]) &&
    mng.pfdReports.Keys <= {APP_ID_DUPLICATED} &&
    (req.pfdDatas == map[] ==>
      problem == Some(ProblemDataNotFound(DetailNoPfdData)) && mng.pfdReports == map[]) &&
    (req.pfdDatas != map[] && !AllDataValid(req) ==>
      problem.Some? &&
      exists a :: a in req.pfdDatas && !PfdDataValid(req.pfdDatas[a], false) &&
                  IsDataProblem(req.pfdDatas[a], false, problem.value)) &&
    (req.pfdDatas != map[] && AllDataValid(req) ==>
      (problem == None || problem == Some(NoneCreated)) &&
      (problem.None? <==> mng.pfdDatas != map[]) &&
      IsEnumeration(Listed(mng.pfdReports, APP_ID_DUPLICATED), req.pfdDatas.Keys - mng.pfdDatas.Keys) &&
      (forall a :: a in req.pfdDatas && a !in mng.pfdDatas ==> ProvisionedElsewhere(reg, a, afID, transID)) &&
      (forall a :: a in mng.pfdDatas ==> !ProvisionedIn(reg, a) || (a, afID, transID) in reg))
  }

  /** What the registry lookup answered for each application scanned so far: found, AF, transaction. */
  type Lookup = map<string, (bool, string, string)>

  /** The recorded answers are those IsAppIDExisted gives. */
  ghost predicate Answered(reg: Provisioning, found: Lookup)
  {
    forall a :: a in found ==>
      (found[a].0 <==> ProvisionedIn(reg, a)) &&
      (found[a].0 ==> (a, found[a].1, found[a].2) in reg)
  }

  /** The lookup found the application under another AF or transaction. */
  predicate Duplicate(found: Lookup, a: string, afID: string, transID: string)
  {
    a in found && found[a].0 && (found[a].1 != afID || found[a].2 != transID)
  }

  /**
   * The state of the scan once the applications outside `rest` have been
   * looked up: duplicates dropped and reported, the others kept.
   */
  ghost predicate Scanned(afID: string, transID: string, req: PfdManagement, mng: PfdManagement,
                    rest: set<string>, found: Lookup)
  {
    rest <= req.pfdDatas.Keys &&
    found.Keys == req.pfdDatas.Keys - rest &&
    mng.self == req.self &&
    mng.pfdDatas.Keys <= req.pfdDatas.Keys &&
    (forall a :: a in mng.pfdDatas ==> mng.pfdDatas[a] == req.pfdDatas[a]) &&
    (forall a :: a in rest ==> a in mng.pfdDatas) &&
    (forall a :: a in found ==> (a !in mng.pfdDatas <==> Duplicate(found, a, afID, transID))) &&
    mng.pfdReports.Keys <= {APP_ID_DUPLICATED} &&
    IsEnumeration(Listed(mng.pfdReports, APP_ID_DUPLICATED), req.pfdDatas.Keys - mng.pfdDatas.Keys)
  }

  /** The scan state together with the truthfulness of the lookups and the validity of the scanned data. */
  ghost predicate ScanState(reg: Provisioning, afID: string, transID: string, req: PfdManagement, mng: PfdManagement,
                            rest: set<string>, found: Lookup)
  {
    Scanned(afID, transID, req, mng, rest, found) && Answered(reg, found) &&
    forall a :: a in req.pfdDatas && a !in rest ==> PfdDataValid(req.pfdDatas[a], false)
  }

  /** validatePfdManagement: the request is checked application by application, in map order. */
  method ValidatePfdManagement(afID: string, transID: string, req: PfdManagement, nefCtx: NefContext)
    returns (problem: Option<ProblemDetails>, mng: PfdManagement)
    requires nefCtx.Valid()
    ensures IsValidation(old(nefCtx.Registry()), afID, transID, req, problem, mng)
    ensures nefCtx.Registry() == old(nefCtx.Registry()) && (old(nefCtx.Consistent()) ==> nefCtx.Consistent())
  {
    ghost var reg := nefCtx.Registry();
    mng := req.(pfdReports := map[]);
    if |req.pfdDatas| == 0 {
      return Some(ProblemDataNotFound(DetailNoPfdData)), mng;
    }
    ScanStart(reg, afID, transID, req, mng);
    ghost var found;
    problem, mng, found := ScanRequest(afID, transID, req, nefCtx, reg, mng);
    assert reg == nefCtx.Registry();
    if problem.Some? {
      return;
    }
    problem := if |mng.pfdDatas| == 0 then Some(NoneCreated) else None;
    ScanOutcome(reg, afID, transID, req, mng, found, problem);
  }

  /** The loop of validatePfdManagement over the applications of the request. */
  method ScanRequest(afID: string, transID: string, req: PfdManagement, nefCtx: NefContext, ghost reg: Provisioning,
                     mng0: PfdManagement)
    returns (problem: Option<ProblemDetails>, mng: PfdManagement, ghost found: Lookup)
    requires nefCtx.Valid() && reg == nefCtx.Registry()
    requires ScanState(reg, afID, transID, req, mng0, req.pfdDatas.Keys, map[])
    ensures problem.Some? ==> IsValidation(reg, afID, transID, req, problem, mng)
    ensures problem.None? ==> ScanState(reg, afID, transID, req, mng, {}, found)
  {
    mng := mng0;
    var rest := req.pfdDatas.Keys;
    found := map[];
    while rest != {}
      invariant ScanState(reg, afID, transID, req, mng, rest, found)
      decreases |rest|
    {
      var appID :| appID in rest;
      var p;
      p, mng, found := ScanOne(afID, transID, req, nefCtx, reg, mng, appID, rest, found);
      if p.Some? {
        return p, mng, found;
      }
      rest := rest - {appID};
    }
    return None, mng, found;
  }

  /** Nothing is scanned yet: every application is kept and no report is made. */
  lemma ScanStart(reg: Provisioning, afID: string, transID: string, req: PfdManagement, mng: PfdManagement)
    requires mng == req.(pfdReports := map[])
    ensures ScanState(reg, afID, transID, req, mng, req.pfdDatas.Keys, map[])
  {
    assert req.pfdDatas.Keys - mng.pfdDatas.Keys == {};
  }

  /** The loop body of validatePfdManagement: the duplicate check, then the check of the PfdData. */
  method ScanOne(afID: string, transID: string, req: PfdManagement, nefCtx: NefContext, ghost reg: Provisioning,
                 mng: PfdManagement, appID: string, ghost rest: set<string>, ghost found: Lookup)
    returns (p: Option<ProblemDetails>, r: PfdManagement, ghost found': Lookup)
    requires nefCtx.Valid() && reg == nefCtx.Registry()
    requires appID in rest && ScanState(reg, afID, transID, req, mng, rest, found)
    ensures p.Some? ==> IsValidation(reg, afID, transID, req, p, r)
    ensures p.None? ==> ScanState(reg, afID, transID, req, r, rest - {appID}, found')
  {
    r, found' := DropIfDuplicate(afID, transID, req, nefCtx, reg, mng, appID, rest, found);
    p := ValidatePfdData(req.pfdDatas[appID], false);
    CheckedOutcome(reg, afID, transID, req, r, appID, rest, found', p);
  }

  /** The check of the PfdData either ends the scan with its problem or extends the validated part. */
  lemma CheckedOutcome(reg: Provisioning, afID: string, transID: string, req: PfdManagement, r: PfdManagement,
                       appID: string, rest: set<string>, found: Lookup, p: Option<ProblemDetails>)
    requires appID in rest && appID in req.pfdDatas
    requires Scanned(afID, transID, req, r, rest - {appID}, found) && Answered(reg, found)
    requires forall a :: a in req.pfdDatas && a !in rest ==> PfdDataValid(req.pfdDatas[a], false)
    requires p.Some? <==> !PfdDataValid(req.pfdDatas[appID], false)
    requires p.Some? ==> IsDataProblem(req.pfdDatas[appID], false, p.value)
    ensures p.Some? ==> IsValidation(reg, afID, transID, req, p, r)
    ensures p.None? ==> ScanState(reg, afID, transID, req, r, rest - {appID}, found)
  {
    if p.Some? {
      InvalidOutcome(reg, afID, transID, req, r, rest - {appID}, found, appID, p.value);
    }
  }

  /**
   * One step of the scan: the application is dropped and reported when the
   * registry has it under another AF or transaction.
   */
  method DropIfDuplicate(afID: string, transID: string, req: PfdManagement, nefCtx: NefContext, ghost reg: Provisioning,
                         mng: PfdManagement, appID: string, ghost rest: set<string>, ghost found: Lookup)
    returns (r: PfdManagement, ghost found': Lookup)
    requires nefCtx.Valid() && reg == nefCtx.Registry()
    requires appID in rest && Scanned(afID, transID, req, mng, rest, found) && Answered(reg, found)
    ensures Scanned(afID, transID, req, r, rest - {appID}, found') && Answered(reg, found')
  {
    var exist, appAfID, appTransID := nefCtx.IsAppIDExisted(appID);
    assert reg == nefCtx.Registry();
    if ProvisionedIn(reg, appID) {
      var a, t :| (appID, a, t) in reg;
      assert nefCtx.ProvisionedAt(appID, a, t);
    }
    found' := found[appID := (exist, appAfID, appTransID)];
    AnsweredStep(reg, found, appID, (exist, appAfID, appTransID));
    if exist && (appAfID != afID || appTransID != transID) {
      ScanDrop(afID, transID, req, mng, rest, found, appID, (exist, appAfID, appTransID));
      r := Dropped(mng, appID);
    } else {
      ScanKeep(afID, transID, req, mng, rest, found, appID, (exist, appAfID, appTransID));
      r := mng;
    }
  }

  /** The management without the application, which is reported as a duplicate. */
  function Dropped(mng: PfdManagement, appID: string): PfdManagement
  {
    mng.(pfdDatas := mng.pfdDatas - {appID},
         pfdReports := AddPfdReport(mng.pfdReports, SingleReport(appID, APP_ID_DUPLICATED)))
  }

  /** Recording a lookup that is no duplicate keeps the application. */
  lemma ScanKeep(afID: string, transID: string, req: PfdManagement, mng: PfdManagement,
                 rest: set<string>, found: Lookup, appID: string, entry: (bool, string, string))
    requires appID in rest && Scanned(afID, transID, req, mng, rest, found)
    requires !(entry.0 && (entry.1 != afID || entry.2 != transID))
    ensures Scanned(afID, transID, req, mng, rest - {appID}, found[appID := entry])
  {
  }

  /** Recording a duplicate drops the application and appends it to the report. */
  lemma ScanDrop(afID: string, transID: string, req: PfdManagement, mng: PfdManagement,
                 rest: set<string>, found: Lookup, appID: string, entry: (bool, string, string))
    requires appID in rest && Scanned(afID, transID, req, mng, rest, found)
    requires entry.0 && (entry.1 != afID || entry.2 != transID)
    ensures Scanned(afID, transID, req, Dropped(mng, appID), rest - {appID}, found[appID := entry])
  {
    var r := Dropped(mng, appID);
    var f := found[appID := entry];
    assert f.Keys == req.pfdDatas.Keys - (rest - {appID});
    assert r.pfdDatas.Keys <= req.pfdDatas.Keys;
    assert forall a :: a in r.pfdDatas ==> r.pfdDatas[a] == req.pfdDatas[a];
    assert forall a :: a in rest - {appID} ==> a in r.pfdDatas;
    forall a | a in f ensures (a !in r.pfdDatas <==> Duplicate(f, a, afID, transID)) {
      if a != appID {
        assert a in found && f[a] == found[a];
      }
    }
    assert r.pfdReports.Keys <= {APP_ID_DUPLICATED};
    KeysAfterDrop(req.pfdDatas.Keys, mng.pfdDatas.Keys, appID);
    EnumerationAppend(Listed(mng.pfdReports, APP_ID_DUPLICATED), req.pfdDatas.Keys - mng.pfdDatas.Keys, appID);
    assert Listed(r.pfdReports, APP_ID_DUPLICATED) == Listed(mng.pfdReports, APP_ID_DUPLICATED) + [appID];
    assert r.pfdDatas.Keys == mng.pfdDatas.Keys - {appID};
    assert IsEnumeration(Listed(r.pfdReports, APP_ID_DUPLICATED), req.pfdDatas.Keys - r.pfdDatas.Keys);
  }

  /** Dropping a kept application moves it to the dropped ones. */
  lemma KeysAfterDrop(all: set<string>, kept: set<string>, appID: string)
    requires appID in kept && appID in all
    ensures appID !in all - kept
    ensures all - (kept - {appID}) == (all - kept) + {appID}
  {
  }

  /** A lookup that agrees with the registry keeps the recorded answers truthful. */
  lemma AnsweredStep(reg: Provisioning, found: Lookup, appID: string, entry: (bool, string, string))
    requires Answered(reg, found)
    requires entry.0 <==> ProvisionedIn(reg, appID)
    requires entry.0 ==> (appID, entry.1, entry.2) in reg
    ensures Answered(reg, found[appID := entry])
  {
  }

  /** A scan stopped by an invalid PfdData reports that PfdData's problem. */
  lemma InvalidOutcome(reg: Provisioning, afID: string, transID: string, req: PfdManagement, mng: PfdManagement,
                       rest: set<string>, found: Lookup, appID: string, p: ProblemDetails)
    requires Scanned(afID, transID, req, mng, rest, found)
    requires appID in req.pfdDatas && !PfdDataValid(req.pfdDatas[appID], false)
    requires IsDataProblem(req.pfdDatas[appID], false, p)
    ensures IsValidation(reg, afID, transID, req, Some(p), mng)
  {
  }

  /** At the end of a scan without invalid data, the kept and dropped applications are as IsValidation says. */
  lemma ScanOutcome(reg: Provisioning, afID: string, transID: string, req: PfdManagement,
                    mng: PfdManagement, found: Lookup, problem: Option<ProblemDetails>)
    requires req.pfdDatas != map[] && ScanState(reg, afID, transID, req, mng, {}, found)
    requires problem == if mng.pfdDatas == map[] then Some(NoneCreated) else None
    ensures IsValidation(reg, afID, transID, req, problem, mng)
  {
    forall a | a in req.pfdDatas && a !in mng.pfdDatas ensures ProvisionedElsewhere(reg, a, afID, transID) {
      assert (a, found[a].1, found[a].2) in reg;
    }
  }

  /** A transaction identifier is a decimal counter value, so never "-1". */
  lemma NoTransactionMinusOne(nefCtx: NefContext, appID: string, afID: string)
    requires nefCtx.Valid()
    ensures !nefCtx.ProvisionedAt(appID, afID, "-1")
  {
    assert !IsDigits("-1") by { assert "-1"[0] == '-'; }
  }

  /**
   * A create checks against transaction "-1", which no AF has: every
   * application already provisioned anywhere is dropped as a duplicate.
   */
  lemma CreateKeepsOnlyNewApplications(nefCtx: NefContext, afID: string, req: PfdManagement,
                                       problem: Option<ProblemDetails>, mng: PfdManagement)
    requires nefCtx.Valid()
    requires IsValidation(nefCtx.Registry(), afID, "-1", req, problem, mng)
    requires req.pfdDatas != map[] && AllDataValid(req)
    ensures forall a :: a in mng.pfdDatas ==> !nefCtx.Provisioned(a)
    ensures forall a :: a in req.pfdDatas && nefCtx.Provisioned(a) ==> a !in mng.pfdDatas
  {
    forall a | a in req.pfdDatas && nefCtx.Provisioned(a) ensures a !in mng.pfdDatas {
      var a', t :| nefCtx.ProvisionedAt(a, a', t);
      NoTransactionMinusOne(nefCtx, a, afID);
      assert (a, a', t) in nefCtx.Registry();
    }
  }

  /**
   * A create that passes validation keeps only applications nobody
   * provisions, the precondition for registering them under the new
   * transaction.
   */
  lemma CreateAppsUnprovisioned(nefCtx: NefContext, afID: string, req: PfdManagement,
                                problem: Option<ProblemDetails>, mng: PfdManagement)
    requires nefCtx.Valid() && problem.None?
    requires IsValidation(nefCtx.Registry(), afID, "-1", req, problem, mng)
    ensures forall a :: a in mng.pfdDatas ==> !ProvisionedIn(nefCtx.Registry(), a)
  {
    forall a | a in mng.pfdDatas ensures !ProvisionedIn(nefCtx.Registry(), a) {
      NoTransactionMinusOne(nefCtx, a, afID);
    }
  }

  /**
   * After a successful validation for transaction (afID, transID), each
   * application of the request is provisioned by nobody or by that
   * transaction itself.
   */
  lemma ReplaceAppsAvailable(reg: Provisioning, afID: string, transID: string, req: PfdManagement,
                             problem: Option<ProblemDetails>, mng: PfdManagement)
    requires problem.None? && IsValidation(reg, afID, transID, req, problem, mng)
    ensures forall a :: a in mng.pfdDatas ==> !ProvisionedIn(reg, a) || (a, afID, transID) in reg
  {
    assert req.pfdDatas != map[] && AllDataValid(req);
  }
}
