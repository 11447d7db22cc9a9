# A verified model of the free5GC NEF core

This project models the core of the free5GC Network Exposure Function (NEF), the 5G core network function that lets an Application Function (AF) reach into the network. It covers:

- **PFD management** (3GPP TS 29.122 clause 5.11). An AF provisions Packet Flow Descriptions for its external applications in transactions. The NEF checks each request and stores the data in the UDR. It records which transaction provisions which application, and queues a change notification for every application whose PFDs changed.
- **PFD functions** (Nnef_PFDManagement, 3GPP TS 29.551). Reads of the stored PFDs. Subscriptions to PFD changes, kept in a subscription index by the PFD change notifier. Per-request batches of change notifications, one list per subscriber.
- **Traffic influence** (3GPP TS 29.122 clause 5.4). A subscription for one UE goes to the PCF as an application session. One for a group or any UE goes to the UDR as influence data. The NEF keeps only a record of where each one went.
- **The NRF consumer** (3GPP TS 29.510). The NF profile the NEF registers, the adoption of the instance identifier the NRF assigns, and the choice of a peer's service URI from discovered profiles.
- **The contexts**: the per-AF context, its subscription and transaction records, and the NEF context that ties them together.
- **Both configuration generations**: their getters and defaults, and the service URIs built from them.

The repository carries two generations of the processor:

- the older one: `internal/processor`, `internal/context`, `internal/factory`;
- the newer one: `internal/sbi/processor`, `pkg/factory`.

Both are modelled, each in its own modules.

Structure:

- Each Go source file becomes one Dafny module.
- A type whose fields the Go code updates in place becomes a class:
  - the AF, NEF and transaction contexts;
  - the PFD change notifier and its notify context;
  - the processors.
- Each handler is a method over those classes. It is proved against heap-free specification functions and predicates, and lemmas state what those specifications promise.
- Messages, configurations and peer replies are datatypes.
- The UDR and the PCF are values that map a request to a reply. Each handler asks each peer about each argument at most once, so a function loses no generality.
- The order in which Go ranges over a map is left open. A method picks the next key with `:|`, and its contract quantifies over the ghost `order` it produced, which is any enumeration of the keys.

The newer `DeleteIndividualTrafficInfluenceSubscription` drops the subscription record only when the peer refuses the deletion, and keeps it when the peer deletes it. The model states exactly that.

## Model

| member | source | states |
|---|---|---|
| AfContexts.AfContext.constructor | internal/context/af_context.go:10-17 | A new AF context has the given AF ID, both counters at zero and no subscriptions or transactions |
| AfContexts.AfContext.NewSubsc | internal/context/af_context.go:25-35 | Bumps the subscription counter by one; the new subscription's ID is the decimal text of the bumped counter and its correlation ID is the text of the given number; the ID is fresh (differs from every earlier issued ID and from every stored key) and all other fields start empty |
| AfContexts.AfContext.AddSubsc | internal/context/af_context.go:37-42 | Stores the subscription under its own ID (overwriting any previous entry) and leaves the context valid when the ID was issued by it |
| AfContexts.AfContext.DeleteSubsc | internal/context/af_context.go:109-113 | Removes exactly the given key; a later lookup of it finds nothing |
| AfContexts.AfContext.NewPfdTrans | internal/context/af_context.go:44-53 | Bumps the transaction counter by one; the new transaction's ID is the decimal text of the bumped counter, differs from every earlier issued ID and every stored key, and it provisions no application |
| AfContexts.AfContext.AddPfdTrans | internal/context/af_context.go:55-60 | Stores the transaction under its own ID; a later lookup returns it |
| AfContexts.AfContext.GetAllPfdTrans | internal/context/af_context.go:68-77 | Returns every stored transaction exactly once, each paired with the key it is stored under |
| AfContexts.AfContext.DeletePfdTrans | internal/context/af_context.go:79-84 | Removes exactly the given transaction ID; a later lookup finds nothing |
| AfContexts.AfContext.IsAppIDExisted | internal/context/af_context.go:86-95 | Reports true exactly when some transaction of the AF provisions the application, and then names such a transaction; otherwise returns the empty ID |
| AfPfdTransactions.AfPfdTransaction.constructor | internal/context/af_pfd_transaction.go:7-11 | A new transaction has the given ID and no applications |
| AfPfdTransactions.AfPfdTransaction.GetExtAppIDs | internal/context/af_pfd_transaction.go:19-27 | Lists every provisioned application ID exactly once and nothing else |
| AfPfdTransactions.AfPfdTransaction.AddExtAppID | internal/context/af_pfd_transaction.go:35-39 | Adds the ID to the set; adding an ID already present changes nothing |
| AfPfdTransactions.AfPfdTransaction.DeleteExtAppID | internal/context/af_pfd_transaction.go:41-45 | Removes exactly that ID; afterwards it is not provisioned by the transaction |
| AfPfdTransactions.AfPfdTransaction.DeleteAllExtAppIDs | internal/context/af_pfd_transaction.go:47-51 | Leaves the transaction with no applications |
| AfSubscriptions.AfSubscription.constructor | internal/context/af_subscription.go:8-17 | A new subscription has the given IDs, empty session, influence and notification fields and is located at the PCF |
| AfSubscriptions.AfSubscription.SetAppSessID | internal/context/af_subscription.go:31-35 | Sets the application session ID and nothing else |
| AfSubscriptions.AfSubscription.SetInfluenceID | internal/context/af_subscription.go:37-41 | Sets the influence ID and nothing else |
| AfSubscriptions.AfSubscription.SetNotificationURI | internal/context/af_subscription.go:43-47 | Sets the notification URI and nothing else |
| NefContexts.NefContext.constructor | internal/context/nef_context.go:28-35 | A new NEF context has the given instance ID, a zero correlation counter, no AF contexts and an empty PFD subscription index |
| NefContexts.NefContext.SetNfInstID | internal/context/nef_context.go:43-48 | Replaces the NF instance ID |
| NefContexts.NefContext.NewAfCtx | internal/context/nef_context.go:50-64 | Returns the registered context when the AF is known; otherwise a fresh, valid context for that AF with zero counters and empty maps |
| NefContexts.NefContext.AddAfCtx | internal/context/nef_context.go:66-71 | Registers the context under its AF ID; a later lookup returns it |
| NefContexts.NefContext.DeleteAfCtx | internal/context/nef_context.go:79-87 | Removes exactly that AF; a later lookup finds nothing; validity is kept |
| NefContexts.NefContext.NewAfSubsc | internal/context/nef_context.go:89-95 | Bumps both the NEF correlation counter and the AF's subscription counter by one; the new subscription carries their decimal texts, a correlation ID never issued before and a subscription ID the AF does not hold |
| NefContexts.NefContext.NewAfPfdTrans | internal/context/nef_context.go:97-101 | Bumps the AF's transaction counter; the new transaction has a fresh ID the AF does not hold; the registry of provisioned applications is unchanged |
| NefContexts.NefContext.Registry | internal/context/nef_context.go:103-112 | The registry holds a triple (application, AF, transaction) exactly when that transaction of that AF provisions the application |
| NefContexts.NefContext.IsAppIDExisted | internal/context/nef_context.go:103-112 | Reports true exactly when some AF transaction provisions the application, and then names one that does; otherwise returns two empty IDs |
| NefContexts.NefContext.GetAfCtxAndPfdTransWithTransID | internal/context/nef_context.go:114-126 | Succeeds exactly when the AF is known and holds the transaction, returning those objects; otherwise fails with "AF not found" or "Transaction not found" in that order of checks |
| NefContexts.NefContext.GetPfdTransWithAppID | internal/context/nef_context.go:128-139 | Succeeds exactly when that transaction of that AF provisions the application; an unknown AF gets "AF not found", an unknown transaction of a known AF "Transaction not found", and otherwise the failure is "Application ID not found" |
| NefContexts.NefContext.AddPfdSub | internal/context/nef_context.go:141-157 | Bumps the subscription counter; the new ID is its decimal text and was not in use; the URI map gains that ID and the application index gains it under every listed application |
| NefContexts.NefContext.DeletePfdSub | internal/context/nef_context.go:159-171 | An unknown ID fails with "Subscription not found" and changes nothing; a known one is removed from the URI map and from every application's set |
| NefContexts.UniqueExtend | internal/context/nef_context.go:103-112 | Adding to the registry applications that no transaction provisions keeps every application provisioned at most once |
| NefContexts.UniqueReplace | internal/context/nef_context.go:103-112 | Replacing one transaction's applications by ones provisioned nowhere else keeps every application provisioned at most once |
| NefContexts.RetargetedRegistry | internal/context/af_pfd_transaction.go:35-51 | After a transaction's set is replaced, the registry is the old one minus that transaction's triples plus the new ones |
| NefContexts.RetargetSame | internal/context/af_pfd_transaction.go:35-51 | Replacing a transaction's applications by the same set leaves the registry unchanged |
| NefContexts.RegistryMember | internal/context/nef_context.go:114-139 | A triple is in the registry exactly when the AF, the transaction and the application all exist at that place |
| NefContexts.RegistryAfterAdd | internal/context/af_context.go:55-60 | Adding a new transaction to an AF adds exactly that transaction's triples to the registry |
| NefContexts.SeparateAfterAdd | internal/context/af_context.go:55-60 | Adding a transaction object that no other AF or transaction holds keeps transaction objects unshared |
| NefContexts.AtTransOfRegistry | internal/context/nef_context.go:128-139 | The registry's triples at one transaction are exactly the applications that transaction holds |
| Common.NatToString | internal/context/af_context.go:31-32 | The decimal text of a counter (strconv.FormatUint in base 10) is a non-empty digit string ending in the counter's last digit |
| Common.NatToStringInjective | internal/context/af_context.go:47-49 | Distinct counter values give distinct decimal texts, so the IDs a counter hands out never repeat |
| Common.IntToString | internal/factory/config.go:186 | strconv.Itoa agrees with the unsigned decimal text on non-negative numbers and starts with '-' on negative ones |
| Common.Decimal8000 | internal/factory/config.go:30-31 | The text of the default port number 8000 is "8000" |
| Common.NextIdIsFresh | internal/context/af_context.go:44-53 | An ID issued while the counter stood at or below n differs from the ID of counter n + 1 |
| Common.IssuedGrows | internal/context/af_context.go:25-35 | An ID issued under a counter stays issued as the counter grows |
| Common.NextIdIssued | internal/context/af_context.go:25-35 | The ID just handed out counts as issued under the bumped counter |
| Common.EnumerationLength | internal/context/af_context.go:68-77 | A duplicate-free listing of a map's keys has as many elements as the map |
| Common.EnumerationAppend | internal/context/af_context.go:68-77 | Appending a key not yet listed extends a listing of the key set to a listing of the key set plus that key |
| Common.Filter | internal/processor/pfd_handler.go:162-168 | Keeps exactly the listed elements that are in the chosen set, in order, and never grows the sequence |
| Common.FilterSnoc | internal/processor/pfd_handler.go:162-168 | Filtering a sequence with one more element appends that element exactly when it is kept |
| Common.LastSlash | internal/processor/pfd_handler.go:446-456 | Gives the position of the last '/' in a text, or -1 when there is none |
| Common.LastSegment | internal/processor/pfd_handler.go:446-456 | The part after the last '/' contains no '/', and a text without '/' is its own last segment |
| Common.LastSegmentOfAppend | internal/processor/pfd_handler.go:446-456 | A URI built as prefix + "/" + id ends with the segment id when id has no '/' |
| InternalFactory.GetVersion | internal/factory/config.go:149-154 | The configured version, or "" when the info section is missing |
| InternalFactory.GetSbiScheme | internal/factory/config.go:156-161 | The configured scheme when an sbi section sets one, otherwise the default "https"; never empty |
| InternalFactory.GetSbiPort | internal/factory/config.go:163-168 | The configured port when it is non-zero, otherwise 8000; never zero |
| InternalFactory.GetSbiBindingAddr | internal/factory/config.go:170-191 | Without an sbi section "0.0.0.0:8000"; otherwise host ":" port, where the host is "0.0.0.0" for an empty binding address, the value of the environment variable named by it when that is set, or the address itself |
| InternalFactory.GetSbiRegisterIP | internal/factory/config.go:193-198 | The configured register address, or the default "127.0.0.5"; never empty |
| InternalFactory.GetSbiRegisterAddr | internal/factory/config.go:200-208 | The register IP, ":" and the configured port, or "8000" when the port is zero |
| InternalFactory.GetSbiUri | internal/factory/config.go:210-212 | The scheme, "://" and the register address |
| InternalFactory.GetNrfUri | internal/factory/config.go:214-219 | The configured NRF URI, or "https://127.0.0.10:8000"; never empty |
| InternalFactory.GetServiceList | internal/factory/config.go:221-226 | The configured list when there is a non-empty one, and nil (None) exactly when the configuration or its list is missing or empty |
| InternalFactory.ValidateServiceList | internal/factory/config.go:88-96 | Accepts exactly the lists in which every service is "nnef-pfdmanagement"; otherwise reports the first offending index and name in the Go error text |
| InternalFactory.DefaultsWithoutConfiguration | internal/factory/config.go:27-38 | Without a configuration section every getter gives its documented default and the service list is nil |
| InternalFactory.PortDefaultText | internal/factory/config.go:30-31 | The integer default port and the text default port agree |
| InternalFactory.DefaultSbiUri | internal/factory/config.go:200-212 | An sbi section with no scheme, register address or port gives the URI "https://127.0.0.5:8000" |
| PkgFactory.SbiScheme | pkg/factory/config.go:185-193 | The configured scheme, or "https" when none is set; never empty |
| PkgFactory.SbiPort | pkg/factory/config.go:195-203 | The configured port, or 8000 when it is zero; never zero |
| PkgFactory.SbiBindingIP | pkg/factory/config.go:205-218 | "0.0.0.0" for an empty binding address, otherwise the value of the environment variable it names or, when that is unset, the address itself; never empty |
| PkgFactory.SbiRegisterIP | pkg/factory/config.go:224-232 | The configured register address, or "127.0.0.5"; never empty |
| PkgFactory.NrfUri | pkg/factory/config.go:242-250 | The configured NRF URI, or "https://127.0.0.10:8000"; never empty |
| PkgFactory.ServiceList | pkg/factory/config.go:252-260 | The configured list, and nil (None) exactly when it is empty |
| PkgFactory.TLSPemPath | pkg/factory/config.go:262-270 | The default "./config/TLS/nef.pem" when no TLS section is set, else the configured path |
| PkgFactory.TLSKeyPath | pkg/factory/config.go:272-280 | The default "./config/TLS/nef.key" when no TLS section is set, else the configured path |
| PkgFactory.DefaultSbiUri | pkg/factory/config.go:234-240 | An sbi section with no scheme, register address or port gives the URI "https://127.0.0.5:8000" |
| PkgFactory.NrfUriDefault | pkg/factory/config.go:242-250 | The NRF URI is the default exactly when none or the default itself is configured |
| PkgFactory.ServiceUri | pkg/factory/config.go:313-326 | Empty exactly for names other than the four NEF services; for each of them the SBI URI followed by that service's path prefix |
| PkgFactory.ServiceUrisShareSbiUri | pkg/factory/config.go:313-326 | Every non-empty service URI strictly extends the SBI URI |
| PkgFactory.ValidateServiceList | pkg/factory/config.go:95-104 | Accepts exactly the lists whose every service is "nnef-pfdmanagement" or "nnef-oam"; otherwise reports the first offending index and name |
| PkgFactory.BeforeFirstDot | pkg/factory/config.go:283-284 | The first element of strings.Split on "." is the longest dot-free prefix, ending just before the first dot when there is one |
| PkgFactory.ToInt32 | pkg/factory/config.go:303 | The int32 conversion keeps values in range and otherwise wraps modulo 2^32 into the signed 32-bit range |
| PkgFactory.NFServices | pkg/factory/config.go:282-311 | One NF service per configured service, in order, with its index as instance ID, the configured name, status REGISTERED, the SBI URI as API prefix and one TCP endpoint at the register address and the int32 port |
| PkgFactory.NFServicesDistinctInstanceIds | pkg/factory/config.go:286-288 | No two NF services share a service instance ID |
| PkgFactory.MajorVersionInUri | pkg/factory/config.go:283-294 | With version "1.0.0" the API version in the URI is "v1" |
| NrfService.BuildNfProfile | internal/consumer/nrf_service.go:114-153 | The NEF's profile carries the context's instance ID, type NEF, status REGISTERED, the register address as its only IPv4 address, and one REGISTERED service per configured service, in order and by name |
| NrfService.AdoptRegistration | internal/consumer/nrf_service.go:94-108 | Registration ends exactly on 200 or 201; on 201 the instance ID becomes the slash-free last segment of the Location header; otherwise it is unchanged |
| NrfService.InstanceIdOf | internal/consumer/nrf_service.go:102-104 | The text after the last '/' of the Location header is a slash-free suffix of it, and the whole header when it has no '/' |
| NrfService.InstanceIdOfResourceUri | internal/consumer/nrf_service.go:102-104 | For a resource URI prefix + "/" + id, the adopted instance ID is id |
| NrfService.EndpointUri | internal/consumer/nrf_service.go:271-284 | scheme://address:port for a non-zero port; with port zero the default port 80 for http and 443 for https, and "" for any other scheme; empty exactly in that last case |
| NrfService.ServiceCandidate | internal/consumer/nrf_service.go:243-263 | The URI one matching service yields: its own FQDN, else the profile's FQDN, else the scheme and host of its parsed API prefix (a parse error ends the search with ""), else the first endpoint's address or, when that is empty, the profile's first address, else "" |
| NrfService.ScanFindsFirst | internal/consumer/nrf_service.go:233-269 | A non-empty search result comes from a matching service all of whose predecessors gave nothing; the first matching service that parses badly or gives a non-empty URI decides the result |
| NrfService.SearchNFServiceUri | internal/consumer/nrf_service.go:233-269 | The loop over the profile's services computes the first-match search result |
| NrfService.FirstUriIsFirst | internal/consumer/nrf_service.go:214-230 | The selection fails with "no uri for <name> found" exactly when no profile yields a URI; otherwise it picks the first profile that does, with its URI |
| NrfService.GetProfileAndUri | internal/consumer/nrf_service.go:214-230 | The loop over the discovered profiles computes that first-profile selection |
| NrfService.SearchNFInstances | internal/consumer/nrf_service.go:155-170 | Passes the profiles through; a 307 answer turns into the "Temporary Redirect" error, any other answer keeps the client's error |
| NrfService.SearchServiceUri | internal/consumer/nrf_service.go:172-212 | Succeeds with a non-empty URI exactly when discovery raised no error and some profile yields a URI; discovery errors pass through, otherwise the selection's error is returned with an empty URI |
| NrfService.SearchPcfPolicyAuthUri | internal/consumer/nrf_service.go:172-191 | The PCF policy-authorization URI is the first profile's npcf-policyauthorization URI; a 307 gives the redirect error; no match gives "no uri for npcf-policyauthorization found" |
| NrfService.SearchUdrDrUri | internal/consumer/nrf_service.go:193-212 | The UDR data-repository URI is the first profile's nudr-dr URI; a 307 gives the redirect error; no match gives "no uri for nudr-dr found" |
| NrfService.ScanUniform | internal/consumer/nrf_service.go:243-267 | When every matching service yields the same candidate and one exists, the search gives that candidate's URI, or "" for a parse failure |
| NrfService.OwnServiceCandidate | internal/consumer/nrf_service.go:124-150 | Every service of the NEF's own profile yields the same candidate, taken from its API prefix, the SBI URI |
| NrfService.OwnProfileIsDiscoverable | internal/consumer/nrf_service.go:114-153 | Searching the NEF's own profile for a configured service gives the scheme and host of its SBI URI, or "" when that URI does not parse |
| PfdRules.ValidatePfdData | internal/processor/pfd_handler.go:491-511 | No problem exactly when the data names its application, has at least one PFD and every PFD has an ID and, outside a PATCH, some content; otherwise a 404 problem for the application ID, the missing PFDs or one offending PFD |
| PfdRules.PatchCheckIsWeaker | internal/processor/pfd_handler.go:505-507 | Data that passes the full check also passes the PATCH check |
| PfdRules.DataProblemIsNotFound | internal/processor/pfd_handler.go:491-511 | Every problem the data check reports is a 404 DATA_NOT_FOUND |
| PfdRules.AddPfdReportAsWritten | internal/processor/pfd_handler.go:513-519 | As written: a report with a new failure code is stored as given, a report whose code is already present changes nothing, and other codes are untouched |
| PfdRules.AsWrittenLosesSecondReport | internal/processor/pfd_handler.go:513-519 | Two reports with the same code, app1 then app2, leave only app1 listed |
| PfdRules.AddPfdReport | internal/processor/pfd_handler.go:513-519 | As intended: the code's list becomes its old list followed by the new identifiers, other codes are untouched, and every report stays filed under its own code |
| PfdRules.CorrectedKeepsSecondReport | internal/processor/pfd_handler.go:513-519 | Two reports with the same code, app1 then app2, list both in order |
| PfdRules.PatchModifyPfdData | internal/processor/pfd_handler.go:396-413 | Fails with the "One of FlowDescriptions, Urls or DomainNames" 404 exactly when the patch empties a PFD the data does not have; otherwise the data's PFDs become the patched map and its application ID and URI are kept |
| PfdRules.ApplyPatchEntry | internal/processor/pfd_handler.go:398-410 | One iteration of the PATCH loop: an emptying entry for an absent PFD fails the whole patch; otherwise the PFDs become those patched by one more entry |
| PfdRules.PatchedPfdsMeaning | internal/processor/pfd_handler.go:396-413 | After a patch, an unnamed PFD is as before, a PFD named with empty content is gone, and any other named PFD is the patch's |
| PfdRules.PatchOneMore | internal/processor/pfd_handler.go:397-410 | One more patch entry fails exactly when it empties an absent PFD, and otherwise deletes or sets exactly that PFD |
| PfdRules.PatchWithoutDeletionIdempotent | internal/processor/pfd_handler.go:396-413 | A patch that deletes nothing never fails, and applying it twice gives the same PFDs as applying it once |
| PfdRules.ReappliedDeletionFails | internal/processor/pfd_handler.go:399-406 | Re-sending a patch that deleted a PFD fails, since that PFD is now absent |
| PfdRules.PatchDeletesEmptyEntry | internal/processor/pfd_handler_test.go:621-742 | The unit-test case: patching pfd1 with empty content removes it and keeps pfd2 |
| PfdRules.PfdsOfContentsMeaning | internal/processor/pfd_handler.go:415-429 | The converted map has exactly the listed PFD IDs as keys, and an ID listed once maps to that entry's PFD |
| PfdRules.ConvertPfdDataForAppToPfdData | internal/processor/pfd_handler.go:415-429 | Keeps the application ID, leaves Self empty and keys the PFDs by their IDs |
| PfdRules.ContentsOf | internal/processor/pfd_handler.go:431-444 | One PFD content per listed key |
| PfdRules.ConvertPfdDataToPfdDataForApp | internal/processor/pfd_handler.go:431-444 | Keeps the application ID and lists every PFD exactly once, in some map order |
| PfdRules.PfdsOfContentsPrefix | internal/processor/pfd_handler.go:415-444 | Converting a prefix of the listing back gives the PFDs of exactly those keys |
| PfdRules.DataRoundTrip | internal/processor/pfd_handler.go:415-444 | Converting PfdData to the UDR form and back restores its PFDs, whichever map order was used |
| PfdRules.DataURIBelowManagementURI | internal/processor/pfd_handler.go:446-456 | An application's URI is its transaction's URI followed by "/applications/" and the application ID |
| PfdRules.URIsEndWithIdentifiers | internal/processor/pfd_handler.go:446-456 | The transaction URI ends with the transaction ID and the application URI ends with the application ID |
| PfdValidation.ValidatePfdManagement | internal/processor/pfd_handler.go:458-489 | An outcome the Go check can produce: an empty request gives the "Absent of PfdManagement.PfdDatas" 404; an invalid PfdData gives that data's problem; otherwise every application provisioned under another AF or transaction is dropped and listed once as APP_ID_DUPLICATED, the rest is kept unchanged, and the answer is SYSTEM_FAILURE exactly when nothing is left. The registry is not changed |
| PfdValidation.ScanRequest | internal/processor/pfd_handler.go:465-478 | The loop over the request's applications either stops with a data problem that satisfies the validation outcome, or ends with every application looked up, duplicates dropped and reported and the rest kept |
| PfdValidation.ScanOne | internal/processor/pfd_handler.go:466-477 | One loop step: looks the application up, drops it when it is a duplicate, then checks its data; the scan state is kept or the outcome is a data problem |
| PfdValidation.DropIfDuplicate | internal/processor/pfd_handler.go:467-474 | The registry lookup is recorded truthfully and the application is dropped and reported exactly when it is provisioned under another AF or transaction |
| PfdValidation.ScanDrop | internal/processor/pfd_handler.go:469-473 | Dropping a duplicate keeps the scan state: the duplicate list still lists every dropped application once |
| PfdValidation.ScanOutcome | internal/processor/pfd_handler.go:480-488 | Once every application has passed, the answer is SYSTEM_FAILURE "None of the PFDs were created" exactly when nothing was kept |
| PfdValidation.InvalidOutcome | internal/processor/pfd_handler.go:475-477 | Returning the problem of an invalid PfdData met during the scan is a valid outcome |
| PfdValidation.NoTransactionMinusOne | internal/processor/pfd_handler.go:43-92 | No transaction is ever called "-1", the placeholder ID the create handler validates under |
| PfdValidation.CreateKeepsOnlyNewApplications | internal/processor/pfd_handler.go:43-92 | On create, an application that some transaction already provisions is always dropped, and every kept application is provisioned nowhere |
| PfdValidation.CreateAppsUnprovisioned | internal/processor/pfd_handler.go:43-92 | When the create check succeeds, none of the kept applications is provisioned anywhere |
| PfdValidation.ReplaceAppsAvailable | internal/processor/pfd_handler.go:139-204 | When the replace check succeeds, every kept application is unprovisioned or provisioned by this very transaction |
| PfdHandler.Removals | internal/processor/pfd_handler.go:217-225 | One removal notification (RemovalFlag set) per deleted application, in deletion order |
| PfdHandler.DeletedPrefix | internal/processor/pfd_handler.go:217-225 | The number of applications deleted before the first one the UDR refuses to delete |
| PfdHandler.DeletePfdTransAll | internal/context/af_context.go:79-84 | Removing the listed transactions drops exactly those IDs and leaves subscriptions and counters alone |
| PfdHandler.Refused | internal/processor/pfd_handler.go:376-385 | The applications the UDR refused to store, in visiting order |
| PfdHandler.StoreOutcomeDatas | internal/processor/pfd_handler.go:64-79 | After the store loop, an application stays in the request exactly when it was not visited or the UDR stored it, and a stored one gets its application URI as Self |
| PfdHandler.StoreOutcomeKeys | internal/processor/pfd_handler.go:64-79 | The store loop keeps the request's URI and keeps exactly the unvisited or stored applications |
| PfdHandler.StoreOutcomeValues | internal/processor/pfd_handler.go:64-79 | A stored application's entry is the request's entry with its URI as Self; an unvisited one is unchanged |
| PfdHandler.StoreOutcomeMalfunction | internal/processor/pfd_handler.go:64-79 | The MALFUNCTION report lists its earlier entries followed by every refused application, in order |
| PfdHandler.StoreOutcomeOtherReports | internal/processor/pfd_handler.go:64-79 | The store loop touches no report other than MALFUNCTION |
| PfdHandler.NothingStored | internal/processor/pfd_handler.go:64-79 | When the UDR stores nothing, nothing is announced |
| PfdHandler.AllRefused | internal/processor/pfd_handler.go:64-79 | When the UDR stores nothing, every visited application is reported |
| PfdHandler.DeprecatedAppIDs | internal/processor/pfd_handler.go:162-168 | The transaction's applications that the new request no longer names, in the transaction's order |
| PfdHandler.DatasOfKeys | internal/processor/pfd_handler.go:368-372 | The assembled PfdDatas have exactly the listed applications as keys, each entry naming its own application and carrying its application URI |
| PfdHandler.DatasOfEntry | internal/processor/pfd_handler.go:368-372 | An application the UDR lists for the last time gets the PFDs of that listing |
| PfdHandler.ReplacedOf | internal/processor/pfd_handler.go:139-204 | The replace outcome follows from what the UDR loops left and the transaction's new application set |
| PfdHandler.AddTransaction | internal/processor/pfd_handler.go:86-87 | Registering the new transaction under its AF adds exactly its applications to the registry and keeps the context consistent |
| PfdHandler.Processor.constructor | internal/processor/processor.go:23-29 | A processor holds the NEF context, the notifier, the configuration and the peer NFs it is given |
| PfdHandler.Processor.DeletePfdDataFromUDR | internal/processor/pfd_handler.go:387-393 | Succeeds exactly when the UDR answers 204, and otherwise passes the UDR's reply on |
| PfdHandler.Processor.StorePfdDataToUDR | internal/processor/pfd_handler.go:376-385 | Succeeds exactly when the UDR answers 200 or 201, and otherwise gives a one-application MALFUNCTION report |
| PfdHandler.Processor.GetIndividualApplicationPFDManagement | internal/processor/pfd_handler.go:233-250 | 404 with the lookup's message unless that transaction of that AF provisions the application; the UDR's reply when its read fails; otherwise 200 with the converted data and its application URI |
| PfdHandler.Processor.PutIndividualApplicationPFDManagement | internal/processor/pfd_handler.go:280-310 | 404 unless provisioned there; the data's problem when the full check fails; 500 with a MALFUNCTION report when the UDR refuses; otherwise 200 with the data and its URI and one announcement of its PFDs |
| PfdHandler.Processor.PatchIndividualApplicationPFDManagement | internal/processor/pfd_handler.go:312-352 | 404 unless provisioned there; the data's problem when the PATCH check fails; the UDR's reply when its read fails; the 404 patch problem when the patch empties an absent PFD; 500 when the UDR refuses the result; otherwise 200 with the patched data and one announcement |
| PfdHandler.Processor.DeleteIndividualApplicationPFDManagement | internal/processor/pfd_handler.go:252-278 | 404 unless provisioned there; the UDR's reply when it refuses the deletion, the registry unchanged; otherwise 204, one removal notice and exactly that triple gone from the registry |
| PfdHandler.Processor.DeleteIndividualPFDManagementTransaction | internal/processor/pfd_handler.go:206-231 | 404 with the lookup's message for an unknown AF or transaction; otherwise the applications are deleted in order with a removal notice each, and the first UDR refusal ends the handler with its reply, the registry and the AF's transactions unchanged; when all are deleted the AF's transactions are the old ones minus this one, its triples are gone and the answer is 204; the AF's subscriptions and both counters never change |
| PfdHandler.Processor.DeleteStoredTrans | internal/processor/pfd_handler.go:214-230 | For a known transaction: the deletion loop, the first refusal answered with the UDR's reply and the transactions unchanged, and after a complete run exactly this transaction and its triples removed with 204; subscriptions and counters untouched |
| PfdHandler.Processor.DeletePFDManagementTransactions | internal/processor/pfd_handler.go:94-121 | 404 "Given AF is not existed" for an unknown AF; otherwise the transactions are emptied one by one, each fully emptied one removed with its triples; a UDR refusal stops with its reply after the removals announced so far; a complete run answers 204 and leaves the AF with no transactions and no triples; the AF's subscriptions and both counters never change |
| PfdHandler.Processor.DeleteAllOfAf | internal/processor/pfd_handler.go:103-120 | The per-AF part of the delete-all handler, with the same outcome for a known AF; subscriptions and counters untouched |
| PfdHandler.Processor.DeleteListed | internal/processor/pfd_handler.go:103-120 | The delete-all loops over a listing of the AF's transactions, with the same outcome; subscriptions and counters untouched |
| PfdHandler.Processor.TransactionsOf | internal/context/af_context.go:68-77 | Lists the AF's transactions with their keys, every registry entry of the AF naming one of them |
| PfdHandler.Processor.DeleteAllApps | internal/processor/pfd_handler.go:103-117 | The nested UDR loop empties whole transactions in order until a refusal, which it reports with the UDR's reply and the removals announced so far |
| PfdHandler.Processor.DeleteAllAppsInto | internal/processor/pfd_handler.go:103-117 | The same nested loop, queuing the removals in the notify context |
| PfdHandler.Processor.DeleteTransApps | internal/processor/pfd_handler.go:104-113 | One transaction's applications are deleted in a listing of its set until the UDR refuses one |
| PfdHandler.Processor.DeleteAppsAndFlush | internal/processor/pfd_handler.go:214-225 | Deletes in order until the first refusal, flushing one removal per deleted application |
| PfdHandler.Processor.DeleteApps | internal/processor/pfd_handler.go:217-225 | Deletes in order until the first refusal and queues one removal per deleted application |
| PfdHandler.Processor.DeleteOne | internal/processor/pfd_handler.go:218-224 | One UDR deletion: on success a removal is queued, on refusal the UDR's reply is returned and nothing is queued |
| PfdHandler.Processor.Announce | internal/processor/pfd_handler.go:264-270 | A single queued notice is flushed to its application's subscribers |
| PfdHandler.Processor.DropTransactions | internal/processor/pfd_handler.go:114 | Removing the listed transactions drops exactly those IDs from the AF, removes exactly their triples from the registry and leaves subscriptions and counters alone |
| PfdHandler.Processor.DropTrans | internal/processor/pfd_handler.go:226 | Removing one transaction drops exactly that ID from the AF, removes exactly its triples from the registry and leaves subscriptions and counters alone |
| PfdHandler.Processor.RemoveExtAppID | internal/processor/pfd_handler.go:265 | Removing the application from its transaction removes exactly that triple from the registry |
| PfdHandler.Processor.StoreOne | internal/processor/pfd_handler.go:65-78 | One step of the store loop: the application joins the transaction, its data is converted, and it is kept with its URI and announced or dropped and reported as MALFUNCTION |
| PfdHandler.Processor.StoreApps | internal/processor/pfd_handler.go:64-79 | The store loop visits every application of the request once; the transaction gains all of them and the request and notices are those of the store outcome |
| PfdHandler.Processor.StoreAllAndFlush | internal/processor/pfd_handler.go:61-79 | The store loop with its deferred flush |
| PfdHandler.Processor.OpenAndStore | internal/processor/pfd_handler.go:61-79 | Advances the AF's transaction counter by one, opens a new transaction with that ID and runs the store loop into it, the registry untouched until it is added |
| PfdHandler.Processor.KeepIfStored | internal/processor/pfd_handler.go:80-87 | The transaction joins the AF, with exactly its applications' triples added to the registry, only when the UDR stored at least one application |
| PfdHandler.Processor.CreateTrans | internal/processor/pfd_handler.go:61-91 | The AF's transaction counter advances by one and the new transaction has the new value as ID, even when the UDR stores nothing; its subscriptions are untouched; when the UDR stored nothing the answer is 500 with the reports and the registry is unchanged; otherwise the transaction is registered with every requested application and the answer is 201 with its URI |
| PfdHandler.Processor.PostChecked | internal/processor/pfd_handler.go:48-91 | A refused validation is answered with 500 and the reports or with the problem; an unknown AF gets 404 "Given AF is not existed"; otherwise the create outcome; the AF's transaction counter advances by one exactly when validation passed, and its subscriptions never change |
| PfdHandler.Processor.PostPFDManagementTransactions | internal/processor/pfd_handler.go:43-92 | Validation under transaction "-1", then the create outcome; the registry changes only when a transaction is created, and the AF's transaction counter advances exactly when validation passed |
| PfdHandler.Processor.BuildPfdManagement | internal/processor/pfd_handler.go:354-374 | Reads the transaction's applications from the UDR: its reply when the read fails, otherwise the transaction's URI and one PfdData per listed application |
| PfdHandler.Processor.GetIndividualPFDManagementTransaction | internal/processor/pfd_handler.go:123-137 | 404 with the lookup's message, the UDR's reply, or 200 with the built transaction |
| PfdHandler.Processor.GetPFDManagementTransactions | internal/processor/pfd_handler.go:23-41 | 404 for an unknown AF; otherwise the transactions are built in listing order and the first UDR refusal answers the request, or 200 lists them all |
| PfdHandler.Processor.BuildAll | internal/processor/pfd_handler.go:32-38 | Builds the transactions in order, stopping at the first UDR refusal |
| PfdHandler.Processor.ReplaceAndFlush | internal/processor/pfd_handler.go:158-190 | The replace handler's UDR loops with their deferred flush; the transaction's set becomes the request's applications unless a deletion was refused |
| PfdHandler.Processor.ReplaceInto | internal/processor/pfd_handler.go:162-190 | Deletes the no-longer-named applications in order until a refusal; when all are deleted, the transaction lists exactly the request's applications and they are stored as in create |
| PfdHandler.Processor.PutStored | internal/processor/pfd_handler.go:158-203 | For a known transaction: the replace outcome, the registry's entries for the transaction becoming the request's applications unless a deletion was refused |
| PfdHandler.Processor.PutChecked | internal/processor/pfd_handler.go:146-203 | A refused validation is answered as in create; an unknown AF or transaction gets 404 with the lookup's message; otherwise the replace outcome |
| PfdHandler.Processor.PutIndividualPFDManagementTransaction | internal/processor/pfd_handler.go:139-204 | Validation under the transaction's own ID, then the replace outcome |
| PfdHandler.Processor.RelistTrans | internal/processor/pfd_handler.go:158-190 | The replace loops, the registry's entries for the transaction becoming its new application set |
| PfdNotifier.ChangedAppsIsAppsFor | internal/notifier/pfd_notifier.go:108-113 | The per-subscription change lists built by AddNotification are exactly, for each subscriber with at least one change, the applications it subscribes to in the order they were queued |
| PfdNotifier.LatestIsLastQueued | internal/notifier/pfd_notifier.go:108-109 | The notification kept for an application is the one queued last for it, and only queued applications have one |
| PfdNotifier.AppsForAreQueued | internal/notifier/pfd_notifier.go:108-113 | A subscriber's change list names only applications that were queued |
| PfdNotifier.FlushBatchMeaning | internal/notifier/pfd_notifier.go:115-121 | A flush sends one batch per subscriber with a change, whose k-th notification is the latest one of its k-th changed application |
| PfdNotifier.QueuedTwiceListedTwice | internal/notifier/pfd_notifier.go:110-112 | An application queued twice appears twice in each of its subscribers' lists (the list is appended to, not deduplicated) |
| PfdNotifier.TwoSubscribersScenario | internal/processor/pfdf_handler_test.go:158-263 | With subscription 2 on app1 and subscription 3 on app1 and app2, a change of app1 reaches 2 and 3 and a change of app2 reaches only 3 |
| PfdNotifier.AppendEachMeaning | internal/notifier/pfd_notifier.go:110-112 | Appending the application to the subscribers in a duplicate-free listing gives the same map as appending it to each subscriber of the set |
| PfdNotifier.AppendToSubs | internal/notifier/pfd_notifier.go:110-112 | The loop appends the application to the list of every listed subscriber and changes no other list |
| PfdNotifier.PfdChangeNotifier.constructor | internal/notifier/pfd_notifier.go:30-35 | A new notifier has counter 0 and empty index and URI maps, which satisfy the index invariant |
| PfdNotifier.PfdChangeNotifier.AddPfdSub | internal/notifier/pfd_notifier.go:49-67 | The counter goes up by one and its decimal text is the new, unused subscription ID; its notify URI is recorded; it is indexed under exactly the subscription's applications; the index invariant is kept |
| PfdNotifier.PfdChangeNotifier.DeletePfdSub | internal/notifier/pfd_notifier.go:69-81 | An unknown ID gives "Subscription not found" and changes nothing; a known one loses its URI and disappears from every application's subscriber set, the counter unchanged |
| PfdNotifier.PfdChangeNotifier.GetSubIDs | internal/notifier/pfd_notifier.go:83-92 | Lists the application's subscribers, each exactly once |
| PfdNotifier.PfdChangeNotifier.NewPfdNotifyContext | internal/notifier/pfd_notifier.go:100-106 | A fresh notify context on this notifier with nothing queued |
| PfdNotifier.PfdNotifyContext.constructor | internal/notifier/pfd_notifier.go:100-106 | A notify context starts with no notifications and no change lists |
| PfdNotifier.PfdNotifyContext.AddNotification | internal/notifier/pfd_notifier.go:108-113 | Records the notification as the application's latest and appends the application to the change list of each of its current subscribers |
| PfdNotifier.PfdNotifyContext.FlushNotifications | internal/notifier/pfd_notifier.go:115-138 | The batches sent are those of FlushBatchMeaning over the notifications queued since the context was opened |
| PfdSubIndex.IndexedStep | internal/notifier/pfd_notifier.go:59-64 | One iteration of the indexing loop adds the subscription to one more application's set, creating the set when absent |
| PfdSubIndex.AddIndexesExactly | internal/notifier/pfd_notifier.go:55-64 | After indexing, the new subscription ID is in an application's set exactly when the application is in the subscription's list |
| PfdSubIndex.AddKeepsIndexValid | internal/notifier/pfd_notifier.go:55-64 | Adding a subscription keeps every indexed and recorded ID at most the counter, so the next ID is never in use |
| PfdSubIndex.UnindexedKeepsOthers | internal/notifier/pfd_notifier.go:77-79 | Removing a subscription from the index keeps every application key, removes that ID from every set and leaves the other IDs alone |
| PfdSubIndex.DeleteKeepsIndexValid | internal/notifier/pfd_notifier.go:73-80 | Deleting a subscription keeps the index invariant |
| PfdSubIndex.AddThenDeleteRestores | internal/notifier/pfd_notifier.go:49-81 | Adding a subscription and then deleting it gives every earlier application its earlier subscriber set back, and leaves only empty sets for the applications it created |
| PfdSubIndex.AddToIndex | internal/notifier/pfd_notifier.go:59-64 | The indexing loop computes the indexed map |
| PfdSubIndex.RemoveFromIndex | internal/notifier/pfd_notifier.go:77-79 | The removal loop computes the unindexed map |
| PfdSubIndex.AddSub | internal/notifier/pfd_notifier.go:49-67 | The same state change as the notifier's AddPfdSub, on values: fresh ID equal to the incremented counter, exact indexing, invariant kept |
| PfdSubIndex.DeleteSub | internal/notifier/pfd_notifier.go:69-81 | The same state change as the notifier's DeletePfdSub, on values: "Subscription not found" and no change, or URI and index entries removed |
| Pfdf.SubscriptionURIEndsWithID | internal/sbi/processor/pfdf.go:57-60 | A subscription's URI is the PFD management service URI, "/subscriptions/" and the ID, so its last segment is the ID |
| Pfdf.GetApplicationsPFD | internal/sbi/processor/pfdf.go:13-21 | Passes the UDR's status and body through without a Location; a 200 carries a list of PfdDataForApp |
| Pfdf.GetIndividualApplicationPFD | internal/sbi/processor/pfdf.go:23-30 | Passes the UDR's status and body through without a Location; a 200 carries one PfdDataForApp |
| Pfdf.PostPFDSubscriptions | internal/sbi/processor/pfdf.go:32-45 | An empty notify URI gives 404 "Absent of Notify URI" and leaves the notifier alone; otherwise the notifier registers the subscription under the next ID and the answer is 201 with the subscription and a Location ending in that ID |
| Pfdf.DeleteIndividualPFDSubscription | internal/sbi/processor/pfdf.go:47-55 | 404 "Subscription not found" with the notifier unchanged for an unknown ID; otherwise 204 and the subscription removed from the URI map and from every application's set |
| PfdfHandler.SubscriptionURIEndsWithID | internal/processor/pfdf_handler.go:57-60 | A subscription's URI starts with the SBI URI and its last segment is the ID |
| PfdfHandler.GetApplicationsPFD | internal/processor/pfdf_handler.go:13-21 | Passes the UDR's status and body through without a Location; a 200 carries a list of PfdDataForApp |
| PfdfHandler.GetIndividualApplicationPFD | internal/processor/pfdf_handler.go:23-30 | Passes the UDR's status and body through without a Location; a 200 carries one PfdDataForApp |
| PfdfHandler.PostPFDSubscriptions | internal/processor/pfdf_handler.go:32-45 | An empty notify URI gives 404 "Absent of Notify URI" and leaves the notifier alone; otherwise the subscription is registered under the next ID and the answer is 201 with a Location under the SBI URI ending in that ID |
| PfdfHandler.DeleteIndividualPFDSubscription | internal/processor/pfdf_handler.go:47-55 | 404 "Subscription not found" with the notifier unchanged for an unknown ID; otherwise 204 and the subscription removed everywhere |
| SbiProcessor.TiSubscription.constructor | internal/sbi/processor/ti.go:99-104 | A new subscription has its ID and storage location and no application session or influence ID yet |
| SbiProcessor.TiAf.constructor | internal/sbi/processor/ti.go:87-94 | A new AF record has its ID and no subscriptions |
| SbiProcessor.TiContext.constructor | pkg/app/app.go:38-40 | A new context holds no AF |
| SbiProcessor.TiContext.GetAf | internal/sbi/processor/ti.go:28-32 | Null exactly when no AF of that ID is registered, otherwise that AF's record |
| SbiProcessor.Processor.constructor | pkg/app/app.go:33-54 | A processor holds the configuration, context, notifier and peer NFs it is given |
| Ti.SplitCounts | internal/sbi/processor/ti.go:37-43 | Every subscription goes to exactly one of the PCF and UDR lists |
| Ti.SplitSubs | internal/sbi/processor/ti.go:37-43 | Visits each subscription once, in some order of the map, and sends its application session ID to the PCF list when it is kept at the PCF and its influence ID to the UDR list otherwise |
| Ti.GetTrafficInfluenceSubscription | internal/sbi/processor/ti.go:17-72 | 404 "AF is not found" for an unknown AF; otherwise the list answer over the AF's PCF and UDR subscriptions |
| Ti.PcfPostAppSessions | internal/sbi/processor/ti.go:304-327 | On 201 from the PCF the subscription records the session ID and the answer is 201 with no body; otherwise the PCF's reply is passed on and the subscription is unchanged |
| Ti.Route | internal/sbi/processor/ti.go:106-117 | A request naming a UE goes to the PCF and records the session ID on success; a group or any-UE request records the influence ID and is stored at the UDR; the status is the peer's |
| Ti.Store | internal/sbi/processor/ti.go:127-130 | The subscription is put in its AF under its ID and the AF in the context under its ID |
| Ti.PostTrafficInfluenceSubscription | internal/sbi/processor/ti.go:74-140 | A malformed request is answered with its problem and nothing changes; a failed allocation gives 500 "No resource can be allocated" and nothing changes; otherwise the new subscription is stored in its AF whatever the peer answered, and the answer carries the peer's status, a Location ending in the subscription ID and the request with that Self |
| Ti.GetIndividualTrafficInfluenceSubscription | internal/sbi/processor/ti.go:142-179 | 404 "AF is not found", 404 "Subscription is not found", or the individual answer read from the PCF or the UDR |
| Ti.PutIndividualTrafficInfluenceSubscription | internal/sbi/processor/ti.go:181-187 | Always 200 with no body |
| Ti.PatchIndividualTrafficInfluenceSubscription | internal/sbi/processor/ti.go:189-227 | 404 "AF is not found", 404 "Subscription is not found", or the patch answer from the PCF or the UDR |
| Ti.DeleteIndividualTrafficInfluenceSubscription | internal/sbi/processor/ti.go:229-264 | 404 for an unknown AF or subscription; when the peer deletes, 200 and the subscription stays in the AF; when the peer refuses, its reply and the subscription removed from the AF |
| TiHandler.SplitSubs | internal/processor/ti_handler.go:31-37 | Visits each subscription once and splits the IDs between the PCF and UDR lists by storage location |
| TiHandler.GetTrafficInfluenceSubscription | internal/processor/ti_handler.go:16-66 | 404 for an unknown AF context; otherwise the list answer over its PCF and UDR subscriptions |
| TiHandler.PcfPostAppSessions | internal/processor/ti_handler.go:173-194 | On 201 the subscription records the session ID and the answer is 201 with no body; otherwise the PCF's reply is passed on |
| TiHandler.Route | internal/processor/ti_handler.go:81-101 | A UE request goes to the PCF, a group or any-UE request to the UDR under the new influence ID, and anything else gets the 400 "Not individual UE case, nor group case" |
| TiHandler.Draw | internal/processor/ti_handler.go:79-80 | An existing AF context is reused and a new one is fresh; either way its subscription counter and the correlation counter go up by one and the new subscription takes their decimal texts as IDs |
| TiHandler.Commit | internal/processor/ti_handler.go:103-105 | The AF context is registered under its ID and the subscription added to it under its ID |
| TiHandler.PostTrafficInfluenceSubscription | internal/processor/ti_handler.go:68-115 | The counters always advance; when the routed status is between 200 and 208 the subscription is registered and the answer gains a Location ending in its ID; otherwise the answer is the routed one and the contexts are unchanged |
| TiHandler.GetIndividualAsWritten | internal/processor/ti_handler.go:117-150 | As written: 404 for an unknown AF context, a nil dereference for an unknown subscription, otherwise the individual answer |
| TiHandler.GetIndividualTrafficInfluenceSubscription | internal/processor/ti_handler.go:117-150 | As intended: 404 for an unknown AF context, 404 "Target subscription is not existed" for an unknown subscription, otherwise the individual answer |
| TiHandler.IndividualRead | internal/processor/ti_handler.go:132-148 | Reads the subscription from the PCF or the UDR and answers with its URI as Self |
| TiHandler.PutIndividualTrafficInfluenceSubscription | internal/processor/ti_handler.go:152-156 | Always 200 with no body |
| TiHandler.PatchIndividualTrafficInfluenceSubscription | internal/processor/ti_handler.go:158-162 | Always 200 with no body |
| TiHandler.DeleteIndividualTrafficInfluenceSubscription | internal/processor/ti_handler.go:164-167 | Always 200 with no body |
| TiRules.RouteOf | internal/sbi/processor/ti.go:106-125 | To the PCF exactly when a GPSI or an IP address is given; to the UDR exactly when none is and a group ID or the any-UE flag is |
| TiRules.ValidateTrafficInfluenceData | internal/sbi/processor/ti.go:266-302 | Accepts exactly the requests with an AF transaction ID, a service ID or DNN, an application ID or a filter, and a UE or group target; each check's 400 problem and message, in order |
| TiRules.ValidatedIsRouted | internal/sbi/processor/ti.go:81-125 | A request that passes validation never reaches the "Not individual UE case, nor group case" branch |
| TiRules.DataRoundTrip | internal/sbi/processor/ti.go:337-367 | Converting influence data to a subscription and back gives the same data |
| TiRules.SubRoundTrip | internal/sbi/processor/ti.go:337-367 | Converting a subscription to influence data and back keeps exactly the seven shared fields and clears the rest |
| TiRules.AppSessionRoundTrip | internal/sbi/processor/ti.go:304-382 | The application session posted for a subscription reads back with its application ID, relocation flag and DNAI change type, and with no DNN, GPSI or filters |
| TiRules.TiSubURIEndsWithID | internal/sbi/processor/ti.go:329-335 | A subscription URI is the base, "/", the AF ID, "/subscriptions/" and the ID, so its last segment is the ID |
| TiRules.PcfListing | internal/sbi/processor/ti.go:45-56 | The PCF reads succeed exactly when every session is read with 200, giving one entry per ID in order; otherwise the first failing reply |
| TiRules.PcfListingStep | internal/sbi/processor/ti.go:46-55 | One iteration of the PCF loop either stops at a refusal or appends the next entry |
| TiRules.RefusalIsFinal | internal/sbi/processor/ti.go:48-50 | Once a PCF read fails, the rest of the list does not change the outcome |
| TiRules.CollectPcf | internal/sbi/processor/ti.go:45-56 | The PCF loop computes the PCF listing |
| TiRules.UdrListing | internal/sbi/processor/ti.go:63-68 | One entry per UDR record, each converting back to its record, with the "0" subscription URI as Self |
| TiRules.CollectUdr | internal/sbi/processor/ti.go:63-68 | The UDR loop computes the UDR listing |
| TiRules.ListAnswer | internal/sbi/processor/ti.go:45-71 | 200 exactly when every PCF read and the UDR read, if any, succeed, listing the PCF entries in order and then each UDR entry converted with Self …/subscriptions/0; otherwise the first failing PCF reply, and the UDR's reply only when every PCF read succeeded |
| TiRules.IndividualAnswer | internal/sbi/processor/ti.go:162-178 | The peer's reply when its read fails; otherwise 200 with the subscription URI as Self, and for a UDR subscription the entry converts back to the stored data |
| TiRules.ListedLikeIndividual | internal/sbi/processor/ti.go:45-56 | A PCF subscription appears in the list as in its individual read, except that the list's Self ends in the session ID |
| TiRules.PatchAnswer | internal/sbi/processor/ti.go:210-226 | The peer's reply when the patch fails; otherwise 200 with no Self, and for a UDR subscription the entry converts back to the patched data |

## Left out

- Concurrency is not modelled: the read/write mutexes of the contexts, the notifier and the newer AF records, and the goroutine that sends each notification list. Each method is one atomic step.
- HTTP is not modelled: routing, JSON decoding and encoding, and the Location header. Handlers take decoded request values and return a `HandlerResponse` value.
- Other side effects are left out, because they do not change what a handler answers:
  - logging;
  - the lazily created API clients (`initPfdManagementApiClient`);
  - the NRF registration retry loop and its sleep.
- PfdNotifier.PfdNotifyContext.FlushNotifications returns the batch of lists it would send instead of posting them. The notify URI each list goes to (`getSubURI`) is a plain lookup.
- Inputs from outside become parameters: the random UUID of a new influence identifier, the registration answer and discovery answers of the NRF, and the URL parser applied to an API prefix (Go's `url.Parse`).
- Go distinguishes a nil slice from an empty one; the model does not. Every list is a sequence, and an absent list is the empty sequence.
- PfdHandler.StoreStep, PfdHandler.Processor.StoreOne, PfdValidation.Dropped: these model the intended aggregation of PFD reports, which lists every refused or duplicated application. Go's `addPfdReport` keeps only the first application of each failure code (see Findings). So the MALFUNCTION and APP_ID_DUPLICATED lists in StoreOutcomeMalfunction, AllRefused and the validation outcome are the corrected ones.
- PfdHandler.Processor.StoreApps, PfdHandler.Processor.StoreAllAndFlush, PfdHandler.Processor.OpenAndStore, PfdHandler.Processor.CreateTrans, PfdHandler.Processor.PostChecked, PfdHandler.Processor.PostPFDManagementTransactions: the POST chain carries the corrected MALFUNCTION list of StoreStep upward, so its 500 answer lists every refused application where Go lists only the first per code.
- PfdHandler.Processor.ReplaceAndFlush, PfdHandler.Processor.ReplaceInto, PfdHandler.Processor.PutStored, PfdHandler.Processor.PutChecked, PfdHandler.Processor.PutIndividualPFDManagementTransaction, PfdHandler.Processor.RelistTrans: the PUT chain carries the same corrected MALFUNCTION list upward.
- PfdValidation.ValidatePfdManagement, PfdValidation.ScanRequest, PfdValidation.ScanOne, PfdValidation.DropIfDuplicate, PfdValidation.ScanDrop, PfdValidation.ScanOutcome: the validation members carry the corrected APP_ID_DUPLICATED list of Dropped, listing every dropped application.
- PfdHandler.StoreOutcomeMalfunction, PfdHandler.AllRefused: these lemmas state the corrected MALFUNCTION list.
- NrfService.ServiceCandidate: in Go, a nil `IpEndPoints` list panics (internal/consumer/nrf_service.go:252). The model's sequence cannot tell nil from empty, so it answers the empty URI there instead of failing.
- AfContexts.AfContext.NewSubsc, AfContexts.AfContext.NewPfdTrans, NefContexts.NefContext.NewAfSubsc, NefContexts.NefContext.AddPfdSub, PfdNotifier.PfdChangeNotifier.AddPfdSub, PfdSubIndex.AddSub: the Go counters are `uint64`. The model's counters are unbounded naturals, so it does not model the wrap-around after 2^64 - 1 identifiers. That wrap-around is what could reissue an identifier still in use.
- TiHandler.IsIndividualUEAddr: `internal/context/af_subscription.go` does not define the getter `GetIsIndividualUEAddr` that the older handlers call. The model reads it as "the record's storage location is the PCF", which is the negation of the `storeLoc` field. Nothing in the older code sets that field, so every older-generation subscription is read back from the PCF.
- Ti.PostTrafficInfluenceSubscription: the storage flag of a new subscription (`Allocation.isIndividualUEAddr`) comes from the newer context's `NewSub`, whose code is not part of this model. It is a free parameter that nothing ties to the request, so the model does not constrain which peer later reads, patches or deletes the subscription.
- The newer NEF context (the package behind `GetAf`, `NewAf`, `NewSub`, `NewCorreID`, `AddAf` and `FindAfSub`) is not part of this model. Its records are reduced to the fields `ti.go` reads and writes. Its allocations are the parameter `Ti.Allocation`, and the correlation identifier it draws is not modelled.
- The conversions of a `TrafficInfluSubPatch` return empty patch documents in both generations. The model passes no patch content to the peers, and the peer's reply decides the answer.
- InternalFactory.GetSbiRegisterAddr, InternalFactory.GetSbiUri: these require a configuration with an `sbi` section, because the Go code dereferences it without a nil check. So do the older handlers that build URIs from it.
- The SMF notification callback, the HTTP server, the application wiring beyond the processor's constructor, and the command-line entry points are outside the modelled core.
- Members whose contracts use `old`, `fresh` or `unchanged`, and the constructors, state how the state changes. The counted properties are in the heap-free specification functions and lemmas they are proved against.

## Findings

| source | as written | input that shows it | evidently intended | confidence | as-written member | corrected member |
|---|---|---|---|---|---|---|
| internal/processor/pfd_handler.go:513-519 | `addPfdReport` appends the application ID to a copy of the report taken from the map and never stores the copy back, so a code's list keeps only its first application. It is called by the store loops at :70 and :185 and by the duplicate check at :472. | A POST whose UDR refuses app1 and then app2: the answer is 500 with MALFUNCTION listing only app1. Two already-provisioned applications are affected the same way under APP_ID_DUPLICATED. | Every refused or duplicated application is listed under its code, in order: MALFUNCTION [app1, app2] | high; not executed | PfdRules.AsWrittenLosesSecondReport | PfdRules.CorrectedKeepsSecondReport |
| internal/processor/ti_handler.go:126-130 | After `GetSubsc`, the guard tests `afCtx == nil` again instead of `subsc == nil`. An unknown subscription of a known AF therefore reaches `subsc.GetIsIndividualUEAddr()` on a nil record. | GET of subscription "7" of a registered AF that has no subscription "7" | 404 "Target subscription is not existed" | high; not executed | TiHandler.GetIndividualAsWritten | TiHandler.GetIndividualTrafficInfluenceSubscription |
