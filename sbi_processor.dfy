/**
 * The processor of the newer generation (internal/sbi/processor) and the
 * part of its NEF context the traffic influence handlers use. That context
 * package is not part of this model: its AF and subscription records are
 * reduced to the fields ti.go reads and writes, GetAf and AddAf to the
 * lookup and the insertion under the AF's identifier, and the allocations
 * NewAf and NewSub, whose code is not available, to parameters of the
 * handler (see Ti.Allocation).
 */
module SbiProcessor {
  import opened Common
  import opened Models
  import PkgFactory
  import opened PfdNotifier

  /** A traffic influence subscription: where it is kept is fixed when it is created. */
  class TiSubscription {
    const subID: string
    /** true: kept at the PCF as an application session; false: kept at the UDR. */
    const isIndividualUEAddr: bool
    var appSessID: string
    var influID: string

    constructor (subID: string, isIndividualUEAddr: bool)
      ensures this.subID == subID && this.isIndividualUEAddr == isIndividualUEAddr
      ensures appSessID == "" && influID == ""
    {
      this.subID := subID;
      this.isIndividualUEAddr := isIndividualUEAddr;
      appSessID := "";
      influID := "";
    }
  }

  /** The traffic influence state of one AF: its subscriptions by identifier. */
  class TiAf {
    const afID: string
    var subs: map<string, TiSubscription>

    constructor (afID: string)
      ensures this.afID == afID && subs == map[]
    {
      this.afID := afID;
      subs := map[];
    }
  }

  class TiContext {
    var afs: map<string, TiAf>

    /** Every AF is stored under its own identifier and every subscription under its own. */
    ghost predicate Valid()
      reads this, afs.Values
    {
      forall id :: id in afs ==>
        afs[id].afID == id && forall s :: s in afs[id].subs ==> afs[id].subs[s].subID == s
    }

    constructor ()
      ensures afs == map[] && Valid()
    {
      afs := map[];
    }

    function GetAf(afID: string): (af: TiAf?)
      reads this
      ensures af == null <==> afID !in afs
      ensures af != null ==> af == afs[afID]
    {
      if afID in afs then afs[afID] else null
    }

    /** The objects a handler working on AF afID may change. */
    function AfObj(afID: string): set<object>
      reads this
    {
      if afID in afs then {afs[afID]} else {}
    }
  }

  class Processor {
    const cfg: PkgFactory.Config
    const ctx: TiContext
    const notifier: PfdChangeNotifier
    const udr: UdrPfds
    const udrTi: UdrInfluence
    const pcf: PcfAppSessions

    /** The processor and its consumers; each peer is the reply function given. */
    constructor (cfg: PkgFactory.Config, ctx: TiContext, notifier: PfdChangeNotifier,
                 udr: UdrPfds, udrTi: UdrInfluence, pcf: PcfAppSessions)
      ensures this.cfg == cfg && this.ctx == ctx && this.notifier == notifier
      ensures this.udr == udr && this.udrTi == udrTi && this.pcf == pcf
    {
      this.cfg := cfg;
      this.ctx := ctx;
      this.notifier := notifier;
      this.udr := udr;
      this.udrTi := udrTi;
      this.pcf := pcf;
    }

    /** A successful read or update by a peer carries the data the handler converts. */
    ghost predicate Wired()
    {
      PcfWellTyped(pcf) && UdrInfluenceWellTyped(udrTi)
    }
  }
}
