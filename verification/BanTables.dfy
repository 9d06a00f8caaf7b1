/** Running bans, and the promise of the engine not to shorten them. */
module BanTables {
  import opened Engine
  import opened Http
  import opened Pipeline
  import opened Wrappers

  /** The table bans the address at least until the given time. */
  predicate BannedUntil(table: BanTable, ip: Ip, until: nat)
  {
    ip in table && table[ip] >= until
  }

  predicate Live(w: World, manager: IpBanManager, ip: Ip, until: nat)
  {
    BannedUntil(BansOf(w, manager), ip, until)
  }

  /** Every ban that is running now is still in the second table. */
  ghost predicate KeepsTable(now: nat, t: BanTable, u: BanTable)
  {
    forall ip: Ip, until: nat :: BannedUntil(t, ip, until) && now < until ==> BannedUntil(u, ip, until)
  }

  /** Every manager keeps its running bans. */
  ghost predicate KeepsAll(now: nat, v: map<IpBanManager, BanTable>, w: map<IpBanManager, BanTable>)
  {
    forall m | m in v :: m in w && KeepsTable(now, v[m], w[m])
  }

  /** No engine operation shortens a ban that is still running. */
  ghost predicate KeepsRunningBans(e: Engine)
  {
    && (forall k: StageKnobs, t: BanTable, now: nat, who: Option<Ip> ::
          KeepsTable(now, t, e.decideBans(k, t, now, who).0))
    && (forall k: StageKnobs, s: TierStores, now: nat, q: TierInput ::
          KeepsTable(now, s.bans, e.decideTiers(k, s, now, q).0.bans))
    && (forall k: ProcessorKnobs, s: BehaviorState, now: nat, id: string, who: string, rules: seq<Handle> ::
          KeepsTable(now, s.bans, e.usageRules(k, s, now, id, who, rules).0.bans))
    && (forall k: ProcessorKnobs, s: BehaviorState, now: nat, r: RequestBits, status: U16 ::
          KeepsTable(now, s.bans, e.process(k, s, now, r, status).0.bans))
  }

  /** The ban stage answers a running ban, unless banning is off or the mode is passive. */
  ghost predicate AnswersRunningBans(e: Engine)
  {
    forall k: StageKnobs, t: BanTable, now: nat, ip: Ip ::
      k.ipBan.enabled && !k.passiveMode && BannedUntil(t, ip, now + 1) ==> e.decideBans(k, t, now, Some(ip)).1.Some?
  }

  /** Between the two worlds only the processor's own table changed, if there is one. */
  ghost predicate OnlyProcessorBans(processor: Option<ResponseProcessor>, v: map<IpBanManager, BanTable>,
                                    w: map<IpBanManager, BanTable>)
  {
    forall m | m in v :: (processor.Some? && m == processor.value.manager) || (m in w && w[m] == v[m])
  }

  lemma OnlyProcessorBansSame(processor: Option<ResponseProcessor>, v: map<IpBanManager, BanTable>)
    ensures OnlyProcessorBans(processor, v, v)
  {
  }

  lemma OnlyProcessorBansChains(processor: Option<ResponseProcessor>, u: map<IpBanManager, BanTable>,
                                v: map<IpBanManager, BanTable>, w: map<IpBanManager, BanTable>)
    requires OnlyProcessorBans(processor, u, v) && OnlyProcessorBans(processor, v, w)
    ensures OnlyProcessorBans(processor, u, w)
  {
  }

  lemma KeepsAllSame(now: nat, v: map<IpBanManager, BanTable>)
    ensures KeepsAll(now, v, v)
  {
  }

  lemma KeepsAllChains(now: nat, u: map<IpBanManager, BanTable>, v: map<IpBanManager, BanTable>,
                       w: map<IpBanManager, BanTable>)
    requires KeepsAll(now, u, v) && KeepsAll(now, v, w)
    ensures KeepsAll(now, u, w)
  {
    forall m | m in u ensures m in w && KeepsTable(now, u[m], w[m]) {
      assert KeepsTable(now, u[m], v[m]) && KeepsTable(now, v[m], w[m]);
    }
  }

  /** Replacing one manager's table by one that keeps its bans. */
  lemma KeepsAllReplace(now: nat, w: World, m: IpBanManager, t: BanTable)
    requires KeepsTable(now, BansOf(w, m), t)
    ensures KeepsAll(now, w.bans, WithBans(w, m, t).bans)
  {
  }
}
