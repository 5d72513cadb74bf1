/** A mining round as an upstream announces it, and the per-upstream
    configuration that shapes how the connector treats it. */
module Rounds {
  import opened JsValues

  /** One round: block height, pool base target, generation signature and an
      optional target deadline. A field the upstream (or the placeholder)
      leaves out is None. The derived network difficulty is not modelled. */
  datatype MiningInfo = MiningInfo(
    height: nat,
    baseTarget: Option<nat>,
    generationSignature: Option<string>,
    targetDeadline: Option<nat>)

  /** The round a connector holds before any notification: height 0 and
      nothing else. */
  const Placeholder: MiningInfo := MiningInfo(0, None, None, None)

  /** Two notifications describe the same round when height and base target
      agree; signature and target deadline are not compared. */
  predicate SameRound(a: MiningInfo, b: MiningInfo)
  {
    a.height == b.height && a.baseTarget == b.baseTarget
  }

  /** A round that carries a base target is never taken for the placeholder. */
  lemma RealRoundIsNotPlaceholder(m: MiningInfo)
    requires m.baseTarget.Some?
    ensures !SameRound(Placeholder, m)
  {
  }

  /** The static configuration of one upstream. */
  datatype UpstreamConfig = UpstreamConfig(
    url: string,
    minerName: Option<string>,
    accountKey: Option<string>,
    payoutAddress: Option<string>,
    maxScanTime: Option<nat>,
    accountName: Option<string>,
    minerColor: Option<string>,
    sendTargetDL: Option<nat>)

  /** The incoming round with the configured forced target deadline applied:
      when `sendTargetDL` is truthy it replaces whatever deadline arrived. */
  function WithForcedDeadline(cfg: UpstreamConfig, para: MiningInfo): (r: MiningInfo)
    ensures TruthyNumber(cfg.sendTargetDL) ==> r.targetDeadline == cfg.sendTargetDL
    ensures !TruthyNumber(cfg.sendTargetDL) ==> r == para
    ensures SameRound(r, para) && r.generationSignature == para.generationSignature
  {
    if TruthyNumber(cfg.sendTargetDL) then para.(targetDeadline := cfg.sendTargetDL) else para
  }
}
