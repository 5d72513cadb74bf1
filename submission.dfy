/** The metadata object sent with every nonce submission to one upstream.
    Each field is picked by a fixed precedence: the upstream's own
    configuration first, then what the local miner sent with the request,
    then a default derived from the process identity. */
module Submission {
  import opened JsValues
  import opened Rounds

  /** One nonce as the local miner submitted it, standing for the object its
      `toObject` produces. */
  datatype Nonce = Nonce(
    accountId: string,
    blockheight: string,
    nonce: string,
    deadline: string,
    secretPhrase: Option<string>)

  /** Per-request options the local miner sent. The connector reads only
      the miner name, capacity, account name and colour; the rest is carried
      so that the contracts below can say it has no effect. */
  datatype RequestOptions = RequestOptions(
    ip: Option<string>,
    maxScanTime: Option<nat>,
    minerName: Option<string>,
    userAgent: Option<string>,
    miner: Option<string>,
    capacity: Option<string>,
    accountKey: Option<string>,
    accountName: Option<string>,
    color: Option<string>)

  /** The options object that goes out with `submitNonce`. */
  datatype SubmitOptions = SubmitOptions(
    minerName: string,
    userAgent: string,
    capacity: Option<string>,
    accountKey: Option<string>,
    payoutAddress: Option<string>,
    maxScanTime: Option<nat>,
    accountName: Option<string>,
    color: Option<string>)

  /** What `submitNonce` resolves to: no error, and the upstream's reply. */
  datatype SubmitResponse<R> = SubmitResponse(error: Option<string>, result: R)

  /** The connector's identity label for a given software version. */
  function UserAgent(version: string): string
  {
    "Foxy-Miner " + version
  }

  /** The miner name used when neither the upstream nor the request names one. */
  function DefaultMinerName(userAgent: string, host: string): string
  {
    userAgent + "/" + host
  }

  function BuildSubmitOptions(
    cfg: UpstreamConfig, userAgent: string, defaultMinerName: string,
    minerSoftware: string, options: RequestOptions): (r: SubmitOptions)
    // miner name: configured name, else requested name, else the default
    ensures Truthy(cfg.minerName) ==> r.minerName == cfg.minerName.value
    ensures !Truthy(cfg.minerName) && Truthy(options.minerName) ==> r.minerName == options.minerName.value
    ensures !Truthy(cfg.minerName) && !Truthy(options.minerName) ==> r.minerName == defaultMinerName
    // the user agent names both this connector and the local miner software
    ensures r.userAgent == userAgent + " | " + minerSoftware
    ensures r.capacity == options.capacity
    // credentials and scan time come from the configuration only, never from
    // the request's own `accountKey` or `maxScanTime`
    ensures r.accountKey == cfg.accountKey && r.maxScanTime == cfg.maxScanTime
    ensures Truthy(cfg.payoutAddress) ==> r.payoutAddress == cfg.payoutAddress
    ensures !Truthy(cfg.payoutAddress) ==> r.payoutAddress == cfg.accountKey
    // account name and colour: configuration, else request, else null
    ensures Truthy(cfg.accountName) ==> r.accountName == cfg.accountName
    ensures !Truthy(cfg.accountName) ==> r.accountName == (if Truthy(options.accountName) then options.accountName else None)
    ensures Truthy(cfg.minerColor) ==> r.color == cfg.minerColor
    ensures !Truthy(cfg.minerColor) ==> r.color == (if Truthy(options.color) then options.color else None)
  {
    CoalescePair(cfg.minerName, options.minerName, Some(defaultMinerName));
    CoalescePair(cfg.accountName, options.accountName, None);
    CoalescePair(cfg.minerColor, options.color, None);
    SubmitOptions(
      minerName := Coalesce([cfg.minerName, options.minerName], Some(defaultMinerName)).value,
      userAgent := userAgent + " | " + minerSoftware,
      capacity := options.capacity,
      accountKey := cfg.accountKey,
      payoutAddress := Or(cfg.payoutAddress, cfg.accountKey),
      maxScanTime := cfg.maxScanTime,
      accountName := Coalesce([cfg.accountName, options.accountName], None),
      color := Coalesce([cfg.minerColor, options.color], None))
  }

  /** The miner name sent is never empty: the default always names the
      connector software. */
  lemma MinerNameNeverEmpty(cfg: UpstreamConfig, version: string, host: string,
                            minerSoftware: string, options: RequestOptions)
    ensures var ua := UserAgent(version);
      BuildSubmitOptions(cfg, ua, DefaultMinerName(ua, host), minerSoftware, options).minerName != ""
  {
    var ua := UserAgent(version);
    var r := BuildSubmitOptions(cfg, ua, DefaultMinerName(ua, host), minerSoftware, options);
    if !Truthy(cfg.minerName) && !Truthy(options.minerName) {
      assert r.minerName[0] == 'F';
    }
  }

  /** Account name and colour are either absent or non-empty: an empty
      string from either source is dropped in favour of the next one. */
  lemma LabelsNeverEmpty(cfg: UpstreamConfig, userAgent: string, defaultMinerName: string,
                         minerSoftware: string, options: RequestOptions)
    ensures var r := BuildSubmitOptions(cfg, userAgent, defaultMinerName, minerSoftware, options);
      (r.accountName == None || Truthy(r.accountName)) && (r.color == None || Truthy(r.color))
  {
    CoalesceToNullIsTruthyOrNone([cfg.accountName, options.accountName]);
    CoalesceToNullIsTruthyOrNone([cfg.minerColor, options.color]);
  }

  /** The request options cannot change credentials, scan time or user
      agent (even those it carries itself), and cannot override a field the
      upstream configures. The user agent depends only on the connector and
      the `minerSoftware` argument. */
  lemma ConfigurationWins(cfg: UpstreamConfig, userAgent: string, defaultMinerName: string,
                          minerSoftware: string, o1: RequestOptions, o2: RequestOptions)
    ensures var r1 := BuildSubmitOptions(cfg, userAgent, defaultMinerName, minerSoftware, o1);
      var r2 := BuildSubmitOptions(cfg, userAgent, defaultMinerName, minerSoftware, o2);
      r1.accountKey == r2.accountKey && r1.payoutAddress == r2.payoutAddress &&
      r1.maxScanTime == r2.maxScanTime && r1.userAgent == r2.userAgent &&
      (Truthy(cfg.minerName) ==> r1.minerName == r2.minerName) &&
      (Truthy(cfg.accountName) ==> r1.accountName == r2.accountName) &&
      (Truthy(cfg.minerColor) ==> r1.color == r2.color)
  {
  }
}
