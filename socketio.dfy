/** The socket.io upstream connector. Its handlers update the last-known
    round and the connectivity flag in place; `emitted` records, in order,
    every `new-round` event the connector has emitted. */
module SocketIoConnector {
  import opened JsValues
  import opened Rounds
  import opened RoundUpdates
  import opened Submission

  class SocketIo {
    const upstreamConfig: UpstreamConfig
    const userAgent: string
    const defaultMinerName: string
    var miningInfo: MiningInfo
    var connected: bool
    var emitted: seq<MiningInfo>

    /** The round-tracking state as a value. */
    function State(): (s: ConnectorState)
      reads this
    {
      ConnectorState(miningInfo, connected, emitted)
    }

    ghost predicate Valid()
      reads this
    {
      Consistent(State())
    }

    /** `version` and `host` are the software version and the machine's
        host name. The flag starts false. */
    constructor (upstreamConfig: UpstreamConfig, version: string, host: string)
      ensures this.upstreamConfig == upstreamConfig
      ensures userAgent == UserAgent(version) && defaultMinerName == DefaultMinerName(userAgent, host)
      ensures State() == Initial && miningInfo.height == 0
      ensures Valid()
    {
      this.upstreamConfig := upstreamConfig;
      userAgent := UserAgent(version);
      defaultMinerName := DefaultMinerName(UserAgent(version), host);
      miningInfo := Placeholder;
      connected := false;
      emitted := [];
    }

    /** Opening the session starts disconnected; the session itself and the
        first mining-info request are transport. */
    method Init()
      requires Valid()
      modifies this
      ensures Valid()
      ensures !connected
      ensures miningInfo == old(miningInfo) && emitted == old(emitted)
    {
      connected := false;
    }

    method OnConnect()
      requires Valid()
      modifies this
      ensures Valid() && State() == Step(upstreamConfig, old(State()), Connect)
      ensures connected && miningInfo == old(miningInfo) && emitted == old(emitted)
    {
      connected := true;
    }

    method OnDisconnect()
      requires Valid()
      modifies this
      ensures Valid() && State() == Step(upstreamConfig, old(State()), Disconnect)
      ensures !connected && miningInfo == old(miningInfo) && emitted == old(emitted)
    {
      connected := false;
    }

    /** A round notification. The connector is marked connected first. A
        notification without payload then fails (`failed`), leaving the
        stored round and the announcements alone. Otherwise the forced target
        deadline is applied, a notification for the stored round is dropped,
        and any other is stored and emitted as one `new-round` event.
        The reference statement of these cases is `RoundUpdates.Step`; the
        case-by-case ensures after it spell them out for readers of the
        class (as `DuplicateIsDropped` and `NewRoundIsAnnouncedOnce` do for
        `Step`). */
    method OnNewRound(payload: Option<MiningInfo>) returns (failed: bool)
      requires Valid()
      modifies this
      ensures Valid() && connected
      ensures failed <==> payload.None?
      ensures State() == Step(upstreamConfig, old(State()), if payload.None? then EmptyRound else NewRound(payload.value))
      ensures payload.None? ==> miningInfo == old(miningInfo) && emitted == old(emitted)
      ensures payload.Some? && SameRound(old(miningInfo), payload.value) ==>
                miningInfo == old(miningInfo) && emitted == old(emitted)
      ensures payload.Some? && !SameRound(old(miningInfo), payload.value) ==>
                miningInfo == WithForcedDeadline(upstreamConfig, payload.value) && emitted == old(emitted) + [miningInfo]
    {
      connected := true;
      if payload.None? {
        return true;
      }
      failed := false;
      var info := payload.value;
      if TruthyNumber(upstreamConfig.sendTargetDL) {
        info := info.(targetDeadline := upstreamConfig.sendTargetDL);
      }
      if SameRound(miningInfo, info) {
        return;
      }
      miningInfo := info;
      emitted := emitted + [info];
      StepKeepsConsistent(upstreamConfig, old(State()), NewRound(payload.value));
    }

    /** The round reported to the local miner is the last one announced, or
        the height-0 placeholder while none has been. */
    function GetMiningInfo(): (r: MiningInfo)
      reads this
      requires Valid()
      ensures emitted == [] ==> r == Placeholder && r.height == 0
      ensures emitted != [] ==> r == emitted[|emitted| - 1]
    {
      miningInfo
    }

    /** Sends one nonce with the metadata built for this upstream. `reply` is
        the upstream's acknowledgement, whatever it is; it is handed back
        with no error. */
    method SubmitNonce<R>(submission: Nonce, minerSoftware: string, options: RequestOptions, reply: R)
      returns (sent: (Nonce, SubmitOptions), response: SubmitResponse<R>)
      ensures sent.0 == submission
      ensures sent.1 == BuildSubmitOptions(upstreamConfig, userAgent, defaultMinerName, minerSoftware, options)
      ensures response.error == None && response.result == reply
    {
      sent := (submission, BuildSubmitOptions(upstreamConfig, userAgent, defaultMinerName, minerSoftware, options));
      response := SubmitResponse(None, reply);
    }
  }
}
