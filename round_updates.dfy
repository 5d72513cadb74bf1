/** The connector's round-tracking state as a value, and the effect of each
    event delivered by the socket on it. The class in SocketIoConnector is
    proved to follow `Step`; the lemmas here say what `Step` guarantees over
    any sequence of events. */
module RoundUpdates {
  import opened JsValues
  import opened Rounds

  /** Last-known round, connectivity flag, and every `new-round` event
      emitted so far, oldest first. */
  datatype ConnectorState = ConnectorState(round: MiningInfo, connected: bool, emitted: seq<MiningInfo>)

  /** What the socket delivers: a session opened, a session closed, a
      round notification (pushed, or the reply to a mining-info request), or
      a round notification that carries no payload at all. */
  datatype Event = Connect | Disconnect | NewRound(para: MiningInfo) | EmptyRound

  /** State of a freshly constructed connector. */
  const Initial: ConnectorState := ConnectorState(Placeholder, false, [])

  function OnNewRound(cfg: UpstreamConfig, s: ConnectorState, para: MiningInfo): ConnectorState
  {
    var info := WithForcedDeadline(cfg, para);
    if SameRound(s.round, info) then s.(connected := true)
    else ConnectorState(info, true, s.emitted + [info])
  }

  function Step(cfg: UpstreamConfig, s: ConnectorState, e: Event): ConnectorState
  {
    match e
    case Connect => s.(connected := true)
    case Disconnect => s.(connected := false)
    case NewRound(para) => OnNewRound(cfg, s, para)
    // the handler marks the connector connected, then fails reading the payload
    case EmptyRound => s.(connected := true)
  }

  /** Events handled in receipt order. */
  function Run(cfg: UpstreamConfig, s: ConnectorState, events: seq<Event>): ConnectorState
    decreases |events|
  {
    if events == [] then s else Run(cfg, Step(cfg, s, events[0]), events[1..])
  }

  /** Number of round notifications among the events. */
  function RoundCount(events: seq<Event>): nat
  {
    if events == [] then 0 else (if events[0].NewRound? then 1 else 0) + RoundCount(events[1..])
  }

  /** The stored round is the last one announced (the placeholder while
      nothing was), the placeholder itself is never announced, and no two
      consecutive announcements are the same round. */
  ghost predicate Consistent(s: ConnectorState)
  {
    (s.emitted == [] ==> s.round == Placeholder) &&
    (s.emitted != [] ==> s.round == s.emitted[|s.emitted| - 1] && !SameRound(Placeholder, s.emitted[0])) &&
    forall i | 0 < i < |s.emitted| :: !SameRound(s.emitted[i - 1], s.emitted[i])
  }

  lemma InitialIsConsistent()
    ensures Consistent(Initial) && Initial.round.height == 0 && !Initial.connected
  {
  }

  /** A notification for the stored round is dropped: nothing is emitted and
      the stored round (deadline and signature included) stays as it was. */
  lemma DuplicateIsDropped(cfg: UpstreamConfig, s: ConnectorState, para: MiningInfo)
    requires SameRound(s.round, para)
    ensures var t := OnNewRound(cfg, s, para);
      t.round == s.round && t.emitted == s.emitted && t.connected
  {
  }

  /** Any other notification replaces the stored round and emits exactly one
      `new-round` event carrying it, with the forced deadline applied. */
  lemma NewRoundIsAnnouncedOnce(cfg: UpstreamConfig, s: ConnectorState, para: MiningInfo)
    requires !SameRound(s.round, para)
    ensures var t := OnNewRound(cfg, s, para);
      t.round == WithForcedDeadline(cfg, para) && t.emitted == s.emitted + [t.round] && t.connected
    ensures var t := OnNewRound(cfg, s, para);
      TruthyNumber(cfg.sendTargetDL) ==> t.round.targetDeadline == cfg.sendTargetDL
    ensures var t := OnNewRound(cfg, s, para);
      !TruthyNumber(cfg.sendTargetDL) ==> t.round.targetDeadline == para.targetDeadline
  {
  }

  /** Delivering the same notification twice in a row emits only once. */
  lemma OnNewRoundIdempotent(cfg: UpstreamConfig, s: ConnectorState, para: MiningInfo)
    ensures OnNewRound(cfg, OnNewRound(cfg, s, para), para) == OnNewRound(cfg, s, para)
  {
  }

  /** Connect, disconnect and a notification without payload touch only the
      connectivity flag: only a disconnect clears it. */
  lemma ConnectivityEventsKeepRound(cfg: UpstreamConfig, s: ConnectorState, e: Event)
    requires !e.NewRound?
    ensures Step(cfg, s, e).round == s.round && Step(cfg, s, e).emitted == s.emitted
    ensures Step(cfg, s, e).connected == !e.Disconnect?
  {
  }

  lemma StepKeepsConsistent(cfg: UpstreamConfig, s: ConnectorState, e: Event)
    requires Consistent(s)
    ensures Consistent(Step(cfg, s, e))
  {
    if e.NewRound? {
      var info := WithForcedDeadline(cfg, e.para);
      if !SameRound(s.round, info) {
        var t := Step(cfg, s, e);
        assert t.emitted == s.emitted + [info];
        forall i | 0 < i < |t.emitted|
          ensures !SameRound(t.emitted[i - 1], t.emitted[i])
        {
          if i == |s.emitted| {
            assert t.emitted[i - 1] == s.round;
          } else {
            assert t.emitted[i - 1] == s.emitted[i - 1] && t.emitted[i] == s.emitted[i];
          }
        }
      }
    }
  }

  /** Every reachable state is consistent. */
  lemma {:induction false} RunKeepsConsistent(cfg: UpstreamConfig, s: ConnectorState, events: seq<Event>)
    requires Consistent(s)
    ensures Consistent(Run(cfg, s, events))
    decreases |events|
  {
    if events != [] {
      StepKeepsConsistent(cfg, s, events[0]);
      RunKeepsConsistent(cfg, Step(cfg, s, events[0]), events[1..]);
    }
  }

  /** Announcements are only ever appended, at most one per notification. */
  lemma {:induction false} RunAppendsOnly(cfg: UpstreamConfig, s: ConnectorState, events: seq<Event>)
    ensures s.emitted <= Run(cfg, s, events).emitted
    ensures |Run(cfg, s, events).emitted| <= |s.emitted| + RoundCount(events)
    decreases |events|
  {
    if events != [] {
      RunAppendsOnly(cfg, Step(cfg, s, events[0]), events[1..]);
    }
  }

  /** With a forced target deadline configured, every round announced
      carries it, whatever deadline the upstream sent. */
  lemma {:induction false} RunForcesDeadline(cfg: UpstreamConfig, s: ConnectorState, events: seq<Event>)
    requires TruthyNumber(cfg.sendTargetDL)
    ensures var t := Run(cfg, s, events);
      |s.emitted| <= |t.emitted| &&
      forall i | |s.emitted| <= i < |t.emitted| :: t.emitted[i].targetDeadline == cfg.sendTargetDL
    decreases |events|
  {
    if events != [] {
      var s' := Step(cfg, s, events[0]);
      RunForcesDeadline(cfg, s', events[1..]);
      var t := Run(cfg, s, events);
      assert t == Run(cfg, s', events[1..]);
      forall i | |s.emitted| <= i < |s'.emitted|
        ensures t.emitted[i].targetDeadline == cfg.sendTargetDL
      {
        RunAppendsOnly(cfg, s', events[1..]);
        assert t.emitted[i] == s'.emitted[i];
      }
    }
  }

  /** The flag reports the last connectivity-relevant event: any round
      notification or connect sets it, a disconnect clears it. */
  lemma {:induction false} RunConnected(cfg: UpstreamConfig, s: ConnectorState, events: seq<Event>)
    ensures Run(cfg, s, events).connected ==
            if events == [] then s.connected else !events[|events| - 1].Disconnect?
    decreases |events|
  {
    if events != [] {
      RunConnected(cfg, Step(cfg, s, events[0]), events[1..]);
      if |events| > 1 {
        assert events[1..][|events[1..]| - 1] == events[|events| - 1];
      }
    }
  }

  /** Reconnecting and re-receiving rounds the connector already holds
      announces nothing and leaves the stored round alone. */
  lemma {:induction false} KnownRoundsAnnounceNothing(cfg: UpstreamConfig, s: ConnectorState, events: seq<Event>)
    requires forall i | 0 <= i < |events| :: events[i].NewRound? ==> SameRound(s.round, events[i].para)
    ensures Run(cfg, s, events).round == s.round && Run(cfg, s, events).emitted == s.emitted
    decreases |events|
  {
    if events != [] {
      var s' := Step(cfg, s, events[0]);
      assert s'.round == s.round && s'.emitted == s.emitted;
      forall i | 0 <= i < |events[1..]| && events[1..][i].NewRound?
        ensures SameRound(s'.round, events[1..][i].para)
      {
        assert events[1..][i] == events[i + 1];
      }
      KnownRoundsAnnounceNothing(cfg, s', events[1..]);
    }
  }

  /** However many times one notification is delivered in a row, the
      outcome is that of delivering it once. */
  lemma {:induction false} RepeatedDeliveryEmitsOnce(cfg: UpstreamConfig, s: ConnectorState, para: MiningInfo, events: seq<Event>)
    requires |events| >= 1
    requires forall i | 0 <= i < |events| :: events[i] == NewRound(para)
    ensures Run(cfg, s, events) == OnNewRound(cfg, s, para)
    ensures |Run(cfg, s, events).emitted| <= |s.emitted| + 1
  {
    var s' := OnNewRound(cfg, s, para);
    assert Step(cfg, s, events[0]) == s';
    assert SameRound(s'.round, WithForcedDeadline(cfg, para));
    forall i | 0 <= i < |events[1..]| && events[1..][i].NewRound?
      ensures SameRound(s'.round, events[1..][i].para)
    {
      assert events[1..][i] == events[i + 1];
    }
    KnownRoundsAnnounceNothing(cfg, s', events[1..]);
    RunConnected(cfg, s', events[1..]);
  }
}
