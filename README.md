# Socket.io upstream connector of the mining proxy

This project models `SocketIo`, the connector the mining proxy keeps for each
upstream pool that speaks socket.io. It has two parts.

- **Round tracking** (imperative). The connector stores the last-known round
  (`miningInfo`) and a `connected` flag. Before any data arrives the stored
  round is a height-0 placeholder. A round notification first gets the
  upstream's forced target deadline (`sendTargetDL`), if one is configured.
  If its height and base target equal the stored round's, it is dropped.
  Otherwise it replaces the stored round and one `new-round` event is emitted.
  Connect and disconnect set and clear the flag. Every notification sets it,
  duplicates included.
- **Submission metadata** (pure). `submitNonce` builds an options object for
  each upstream. Miner name, account name and colour are taken from the
  upstream's configuration first, then from the local miner's request, then
  from a default or null. Account key and maximum scan time come from the
  configuration only. The payout address falls back to the account key.

Modules:

- `JsValues`: optional values, and JavaScript truthiness and `||` over them.
  An empty string is falsy, and so is a zero number.
- `Rounds`: the `MiningInfo` record and the placeholder. Also the same-round
  test, the upstream configuration, and the forced-deadline override.
- `RoundUpdates`: the connector's round state as a value. `Step` is the
  effect of one socket event on it, and `Run` applies a sequence of events.
  The lemmas here hold over every sequence of events.
- `Submission`: the options object sent with each nonce.
- `SocketIoConnector`: the class `SocketIo`. Its handler methods are proved
  to follow `RoundUpdates.Step`. It also keeps the invariant `Consistent`:
  the stored round is the last one announced, and no two consecutive
  announcements are the same round.

Each `new-round` emission is recorded by appending to the field `emitted`.
The host name, the software version and the upstream's reply to a
submission are foreign values, so they are parameters. `submitNonce` has no
time-out: without an acknowledgement its promise never settles. When it
settles, it is `{error: null, result: reply}`. `sendTargetDL` is applied to
incoming rounds only, never to submissions.

A round notification without any payload still marks the connector
connected. It then fails when it reads the payload, and the stored round and
the announcements stay as they were. `OnNewRound` takes the payload as an
option and reports this failure.

## Model

| member | source | states |
|---|---|---|
| `SocketIoConnector.SocketIo.constructor` | lib/upstream/socketio.js:12-19 | the user agent is `Foxy-Miner <version>`, the default miner name is `<userAgent>/<host>`, and the stored round is the height-0 placeholder with nothing announced |
| `SocketIoConnector.SocketIo.Init` | lib/upstream/socketio.js:21-23 | after init the connector is not connected, and the stored round and the announcements are unchanged |
| `SocketIoConnector.SocketIo.OnConnect` | lib/upstream/socketio.js:25-28 | a connect event sets `connected` and changes nothing else |
| `SocketIoConnector.SocketIo.OnDisconnect` | lib/upstream/socketio.js:29-32 | a disconnect event clears `connected` and changes nothing else |
| `SocketIoConnector.SocketIo.OnNewRound` | lib/upstream/socketio.js:39-49 | sets `connected`; a notification without payload fails and changes nothing else; a notification for the stored round leaves the round and the announcements as they were; any other stores the round with the forced deadline applied and appends exactly that round to the announcements; the invariant is kept |
| `SocketIoConnector.SocketIo.GetMiningInfo` | lib/upstream/socketio.js:78-80 | reports the last announced round, or the height-0 placeholder while none has been announced |
| `SocketIoConnector.SocketIo.SubmitNonce` | lib/upstream/socketio.js:60-76 | sends the nonce with the options built for this upstream, and resolves to no error and the upstream's reply |
| `Rounds.WithForcedDeadline` | lib/upstream/socketio.js:41-44 | a truthy `sendTargetDL` replaces the incoming target deadline; without one the round is kept as it is; height, base target and signature never change |
| `Rounds.RealRoundIsNotPlaceholder` | lib/upstream/socketio.js:18 | a round that carries a base target is never treated as the same round as the placeholder |
| `RoundUpdates.InitialIsConsistent` | lib/upstream/socketio.js:18-22 | the initial state reports height 0, is not connected, and satisfies the invariant |
| `RoundUpdates.DuplicateIsDropped` | lib/upstream/socketio.js:45-47 | a notification with the stored height and base target leaves the stored round (deadline and signature included) and the announcements unchanged, and sets `connected` |
| `RoundUpdates.NewRoundIsAnnouncedOnce` | lib/upstream/socketio.js:41-49 | any other notification becomes the stored round and is appended once; its deadline is the forced one when configured and the incoming one otherwise |
| `RoundUpdates.OnNewRoundIdempotent` | lib/upstream/socketio.js:45-49 | delivering a notification twice in a row gives the same state as delivering it once |
| `RoundUpdates.ConnectivityEventsKeepRound` | lib/upstream/socketio.js:25-42 | connect, disconnect and a notification without payload change only the flag: false on disconnect, true otherwise |
| `RoundUpdates.StepKeepsConsistent` | lib/upstream/socketio.js:39-49 | one event keeps the invariant: the stored round is the last announcement (or the placeholder while there is none), the placeholder is never announced, and consecutive announcements are different rounds |
| `RoundUpdates.RunKeepsConsistent` | lib/upstream/socketio.js:34-49 | the invariant holds after any sequence of events |
| `RoundUpdates.RunAppendsOnly` | lib/upstream/socketio.js:48-49 | earlier announcements are never rewritten, and there is at most one new announcement per round notification |
| `RoundUpdates.RunForcesDeadline` | lib/upstream/socketio.js:41-49 | with a forced target deadline configured, every round announced during any sequence of events carries it |
| `RoundUpdates.RunConnected` | lib/upstream/socketio.js:25-40 | after any sequence of events the flag is false exactly when the last event was a disconnect |
| `RoundUpdates.KnownRoundsAnnounceNothing` | lib/upstream/socketio.js:35-47 | reconnects and re-deliveries of the stored round announce nothing and leave the stored round alone |
| `RoundUpdates.RepeatedDeliveryEmitsOnce` | lib/upstream/socketio.js:39-49 | any run of one notification repeated gives the state of a single delivery, with at most one announcement |
| `JsValues.Coalesce` | lib/upstream/socketio.js:62-69 | a chain of or-operators yields the first truthy candidate; when none is truthy it yields the final fallback unchanged |
| `JsValues.CoalescePair` | lib/upstream/socketio.js:62 | a chain of two candidates and a fallback yields the first candidate if truthy, else the second if truthy, else the fallback |
| `JsValues.CoalesceToNullIsTruthyOrNone` | lib/upstream/socketio.js:68-69 | a chain of or-operators ending in null yields null or a non-empty string |
| `Submission.BuildSubmitOptions` | lib/upstream/socketio.js:61-70 | each field follows the precedence above: miner name from configuration, then request, then default; account name and colour from configuration, then request, then null; account key and scan time from configuration; payout address falls back to the account key; capacity is passed through; user agent is the connector's user agent, a bar, and the miner software label |
| `Submission.MinerNameNeverEmpty` | lib/upstream/socketio.js:62 | with the connector's own default, the submitted miner name is never empty |
| `Submission.LabelsNeverEmpty` | lib/upstream/socketio.js:68-69 | the submitted account name and colour are each null or non-empty |
| `Submission.ConfigurationWins` | lib/upstream/socketio.js:62-69 | the request options cannot change the account key, payout address or scan time, not even through their own `accountKey` and `maxScanTime`, nor any field the upstream configures; the user agent depends only on the connector and the `minerSoftware` argument, never on the request's own `userAgent` |

## Left out

- The socket.io transport is left out: opening the session, reconnecting, and the `getMiningInfo` requests sent on init and on every connect. The reply to such a request is modelled as one more `OnNewRound` delivery.
- `SocketIoConnector.SocketIo.SubmitNonce` does not model the awaited acknowledgement. The reply is a parameter, so a reply that never comes is not represented. Nor is the failure of a submission made before `init`, when there is no socket to send on.
- `SocketIoConnector.SocketIo.SubmitNonce` takes a `Nonce` record that stands for the object the submission's `toObject` produces.
- Log lines are left out: connect/disconnect messages and the new-block line. The new-block line formats the floating-point network difficulty.
- `MiningInfo` internals are left out: the derived network difficulty and `toObject`. The stored record stands for the object `getMiningInfo` returns. For the placeholder that record is height 0 with every other field absent.
- The upstream's display name is left out because it is used only in logs.
- `SocketIoConnector.SocketIo.OnNewRound` does not model writing the forced deadline into the caller's own notification object. The override is applied to a copy.
- `SocketIoConnector.SocketIo.OnNewRound` does not tell `null` from `undefined`: both are None. The source's same-round test uses `===`, so there a notification with height 0 and a `null` base target differs from the placeholder, whose base target is `undefined`. In the model it is a duplicate of the placeholder. A notification whose payload is `null` and one with no payload are both the failing case.
- `SocketIoConnector.SocketIo.OnNewRound` reports a missing payload as `failed` instead of raising. The resulting rejected promise is handled outside this model.
- `connected` is undefined in the source before `init`. It is modelled as false. No event can arrive before `init`, and the flag's readers are outside this model.
- The outage-detection mixin and the event bus are not part of this model.
- The proxy that aggregates connectors (round selection, fan-out of submissions, the all-rounds-finished signal) is not part of this model.
- `main.js` is not part of this model. It is HTTP routing, process setup and miner start-up glue.
