/**
 * The add-on client as the entities see it: every call is one outbound command,
 * recorded in order, and whether a call raises (for instance because the
 * websocket is closed) is given by a fixed predicate over the command.
 */
module Client {
  import opened Wrappers

  /** The commands the entities send, one per client method. */
  datatype Command =
    | Play(roomUdn: string, streamUrl: Option<string>)
    | Pause(roomUdn: string)
    | Stop(roomUdn: string)
    | Next(roomUdn: string)
    | Prev(roomUdn: string)
    | SetMute(roomUdn: string, mute: bool)
    | EnterStandby(roomUdn: string)
    | JoinGroup(roomUdn: string, zoneUdn: string)
    | LeaveGroup(roomUdn: string)
    | LoadUri(roomUdn: string, uri: string)
    | LoadContainer(roomUdn: string, containerId: string)
    | LoadSingle(roomUdn: string, itemId: string)
    | PlaySystemSound(roomUdn: string, soundId: string)
    | Browse(objectId: string)
    | Reboot(roomUdn: string)
    | RemoveIntegration

  class ApiClient {
    /** Every call made on the client, in order. */
    var log: seq<Command>
    /** Which calls raise. */
    const fails: Command -> bool

    constructor (fails: Command -> bool)
      ensures log == [] && this.fails == fails
    {
      log := [];
      this.fails := fails;
    }

    /** One awaited client call: recorded, and raising exactly when `fails` says so. */
    method Send(c: Command) returns (raised: bool)
      modifies this
      ensures log == old(log) + [c]
      ensures raised == fails(c)
    {
      log := log + [c];
      raised := fails(c);
    }
  }

  /**
   * The calls a loop of awaited calls actually makes when the first exception
   * ends it: every call up to and including the first that raises.
   */
  function Attempted(calls: seq<Command>, fails: Command -> bool): seq<Command> {
    if calls == [] then []
    else if fails(calls[0]) then [calls[0]]
    else [calls[0]] + Attempted(calls[1..], fails)
  }

  predicate AnyFails(calls: seq<Command>, fails: Command -> bool) {
    exists k :: 0 <= k < |calls| && fails(calls[k])
  }

  /**
   * Such a loop makes every call when none raises; otherwise it stops right
   * after the first call that raises and makes no call after it.
   */
  lemma {:induction false} AttemptedStopsAtFirstFailure(calls: seq<Command>, fails: Command -> bool)
    ensures !AnyFails(calls, fails) ==> Attempted(calls, fails) == calls
    ensures AnyFails(calls, fails) ==>
      var n := |Attempted(calls, fails)|;
      && 0 < n <= |calls|
      && Attempted(calls, fails) == calls[..n]
      && fails(calls[n - 1])
      && forall k :: 0 <= k < n - 1 ==> !fails(calls[k])
  {
    if calls != [] && !fails(calls[0]) {
      AttemptedStopsAtFirstFailure(calls[1..], fails);
      if AnyFails(calls, fails) {
        var k :| 0 <= k < |calls| && fails(calls[k]);
        assert fails(calls[1..][k - 1]);
      } else {
        assert !AnyFails(calls[1..], fails) by {
          forall k | 0 <= k < |calls| - 1 ensures !fails(calls[1..][k]) {
            assert calls[1..][k] == calls[k + 1];
          }
        }
      }
    }
  }
}
