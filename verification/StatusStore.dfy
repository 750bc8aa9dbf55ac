/** The hub's status store: the connection status an adapter shows, and its observers. */
module StatusStores {
  import opened Text
  import opened Streams

  datatype Status = Disabled | Connecting | Connected | Reconnecting | Unauthorized

  datatype StatusSnapshot = StatusSnapshot(state: Status, error: string, updatedAt: int)

  const MAX_ERROR := 600
  const ELLIPSIS := '\U{2026}'

  // How an error text is stored: trimmed, and cut after 600 runes.
  function Cut(error: string): string {
    var t := TrimSpace(error);
    if |t| > MAX_ERROR then t[..MAX_ERROR] + [ELLIPSIS] else t
  }

  // Storing a stored error again does not change it, so a status is forwarded from store to store as it is.
  lemma CutIsIdempotent(error: string)
    ensures Cut(Cut(error)) == Cut(error)
    ensures |Cut(error)| <= MAX_ERROR + 1
  {
    var t := TrimSpace(error);
    TrimIdempotent(error);
    if |t| > MAX_ERROR {
      var left := TrimLeft(error);
      TrimLeftStarts(error);
      TrimRightEnds(left);
      assert t[0] == left[0];
      var c := Cut(error);
      assert TrimLeft(c) == c;
      assert TrimRight(c) == c;
      assert c[..MAX_ERROR] == t[..MAX_ERROR];
    }
  }

  // An error of up to 600 runes is stored as it is, but for white space around it; of a longer one, the first 600.
  lemma CutIs(error: string)
    ensures |TrimSpace(error)| <= 600 ==> Cut(error) == TrimSpace(error)
    ensures |TrimSpace(error)| > 600 ==> Cut(error) == TrimSpace(error)[..600] + "…"
  {
    hide TrimSpace;
  }

  class StatusStore {
    var snapshot: StatusSnapshot
    var channels: seq<Stream<StatusSnapshot>>  // every channel handed out
    var observers: set<nat>                    // those still registered
    var log: seq<StatusSnapshot>               // history: every status set

    ghost predicate OpenOnes()
      reads `channels, `observers
    {
      forall id :: id in observers <==> 0 <= id < |channels| && channels[id].open
    }

    // Open observers that have drained their channel hold the current status; none has missed one.
    ghost predicate Valid()
      reads this
    {
      && WellFormed(channels) && AllGapFree(channels, log) && OpenOnes()
      && (forall id :: 0 <= id < |channels| && channels[id].open ==> channels[id].Latest() == snapshot)
      && (log != [] ==> snapshot == log[|log| - 1])
    }

    constructor (initial: Status, now: int)
      ensures Valid() && snapshot == StatusSnapshot(initial, "", now) && channels == [] && log == []
    {
      snapshot := StatusSnapshot(initial, "", now);
      channels, observers, log := [], {}, [];
    }

    method Observe(buffer: int) returns (current: StatusSnapshot, id: nat)
      requires Valid()
      modifies `channels, `observers
      ensures Valid() && current == snapshot && id == |old(channels)|
      ensures channels
        == old(channels) + [Stream(if buffer <= 0 then 8 else buffer, |log|, snapshot, [], 0, true)]
    {
      var capacity := if buffer <= 0 then 8 else buffer;
      id := |channels|;
      channels := channels + [Stream(capacity, |log|, snapshot, [], 0, true)];
      observers := observers + {id};
      current := snapshot;
    }

    // StatusSubscription.Close
    method Close(id: nat)
      requires Valid() && id < |channels|
      modifies `channels, `observers
      ensures Valid() && channels == old(channels)[id := old(channels)[id].(open := false)]
    {
      if id in observers {
        observers := observers - {id};
        channels := channels[id := channels[id].(open := false)];
      }
    }

    // The subscriber takes an update off its channel.
    method Take(id: nat) returns (update: StatusSnapshot)
      requires Valid() && id < |channels| && channels[id].received < |channels[id].sent|
      modifies `channels
      ensures Valid() && channels == old(channels)[id := old(channels)[id].(received := old(channels)[id].received + 1)]
      ensures update == log[channels[id].since + old(channels)[id].received]
    {
      assert GapFree(channels[id], log);
      update := channels[id].sent[channels[id].received];
      channels := channels[id := channels[id].(received := channels[id].received + 1)];
    }

    // The loop of Set: the observers are offered the status in no particular order.
    method PublishStatus(status: StatusSnapshot)
      requires WellFormed(channels) && OpenOnes()
      modifies `channels, `observers
      ensures OpenOnes() && channels == Publish(old(channels), status)
    {
      var rest := observers;
      while rest != {}
        invariant rest <= old(observers) && |channels| == |old(channels)|
        invariant forall id :: 0 <= id < |channels| ==>
          channels[id] == if id in rest then old(channels)[id] else Offer(old(channels)[id], status)
        invariant OpenOnes()
      {
        var id :| id in rest;
        rest := rest - {id};
        var channel := channels[id];
        if |channel.sent| - channel.received < channel.capacity {
          channels := channels[id := channel.(sent := channel.sent + [status])];
        } else {
          observers := observers - {id};
          channels := channels[id := channel.(open := false)];
        }
      }
    }

    method Set(state: Status, error: string, now: int)
      requires Valid()
      modifies this
      ensures Valid() && snapshot == StatusSnapshot(state, Cut(error), now)
      ensures log == old(log) + [snapshot] && channels == Publish(old(channels), snapshot)
    {
      hide Cut, Publish;
      var errorText := TrimSpace(error);
      if |errorText| > MAX_ERROR { errorText := errorText[..MAX_ERROR] + [ELLIPSIS]; }
      CutIs(error);
      snapshot := StatusSnapshot(state, errorText, now);
      PublishIsGapFree(channels, log, snapshot);
      log := log + [snapshot];
      PublishStatus(snapshot);
    }
  }
}
