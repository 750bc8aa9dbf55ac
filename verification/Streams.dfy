/**
 Bounded observer channels, shared by the job manager and the adapter status stores. A producer never blocks:
 an observer whose buffer is full is dropped and its channel closed. The reader may still drain a closed channel.
 */
module Streams {

  // One subscription: `sent` is everything ever put on its channel, of which the reader has taken `received`.
  // `since` is how many values had been published when it was opened and `initial` what the subscriber was handed.
  datatype Stream<T> = Stream(capacity: nat, since: nat, initial: T, sent: seq<T>, received: nat, open: bool) {
    function Buffered(): seq<T>
      requires received <= |sent|
    {
      sent[received..]
    }

    // What a reader that has drained the channel holds.
    function Latest(): T {
      if sent == [] then initial else sent[|sent| - 1]
    }
  }

  // Against `log`, everything published so far: an open stream has been sent exactly what was published since it
  // was opened; a closed one an initial stretch of that. Neither ever buffers more than its capacity.
  ghost predicate GapFree<T>(st: Stream<T>, log: seq<T>) {
    && st.received <= |st.sent| <= st.received + st.capacity
    && st.since + |st.sent| <= |log|
    && st.sent == log[st.since..st.since + |st.sent|]
    && (st.open ==> st.since + |st.sent| == |log|)
  }

  // One iteration of the publishing loop: the select with a default branch.
  function Offer<T>(st: Stream<T>, value: T): Stream<T>
    requires st.received <= |st.sent|
  {
    if !st.open then st
    else if |st.sent| - st.received < st.capacity then st.(sent := st.sent + [value])
    else st.(open := false)
  }

  ghost predicate WellFormed<T>(streams: seq<Stream<T>>) {
    forall i :: 0 <= i < |streams| ==> streams[i].received <= |streams[i].sent|
  }

  function Publish<T>(streams: seq<Stream<T>>, value: T): (r: seq<Stream<T>>)
    requires WellFormed(streams)
    ensures WellFormed(r) && |r| == |streams|
  {
    seq(|streams|, i requires 0 <= i < |streams| => Offer(streams[i], value))
  }

  ghost predicate AllGapFree<T>(streams: seq<Stream<T>>, log: seq<T>) {
    forall i :: 0 <= i < |streams| ==> GapFree(streams[i], log)
  }

  // Publishing keeps every stream gap-free, and whoever stays open ends up holding the new value.
  lemma PublishIsGapFree<T>(streams: seq<Stream<T>>, log: seq<T>, value: T)
    requires AllGapFree(streams, log)
    ensures AllGapFree(Publish(streams, value), log + [value])
    ensures forall i :: 0 <= i < |streams| && Publish(streams, value)[i].open ==>
      Publish(streams, value)[i].Latest() == value
  {
    var after, longer := Publish(streams, value), log + [value];
    forall i | 0 <= i < |streams| ensures GapFree(after[i], longer) {
      var st := streams[i];
      assert longer[st.since..st.since + |st.sent|] == st.sent;
      if after[i].sent != st.sent {
        assert longer[st.since..st.since + |st.sent| + 1] == st.sent + [value];
      }
    }
  }

  // An observer is closed exactly when it would have to miss a value, and then gets nothing more.
  lemma ClosedOnlyByAMiss<T>(streams: seq<Stream<T>>, log: seq<T>, value: T, i: nat)
    requires AllGapFree(streams, log) && i < |streams|
    ensures !streams[i].open ==> Publish(streams, value)[i] == streams[i]
    ensures streams[i].open ==> (!Publish(streams, value)[i].open <==> |streams[i].Buffered()| == streams[i].capacity)
  {
    assert GapFree(streams[i], log);
  }
}
