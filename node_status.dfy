/** `useNodeStatus`: the status indicator of one node follows the latest
    realtime message published for it. */
module NodeStatus {
  import opened Wrappers

  /** A realtime message; `nodeID` and `status` are the fields of its `data`
      payload, and `createdAt` is its timestamp in milliseconds. */
  datatype RealtimeMessage = RealtimeMessage(
    kind: string,
    channel: string,
    topic: string,
    nodeID: string,
    status: string,
    createdAt: int)

  const InitialStatus := "initial"

  /** The filter condition: a "data" message on this channel and topic, for this node. */
  predicate Relevant(m: RealtimeMessage, nodeID: string, channel: string, topic: string) {
    m.kind == "data" && m.channel == channel && m.topic == topic && m.nodeID == nodeID
  }

  /** `data.filter(...)`: the relevant messages, in their original order. */
  function Matching(data: seq<RealtimeMessage>, nodeID: string, channel: string, topic: string): (r: seq<RealtimeMessage>)
    ensures forall m :: m in r <==> m in data && Relevant(m, nodeID, channel, topic)
    ensures |r| <= |data|
  {
    if |data| == 0 then []
    else if Relevant(data[0], nodeID, channel, topic) then [data[0]] + Matching(data[1..], nodeID, channel, topic)
    else Matching(data[1..], nodeID, channel, topic)
  }

  /** The index `[0]` reads after a stable sort by descending `createdAt`: the
      first message with the greatest timestamp. */
  function LatestIndex(ms: seq<RealtimeMessage>): (i: nat)
    requires |ms| > 0
    ensures i < |ms|
    ensures forall j :: 0 <= j < |ms| ==> ms[j].createdAt <= ms[i].createdAt
    ensures forall j :: 0 <= j < i ==> ms[j].createdAt < ms[i].createdAt
  {
    if |ms| == 1 then 0
    else
      var k := LatestIndex(ms[1..]) + 1;
      if ms[0].createdAt >= ms[k].createdAt then 0 else k
  }

  /** The latest message is the same whatever the order of older messages
      after it: prepending a strictly older message does not change it. */
  lemma {:induction false} OlderMessageIgnored(m: RealtimeMessage, ms: seq<RealtimeMessage>)
    requires |ms| > 0 && m.createdAt < ms[LatestIndex(ms)].createdAt
    ensures ([m] + ms)[LatestIndex([m] + ms)] == ms[LatestIndex(ms)]
  {
    assert ([m] + ms)[1..] == ms;
  }

  /** The status after the effect runs on `data`; `None` is an absent list. */
  function NextStatus(current: string, data: Option<seq<RealtimeMessage>>, nodeID: string, channel: string, topic: string): (r: string)
    // An absent or empty list, or one with no relevant message, leaves the status as it was.
    ensures (data.None? || |Matching(data.value, nodeID, channel, topic)| == 0) ==> r == current
    // Otherwise the status is that of a relevant message no other relevant message is newer than.
    ensures data.Some? && |Matching(data.value, nodeID, channel, topic)| > 0 ==>
              exists m :: m in data.value && Relevant(m, nodeID, channel, topic) && r == m.status
                && forall m' :: m' in data.value && Relevant(m', nodeID, channel, topic) ==> m'.createdAt <= m.createdAt
  {
    if data.None? || |data.value| == 0 then current
    else
      var ms := Matching(data.value, nodeID, channel, topic);
      if |ms| == 0 then current
      else
        var i := LatestIndex(ms);
        assert ms[i] in ms;
        ms[i].status
  }

  /** The hook's state for one node's indicator. */
  class NodeStatusHook {
    const nodeID: string
    const channel: string
    const topic: string
    var status: string

    /** `useState<NodeStatus>("initial")` */
    constructor(nodeID: string, channel: string, topic: string)
      ensures this.nodeID == nodeID && this.channel == channel && this.topic == topic
      ensures status == InitialStatus
    {
      this.nodeID := nodeID;
      this.channel := channel;
      this.topic := topic;
      status := InitialStatus;
    }

    /** The effect that runs when the subscription's `data` changes. */
    method OnData(data: Option<seq<RealtimeMessage>>)
      modifies this
      ensures status == NextStatus(old(status), data, nodeID, channel, topic)
    {
      if data.None? || |data.value| == 0 {
        return;
      }
      var ms := Matching(data.value, nodeID, channel, topic);
      if |ms| > 0 {
        var latest := ms[LatestIndex(ms)];
        status := latest.status;
      }
    }
  }
}
