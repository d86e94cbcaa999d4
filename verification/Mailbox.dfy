/** The activation mailbox of a node (backends/tcp_transport.py) and the tags activations travel under
    (core/types.py, ActivationEnvelope.tag). */
module Mailbox {
  import opened Decimals
  import opened Types
  import opened Wire

  // ---------------------------------------------------------------- messages

  const PUSH: Byte := 80
  const GET: Byte := 71
  const RESPONSE: Byte := 82
  const MISS: Byte := 78
  const NUL: Byte := 0

  type Bytes = seq<Byte>

  predicate NulFree(tag: Bytes) {
    NUL !in tag
  }

  function PushMessage(tag: Bytes, data: Bytes): Bytes {
    [PUSH] + tag + [NUL] + data
  }

  function GetMessage(tag: Bytes): Bytes {
    [GET] + tag
  }

  /** bytes.partition: what comes before the first NUL, and after it. */
  function Partition(content: Bytes): Option<(Bytes, Bytes)> {
    if content == [] then None
    else if content[0] == NUL then Some(([], content[1..]))
    else
      match Partition(content[1..])
      case None => None
      case Some((before, after)) => Some(([content[0]] + before, after))
  }

  lemma {:induction false} PartitionOfTag(tag: Bytes, data: Bytes)
    requires NulFree(tag)
    ensures Partition(tag + [NUL] + data) == Some((tag, data))
  {
    if tag == [] {
      var content := tag + [NUL] + data;
      assert content[0] == NUL && content[1..] == data;
    } else {
      PartitionOfTag(tag[1..], data);
      var content := tag + [NUL] + data;
      assert content[1..] == tag[1..] + [NUL] + data;
      assert content[0] == tag[0] && tag[0] in tag && [tag[0]] + tag[1..] == tag;
    }
  }

  lemma {:induction false} PartitionTagIsNulFree(content: Bytes)
    ensures Partition(content).Some? <==> NUL in content
    ensures Partition(content).Some? ==> NulFree(Partition(content).value.0)
  {
    if content != [] {
      PartitionTagIsNulFree(content[1..]);
    }
  }

  type Box = map<Bytes, Bytes>

  datatype Reply = Silent(box: Box) | Answer(box: Box, bytes: Bytes) | Refused

  /** One turn of the receiver's loop. */
  function Handled(box: Box, message: Bytes): Reply {
    if message == [] then Refused
    else if message[0] == PUSH then
      match Partition(message[1..])
      case None => Refused
      case Some((tag, data)) => Silent(box[tag := data])
    else if message[0] == GET then
      var tag := message[1..];
      if tag in box then Answer(box - {tag}, [RESPONSE] + box[tag]) else Answer(box, [MISS])
    else Refused
  }

  /** What the client makes of the receiver's bytes. */
  function Received(bytes: Bytes): Result<Option<Bytes>, WireError> {
    if bytes == [MISS] then Success(None)
    else if bytes == [] || bytes[0] != RESPONSE then Failure(BadHeader)
    else Success(Some(bytes[1..]))
  }

  lemma HandledPush(box: Box, tag: Bytes, data: Bytes)
    requires NulFree(tag)
    ensures Handled(box, PushMessage(tag, data)) == Silent(box[tag := data])
  {
    hide Partition;
    PartitionOfTag(tag, data);
    assert PushMessage(tag, data)[1..] == tag + [NUL] + data;
  }

  lemma HandledGet(box: Box, tag: Bytes)
    ensures Handled(box, GetMessage(tag))
         == if tag in box then Answer(box - {tag}, [RESPONSE] + box[tag]) else Answer(box, [MISS])
  {
    assert GetMessage(tag)[1..] == tag;
  }

  /** Data is never mistaken for a miss, nor a miss for data. */
  lemma ReceivedApart(data: Bytes)
    ensures Received([RESPONSE] + data) == Success(Some(data)) && Received([MISS]) == Success(None)
  {
    assert ([RESPONSE] + data)[0] == RESPONSE && ([RESPONSE] + data)[1..] == data;
  }

  // ---------------------------------------------------------------- any sequence of pushes and pulls

  datatype Op = Push(tag: Bytes, data: Bytes) | Pull(tag: Bytes)

  function MessageOf(op: Op): Bytes {
    match op
    case Push(tag, data) => PushMessage(tag, data)
    case Pull(tag) => GetMessage(tag)
  }

  function BoxAfter(ops: seq<Op>): Box {
    if ops == [] then map[]
    else
      var before := BoxAfter(ops[..|ops| - 1]);
      match Handled(before, MessageOf(ops[|ops| - 1]))
      case Silent(box) => box
      case Answer(box, _) => box
      case Refused => before
  }

  /** The last push under this tag that no pull has taken, found by looking back over the operations. */
  function LatestUnconsumed(ops: seq<Op>, tag: Bytes): Option<Bytes> {
    if ops == [] then None
    else if ops[|ops| - 1].tag == tag then
      match ops[|ops| - 1]
      case Push(_, data) => Some(data)
      case Pull(_) => None
    else LatestUnconsumed(ops[..|ops| - 1], tag)
  }

  ghost predicate NulFreeOps(ops: seq<Op>) {
    forall op :: op in ops ==> NulFree(op.tag)
  }

  lemma {:induction false} BoxHoldsLatest(ops: seq<Op>, tag: Bytes)
    requires NulFreeOps(ops)
    ensures (if tag in BoxAfter(ops) then Some(BoxAfter(ops)[tag]) else None) == LatestUnconsumed(ops, tag)
  {
    hide Handled, PushMessage, GetMessage;
    if ops != [] {
      var n := |ops| - 1;
      var op := ops[n];
      assert op in ops;
      BoxHoldsLatest(ops[..n], tag);
      match op
      case Push(t, d) => HandledPush(BoxAfter(ops[..n]), t, d);
      case Pull(t) => HandledGet(BoxAfter(ops[..n]), t);
    }
  }

  /** A pull after any sequence of pushes and pulls with NUL-free tags returns exactly the latest unconsumed push under its
      tag, or a miss if there is none. */
  lemma PullReturnsLatest(ops: seq<Op>, tag: Bytes)
    requires NulFreeOps(ops)
    ensures var reply := Handled(BoxAfter(ops), GetMessage(tag));
      reply.Answer? && Received(reply.bytes) == Success(LatestUnconsumed(ops, tag))
  {
    hide Handled, Received, BoxAfter, LatestUnconsumed;
    BoxHoldsLatest(ops, tag);
    HandledGet(BoxAfter(ops), tag);
    ReceivedApart(if tag in BoxAfter(ops) then BoxAfter(ops)[tag] else []);
  }

  lemma {:induction false} BoxTagsAreNulFree(ops: seq<Op>)
    ensures forall tag :: tag in BoxAfter(ops) ==> NulFree(tag)
  {
    hide Partition;
    if ops != [] {
      BoxTagsAreNulFree(ops[..|ops| - 1]);
      PartitionTagIsNulFree(MessageOf(ops[|ops| - 1])[1..]);
    }
  }

  /** The tag must be free of NUL: what is pushed under a tag can be pulled under it exactly then. */
  lemma PushThenPullIff(ops: seq<Op>, tag: Bytes, data: Bytes)
    ensures var reply := Handled(BoxAfter(ops + [Push(tag, data)]), GetMessage(tag));
      reply.Answer? && (Received(reply.bytes) == Success(Some(data)) <==> NulFree(tag))
  {
    hide Handled, Received, PushMessage, GetMessage;
    var all := ops + [Push(tag, data)];
    BoxTagsAreNulFree(all);
    assert all[..|all| - 1] == ops;
    HandledGet(BoxAfter(all), tag);
    ReceivedApart(data);
    if NulFree(tag) {
      HandledPush(BoxAfter(ops), tag, data);
    }
  }

  // ---------------------------------------------------------------- the receiver

  class TcpReceiver {
    var store: Box

    constructor ()
      ensures store == map[]
    {
      store := map[];
    }

    /** One message: whether it was accepted, and the response if there is one. */
    method Handle(message: Bytes) returns (accepted: bool, response: Option<Bytes>)
      modifies this
      ensures match Handled(old(store), message)
        case Silent(box) => accepted && response == None && store == box
        case Answer(box, bytes) => accepted && response == Some(bytes) && store == box
        case Refused => !accepted && response == None && store == old(store)
    {
      if message == [] {
        return false, None;
      }
      var operation, content := message[0], message[1..];
      if operation == PUSH {
        var parts := Partition(content);
        if parts.None? {
          return false, None;
        }
        store := store[parts.value.0 := parts.value.1];
        return true, None;
      } else if operation == GET {
        if content in store {
          var data := store[content];
          store := store - {content};
          return true, Some([RESPONSE] + data);
        }
        return true, Some([MISS]);
      }
      return false, None;
    }
  }

  /** TCPTransport.push, as the receiver sees it: the data is filed under what comes before the first NUL, which is the tag
      exactly when the tag has none. */
  method PushTo(receiver: TcpReceiver, data: Bytes, tag: Bytes)
    modifies receiver
    ensures Partition(tag + [NUL] + data).Some?
    ensures var (filed, content) := Partition(tag + [NUL] + data).value;
      && receiver.store == old(receiver.store)[filed := content]
      && (NulFree(tag) <==> filed == tag)
      && (NulFree(tag) ==> content == data)
  {
    assert PushMessage(tag, data)[1..] == tag + [NUL] + data;
    PartitionTagIsNulFree(tag + [NUL] + data);
    assert (tag + [NUL] + data)[|tag|] == NUL;
    if NulFree(tag) {
      PartitionOfTag(tag, data);
    }
    var accepted, response := receiver.Handle(PushMessage(tag, data));
  }

  /** TCPTransport.pull: each push is handed out at most once. */
  method PullFrom(receiver: TcpReceiver, tag: Bytes) returns (r: Result<Option<Bytes>, WireError>)
    modifies receiver
    ensures r == Success(if tag in old(receiver.store) then Some(old(receiver.store)[tag]) else None)
    ensures receiver.store == old(receiver.store) - {tag}
  {
    hide Handled, GetMessage, Received;
    HandledGet(receiver.store, tag);
    ReceivedApart(if tag in receiver.store then receiver.store[tag] else []);
    var accepted, response := receiver.Handle(GetMessage(tag));
    r := Received(response.value);
  }

  // ---------------------------------------------------------------- tags

  /** An absent or empty destination is written "unassigned". */
  function DestinationName(destination: Option<NodeId>): string {
    if destination.Some? && destination.value != "" then destination.value else "unassigned"
  }

  function Tag(requestId: string, epoch: int, stage: int, source: NodeId, destination: Option<NodeId>): string {
    "activation:" + requestId + ":" + Decimal(epoch) + ":" + Decimal(stage) + ":" + source + ":" + DestinationName(destination)
  }

  /** How a tag looks. */
  lemma TagLooksLike()
    ensures Tag("r", 7, 12, "a", Some("b")) == "activation:r:7:12:a:b"
    ensures Tag("r", 7, 12, "a", None) == Tag("r", 7, 12, "a", Some("")) == "activation:r:7:12:a:unassigned"
  {
    assert Decimal(7) == "7" && Digits(1) == "1" && Digits(12) == "12" && Decimal(12) == "12";
  }

  /** The text after the last colon determines where to cut. */
  lemma LastColonSplits(a: string, b: string, c: string, d: string)
    requires a + ":" + b == c + ":" + d && NoColon(b) && NoColon(d)
    ensures a == c && b == d
  {
    var s := a + ":" + b;
    assert s[|a|] == ':' && s[|c|] == ':';
    assert forall k :: |a| < k < |s| ==> s[k] == b[k - |a| - 1];
    assert forall k :: |c| < k < |s| ==> s[k] == d[k - |c| - 1];
    assert |a| == |c|;
    assert a == s[..|a|] && c == s[..|c|];
    assert b == s[|a| + 1..] && d == s[|c| + 1..];
  }

  /** What a tag says before its destination. */
  function Origin(requestId: string, epoch: int, stage: int, source: NodeId): string {
    "activation:" + requestId + ":" + Decimal(epoch) + ":" + Decimal(stage) + ":" + source
  }

  lemma OriginsAreDistinct(r1: string, e1: int, s1: int, src1: NodeId, r2: string, e2: int, s2: int, src2: NodeId)
    requires NoColon(src1) && NoColon(src2)
    requires Origin(r1, e1, s1, src1) == Origin(r2, e2, s2, src2)
    ensures r1 == r2 && e1 == e2 && s1 == s2 && src1 == src2
  {
    hide Decimal;
    var p1, p2 := "activation:" + r1, "activation:" + r2;
    var a1, a2 := p1 + ":" + Decimal(e1), p2 + ":" + Decimal(e2);
    LastColonSplits(a1 + ":" + Decimal(s1), src1, a2 + ":" + Decimal(s2), src2);
    LastColonSplits(a1, Decimal(s1), a2, Decimal(s2));
    LastColonSplits(p1, Decimal(e1), p2, Decimal(e2));
    DecimalDiffers(s1, s2);
    DecimalDiffers(e1, e2);
    assert r1 == p1[|"activation:"|..] && r2 == p2[|"activation:"|..];
  }

  /** Two activations share a tag only if they agree on request, epoch, stage, source and destination, whatever characters
      the request id contains, as long as node ids contain no colon. Destinations are told apart by how they are written:
      only an absent one, an empty one and a node called "unassigned" coincide. */
  lemma TagsAreDistinct(r1: string, e1: int, s1: int, src1: NodeId, dst1: Option<NodeId>,
                        r2: string, e2: int, s2: int, src2: NodeId, dst2: Option<NodeId>)
    requires NoColon(src1) && NoColon(src2) && NoColon(DestinationName(dst1)) && NoColon(DestinationName(dst2))
    requires Tag(r1, e1, s1, src1, dst1) == Tag(r2, e2, s2, src2, dst2)
    ensures r1 == r2 && e1 == e2 && s1 == s2 && src1 == src2 && DestinationName(dst1) == DestinationName(dst2)
    ensures dst1 == dst2 || DestinationName(dst1) == "unassigned"
  {
    hide Decimal;
    LastColonSplits(Origin(r1, e1, s1, src1), DestinationName(dst1), Origin(r2, e2, s2, src2), DestinationName(dst2));
    OriginsAreDistinct(r1, e1, s1, src1, r2, e2, s2, src2);
  }

  /** In the mailbox of one node, sources without a colon are enough. */
  lemma TagsOfOneNodeAreDistinct(r1: string, e1: int, s1: int, src1: NodeId, r2: string, e2: int, s2: int, src2: NodeId, dst: NodeId)
    requires NoColon(src1) && NoColon(src2)
    requires Tag(r1, e1, s1, src1, Some(dst)) == Tag(r2, e2, s2, src2, Some(dst))
    ensures r1 == r2 && e1 == e2 && s1 == s2 && src1 == src2
  {
    hide Decimal;
    var o1, o2, d := Origin(r1, e1, s1, src1), Origin(r2, e2, s2, src2), ":" + DestinationName(Some(dst));
    assert Tag(r1, e1, s1, src1, Some(dst)) == o1 + d && Tag(r2, e2, s2, src2, Some(dst)) == o2 + d;
    assert o1 == (o1 + d)[..|o1|] && o2 == (o2 + d)[..|o2|];
    OriginsAreDistinct(r1, e1, s1, src1, r2, e2, s2, src2);
  }

  /** With a colon in a node id two different hops share a tag. */
  lemma ColonsCollide(requestId: string, epoch: int, stage: int, a: string, b: string, c: string)
    requires c != ""
    ensures Tag(requestId, epoch, stage, a, Some(b + ":" + c)) == Tag(requestId, epoch, stage, a + ":" + b, Some(c))
    ensures a != a + ":" + b
  {
    var front := "activation:" + requestId + ":" + Decimal(epoch) + ":" + Decimal(stage) + ":";
    assert front + a + ":" + (b + ":" + c) == front + (a + ":" + b) + ":" + c;
    assert |a| != |a + ":" + b|;
  }

  // ---------------------------------------------------------------- deliveries do not mix

  /** One hand-over of an activation between two stages. */
  datatype Hop = Hop(requestId: string, epoch: int, stage: int, source: NodeId, destination: NodeId)

  ghost predicate Plain(h: Hop) {
    NoColon(h.source) && NoColon(h.destination) && h.destination != ""
  }

  function HopTag(h: Hop): string {
    Tag(h.requestId, h.epoch, h.stage, h.source, Some(h.destination))
  }

  ghost predicate Injective(encode: string -> Bytes) {
    forall s, t :: encode(s) == encode(t) ==> s == t
  }

  ghost predicate OpsOf(ops: seq<Op>, hops: seq<Hop>, encode: string -> Bytes) {
    && |hops| == |ops|
    && forall i :: 0 <= i < |ops| ==> Plain(hops[i]) && ops[i].tag == encode(HopTag(hops[i]))
  }

  /** Once an activation has been pushed, no pushes and pulls of other hops, in whatever number and order, can take it or
      replace it: its own pull returns it. */
  lemma {:induction false} DeliveriesDoNotMix(
      encode: string -> Bytes, before: seq<Op>, hop: Hop, data: Bytes, after: seq<Op>, hops: seq<Hop>)
    requires Injective(encode) && Plain(hop)
    requires OpsOf(after, hops, encode) && hop !in hops
    ensures LatestUnconsumed(before + [Push(encode(HopTag(hop)), data)] + after, encode(HopTag(hop))) == Some(data)
  {
    hide HopTag, Plain, Injective;
    var all := before + [Push(encode(HopTag(hop)), data)] + after;
    if after == [] {
      assert all == before + [Push(encode(HopTag(hop)), data)];
    } else {
      var n := |after| - 1;
      assert all[..|all| - 1] == before + [Push(encode(HopTag(hop)), data)] + after[..n];
      DeliveriesDoNotMix(encode, before, hop, data, after[..n], hops[..n]);
      assert hops[n] in hops;
      OtherHopOtherTag(encode, hop, hops[n]);
    }
  }

  lemma OtherHopOtherTag(encode: string -> Bytes, h: Hop, k: Hop)
    requires Injective(encode) && Plain(h) && Plain(k) && h != k
    ensures encode(HopTag(h)) != encode(HopTag(k))
  {
    hide Tag;
    if encode(HopTag(h)) == encode(HopTag(k)) {
      TagsAreDistinct(h.requestId, h.epoch, h.stage, h.source, Some(h.destination),
                      k.requestId, k.epoch, k.stage, k.source, Some(k.destination));
    }
  }
}
