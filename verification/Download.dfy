/** A get from the server's reply to the client's file: the announcement, file_send, the channel and
    file_recv composed. */
module Download {
  import opened FtpState
  import opened Numbers
  import opened ReplyText
  import opened ByteTransfer

  /** The bytes file_send puts into the socket when its calls return these results. */
  function Stream(file: seq<byte>, results: seq<int>): seq<byte>
    requires 0 <= SentLength(results) <= |file|
  {
    file[..SentLength(results)]
  }

  /** What can happen between the two programs: the results of sendfile, and a channel that carries the
      resulting stream to the receiver in any chunks. */
  ghost predicate Exchange(file: seq<byte>, results: seq<int>, moves: seq<Move>, c: Channel) {
    && SendResults(file, |file|, results)
    && 0 <= SentLength(results) <= |file| && Flow(Stream(file, results), moves) == Some(c)
    && Arrivals(|file|, c.arrived)
  }

  /** Nothing failed, everything was sent and has arrived, and every write was full. */
  ghost predicate Undisturbed(file: seq<byte>, results: seq<int>, c: Channel) {
    && !Failed(results) && |c.sent| == SentLength(results) && c.queue == []
    && Good(c.arrived, |c.arrived|) && FullWrites(c.arrived, |c.arrived|)
  }

  lemma ShortStream(file: seq<byte>, results: seq<int>, moves: seq<Move>, c: Channel)
    requires Exchange(file, results, moves, c)
    ensures |Bytes(c.arrived)| <= |file|
  {
    NothingLost(Stream(file, results), moves, c);
  }

  /** What the composition guarantees of its two results and the file received. */
  ghost predicate Delivered(
    file: seq<byte>, results: seq<int>, c: Channel, sendRet: int, ret: int, received: seq<byte>)
  {
    && (ret >= 0 && FullWrites(c.arrived, |c.arrived|) ==> received == file)
    && (Undisturbed(file, results, c) ==> sendRet == |file| && ret == |file| && received == file)
  }

  lemma Delivers(
    file: seq<byte>, results: seq<int>, moves: seq<Move>, c: Channel, sendRet: int, stream: seq<byte>,
    k: nat, ret: int, received: seq<byte>)
    requires |file| <= INT_MAX && Exchange(file, results, moves, c)
    requires Sent(file, |file|, results, sendRet, stream)
    requires Received(|file|, c.arrived, k, ret, received)
    ensures Delivered(file, results, c, sendRet, ret, received)
  {
    assert stream == Stream(file, results);
    RecvSucceedsIff(|file|, c.arrived, k, ret, received);
    if ret == |file| && FullWrites(c.arrived, |c.arrived|) {
      EndToEnd(file, |file|, results, sendRet, stream, moves, c, |file|, k, ret, received);
    }
    if Undisturbed(file, results, c) {
      DrainedTransfer(file, results, sendRet, stream, moves, c, k, ret, received);
    }
  }

  /** The server answers a get with the file's size, the client takes the size from the reply, and both run
      their transfer. For every file whose size is an int, every port, and everything that can happen
      between the two: if file_recv reports success (with full writes), the client has the file; and if
      nothing failed, it does so. */
  method Get(client: ClientFtp, file: seq<byte>, port: int, wild: int, results: seq<int>, moves: seq<Move>, c: Channel)
    returns (sendRet: int, ret: int, received: seq<byte>)
    requires !client.portOpen && IsInt(port) && |file| <= INT_MAX && Exchange(file, results, moves, c)
    modifies client
    ensures client.fileSizeRecv == |file| && client.ftpPort == port && client.receiving
    ensures Delivered(file, results, c, sendRet, ret, received)
  {
    ReceiveGetReply(client, port, |file|, wild);
    var stream: seq<byte>;
    sendRet, stream := FileSend(file, |file|, results);
    ShortStream(file, results, moves, c);
    ret, received := FileRecv(client.fileSizeRecv, c.arrived);
    ghost var k: nat :| Received(|file|, c.arrived, k, ret, received);
    Delivers(file, results, moves, c, sendRet, stream, k, ret, received);
  }
}
