/** file_send and file_recv, and their composition over a lossless in-order channel. */
module ByteTransfer {
  import opened Errors
  import opened FtpState
  import opened Numbers

  newtype byte = x: int | 0 <= x < 256

  const CHUNK_SIZE: nat := 256

  function Min(a: int, b: int): int {
    if a <= b then a else b
  }

  // ---- file_send ----

  function Sum(results: seq<int>): int {
    if results == [] then 0 else Sum(results[..|results| - 1]) + results[|results| - 1]
  }

  /** The values the calls of sendfile return, up to the one that ends the loop: each lies between
      an error and what is left to send, and 0 means the end of the file. */
  ghost predicate SendResults(file: seq<byte>, size: nat, results: seq<int>) {
    && (forall k :: 0 <= k < |results| ==>
          && 0 <= Sum(results[..k]) < ToInt(size) && Sum(results[..k]) <= |file|
          && -1 <= results[k] <= Min(ToInt(size), |file|) - Sum(results[..k])
          && (results[k] == 0 <==> Sum(results[..k]) == |file|))
    && (forall k :: 0 <= k < |results| - 1 ==> results[k] > 0)
    && (results == [] ==> ToInt(size) <= 0)
    && (results != [] && results[|results| - 1] > 0 ==> Sum(results) >= ToInt(size))
  }

  predicate Failed(results: seq<int>) {
    results != [] && results[|results| - 1] < 0
  }

  /** How many bytes the calls put into the socket. */
  function SentLength(results: seq<int>): int {
    if Failed(results) then Sum(results) + 1 else Sum(results)
  }

  /** What file_send returns and what went into the socket: unless a call fails, as much of the
      announced size (as an int) as the file has, in order. */
  ghost predicate Sent(file: seq<byte>, size: nat, results: seq<int>, ret: int, stream: seq<byte>) {
    && |stream| == SentLength(results) && stream <= file
    && ret == (if Failed(results) then ERROR_SEND else |stream|)
    && (!Failed(results) ==> |stream| == if ToInt(size) <= 0 then 0 else Min(ToInt(size), |file|))
  }

  /** What the k-th call of sendfile does to the sums. */
  lemma OneSend(file: seq<byte>, size: nat, results: seq<int>, k: nat)
    requires SendResults(file, size, results) && k < |results|
    ensures var n, r := Sum(results[..k]), results[k];
            && Sum(results[..k + 1]) == n + r && 0 <= n < ToInt(size) && n <= |file|
            && (r <= 0 ==> k + 1 == |results|)
            && (r > 0 ==>
                  && n + r <= |file| && n + r <= ToInt(size)
                  && (k + 1 < |results| <==> n + r < ToInt(size))
                  && file[..n] + file[n..n + r] == file[..n + r])
  {
    assert results[..k + 1][..k] == results[..k];
    if k + 1 == |results| {
      assert results[..k + 1] == results;
    } else {
      assert Sum(results[..k + 1]) < ToInt(size);
    }
  }

  method FileSend(file: seq<byte>, size: nat, results: seq<int>) returns (ret: int, stream: seq<byte>)
    requires SendResults(file, size, results)
    ensures Sent(file, size, results, ret, stream)
  {
    var sent, totalSent := 0, 0;
    var remaining := ToInt(size);
    stream := [];
    var k := 0;
    while remaining > 0
      invariant 0 <= k <= |results| && totalSent == Sum(results[..k]) && 0 <= totalSent <= |file|
      invariant totalSent + remaining == ToInt(size) && (ToInt(size) > 0 ==> remaining >= 0)
      invariant stream == file[..totalSent]
      invariant sent >= 0 && (remaining <= 0 <==> k == |results|)
      decreases |results| - k
    {
      OneSend(file, size, results, k);
      sent := results[k]; // sendfile(sock, fd, &offset, remaining), offset == totalSent
      k := k + 1;
      if sent <= 0 {
        break;
      }
      stream := stream + file[totalSent..totalSent + sent];
      remaining := remaining - sent;
      totalSent := totalSent + sent;
    }
    assert results[..|results|] == results;
    if sent < 0 {
      return ERROR_SEND, stream;
    }
    return totalSent, stream;
  }

  /** Without a failing call, a file is sent as a whole exactly if its size is an int; of any other file
      nothing or only a part goes out, and the result is no error. */
  lemma SendsAllIff(file: seq<byte>, results: seq<int>, ret: int, stream: seq<byte>)
    requires Sent(file, |file|, results, ret, stream) && !Failed(results)
    ensures stream == file <==> |file| <= INT_MAX
    ensures |file| > INT_MAX ==> ret == |stream| < |file|
  {
    IntIffSmall(|file|);
    if |stream| == |file| {
      assert stream == file[..|file|] == file;
    }
  }

  // ---- file_recv ----

  /** What one call of recv finds: a chunk (and what write then returns for it), or an error.
      The end of the list is the peer closing the connection. */
  datatype Arrival = Chunk(data: seq<byte>, written: int) | Fault

  function BufSize(size: nat): nat {
    if CHUNK_SIZE > size then size else CHUNK_SIZE
  }

  ghost predicate Arrivals(size: nat, a: seq<Arrival>) {
    forall k :: 0 <= k < |a| && a[k].Chunk? ==>
      1 <= |a[k].data| <= BufSize(size) && -1 <= a[k].written <= |a[k].data|
  }

  /** The bytes that arrived. */
  function Bytes(a: seq<Arrival>): seq<byte> {
    if a == [] then []
    else Bytes(a[..|a| - 1]) + (if a[|a| - 1].Chunk? then a[|a| - 1].data else [])
  }

  /** The bytes that write put into the file. */
  function Stored(a: seq<Arrival>): seq<byte> {
    if a == [] then []
    else
      var last := a[|a| - 1];
      Stored(a[..|a| - 1]) + (if last.Chunk? && 0 <= last.written <= |last.data| then last.data[..last.written] else [])
  }

  /** The first k arrivals are chunks that all fit into size, and size is not reached before the last. */
  ghost predicate Taken(size: nat, a: seq<Arrival>, k: nat) {
    && k <= |a|
    && (forall j :: 0 <= j < k ==> a[j].Chunk? && a[j].written >= 0 && |Bytes(a[..j])| < size)
    && |Bytes(a[..k])| <= size
  }

  /** What file_recv returns after k chunks: the file holds what was written of the longest run of
      leading chunks that fits; the announced size comes back exactly if that run adds up to it, and
      otherwise the result says what came next. */
  ghost predicate Received(size: nat, a: seq<Arrival>, k: nat, ret: int, file: seq<byte>) {
    && Taken(size, a, k) && (forall j: nat :: Taken(size, a, j) ==> j <= k)
    && file == Stored(a[..k]) && |file| <= size
    && ret == if |Bytes(a[..k])| == size && (size > 0 || a == []) then ToInt(size)
              else if k < |a| && a[k].Chunk? && |Bytes(a[..k])| + |a[k].data| <= size then ERROR_IO
              else if k < |a| && a[k].Fault? && (k > 0 || size == SIZE_LIMIT - 1) then ERROR_IO
              else ERROR_FILESIZE
  }

  /** The loop may stop after k chunks with result ret. */
  predicate MayStop(size: nat, a: seq<Arrival>, k: nat, total: nat, ret: int) {
    && k <= |a|
    && if total == size && (k > 0 || a == []) then ret == ToInt(size)
       else if k == |a| then ret == ERROR_FILESIZE
       else match a[k]
            case Fault => ret == (if k > 0 || size == SIZE_LIMIT - 1 then ERROR_IO else ERROR_FILESIZE)
            case Chunk(data, written) =>
              if total + |data| > size then ret == ERROR_FILESIZE else written < 0 && ret == ERROR_IO
  }

  lemma OneMore(a: seq<Arrival>, i: nat)
    requires i < |a|
    ensures a[i].Chunk? ==> Bytes(a[..i + 1]) == Bytes(a[..i]) + a[i].data
    ensures a[i].Chunk? && 0 <= a[i].written <= |a[i].data| ==>
              Stored(a[..i + 1]) == Stored(a[..i]) + a[i].data[..a[i].written]
  {
    assert a[..i + 1][..i] == a[..i];
  }

  lemma Stops(size: nat, a: seq<Arrival>, k: nat, ret: int)
    requires Arrivals(size, a) && Taken(size, a, k) && MayStop(size, a, k, |Bytes(a[..k])|, ret)
    requires |Stored(a[..k])| <= size
    ensures Received(size, a, k, ret, Stored(a[..k]))
  {
    forall j: nat | Taken(size, a, j) ensures j <= k {
      if j > k {
        OneMore(a, k);
        assert false;
      }
    }
  }

  /** size_t addition: a chunk adds its length, and the -1 of a failed recv takes one away. */
  lemma AddSize(total: nat, rec: nat)
    requires total + 256 < SIZE_LIMIT
    ensures rec <= 256 ==> (total + rec) % SIZE_LIMIT == total + rec
    ensures rec == SIZE_LIMIT - 1 ==> (total + rec) % SIZE_LIMIT == if total == 0 then SIZE_LIMIT - 1 else total - 1
  {
  }

  lemma TakeOne(size: nat, a: seq<Arrival>, i: nat)
    requires Arrivals(size, a) && Taken(size, a, i) && i < |a| && a[i].Chunk? && a[i].written >= 0
    requires |Bytes(a[..i])| < size && |Bytes(a[..i])| + |a[i].data| <= size
    ensures Taken(size, a, i + 1)
    ensures |Stored(a[..i + 1])| == |Stored(a[..i])| + a[i].written
    ensures |Bytes(a[..i + 1])| == |Bytes(a[..i])| + |a[i].data|
    ensures Stored(a[..i + 1]) == Stored(a[..i]) + a[i].data[..a[i].written]
    ensures 1 <= |a[i].data| <= 256 && a[i].written <= |a[i].data|
  {
    OneMore(a, i);
  }

  lemma BytesPrefix(a: seq<Arrival>, i: nat, j: nat)
    requires i <= j <= |a|
    ensures Bytes(a[..i]) <= Bytes(a[..j])
    decreases j - i
  {
    if i == j {
    } else {
      assert a[..j][..j - 1] == a[..j - 1];
      BytesPrefix(a, i, j - 1);
    }
  }

  method FileRecv(size: nat, a: seq<Arrival>) returns (ret: int, file: seq<byte>)
    requires Arrivals(size, a) && size < SIZE_LIMIT && |Bytes(a)| + 256 < SIZE_LIMIT
    ensures exists k: nat :: Received(size, a, k, ret, file)
  {
    var rec, totalRecv := 0, 0;
    file := [];
    var i := 0;
    while true
      invariant 0 <= i <= |a| && Taken(size, a, i)
      invariant totalRecv == |Bytes(a[..i])| && (i > 0 ==> totalRecv < size && totalRecv > 0)
      invariant file == Stored(a[..i]) && |file| <= totalRecv
      decreases |a| - i
    {
      if i == |a| {
        break; // recv returned 0
      }
      BytesPrefix(a, i, |a|);
      assert a[..|a|] == a;
      rec := if a[i].Chunk? then |a[i].data| else SIZE_LIMIT - 1; // -1 as a size_t
      AddSize(totalRecv, rec);
      totalRecv := (totalRecv + rec) % SIZE_LIMIT;
      if totalRecv > size {
        Stops(size, a, i, ERROR_FILESIZE);
        return ERROR_FILESIZE, file;
      }
      if a[i].Fault? || a[i].written < 0 { // write fails; of SIZE_LIMIT - 1 bytes it always does
        Stops(size, a, i, ERROR_IO);
        return ERROR_IO, file;
      }
      TakeOne(size, a, i);
      file := file + a[i].data[..a[i].written];
      i := i + 1;
      if totalRecv == size {
        break;
      }
    }
    ret := if totalRecv != size then ERROR_FILESIZE else ToInt(totalRecv);
    Stops(size, a, i, ret);
  }

  // ---- What the receiver's result means ----

  /** What file_send returns: -121 exactly if a call failed, and the number of bytes sent otherwise. */
  lemma SendReturns(file: seq<byte>, size: nat, results: seq<int>, ret: int, stream: seq<byte>)
    requires Sent(file, size, results, ret, stream)
    requires forall k :: 0 <= k < |results| - 1 ==> results[k] > 0
    ensures ret == if exists r :: r in results && r < 0 then -121 else |stream|
  {
    if results != [] { assert results[|results| - 1] in results; }
  }

  lemma {:induction false} StoredPrefix(a: seq<Arrival>, i: nat, j: nat)
    requires i <= j <= |a|
    ensures Stored(a[..i]) <= Stored(a[..j])
    decreases j - i
  {
    if i == j {
    } else {
      assert a[..j][..j - 1] == a[..j - 1];
      StoredPrefix(a, i, j - 1);
    }
  }

  /** The first j arrivals are chunks whose writes do not fail. */
  ghost predicate Good(a: seq<Arrival>, j: nat) {
    j <= |a| && forall i :: 0 <= i < j ==> a[i].Chunk? && a[i].written >= 0
  }

  lemma FirstReach(size: nat, a: seq<Arrival>, j: nat)
    requires Arrivals(size, a) && Good(a, j) && |Bytes(a[..j])| == size
    ensures Taken(size, a, j)
  {
    forall i | 0 <= i < j ensures |Bytes(a[..i])| < size {
      OneMore(a, i);
      BytesPrefix(a, i + 1, j);
    }
  }

  /** file_recv reports success, by returning the size, exactly if the size is the total of some run
      of leading chunks (all written without failure); every other outcome is negative. For the size 0
      a first recv that fails makes the difference. */
  lemma RecvSucceedsIff(size: nat, a: seq<Arrival>, k: nat, ret: int, file: seq<byte>)
    requires Arrivals(size, a) && Received(size, a, k, ret, file) && size <= INT_MAX
    ensures ret == size || ret == ERROR_IO || ret == ERROR_FILESIZE
    ensures ret == size <==> (size > 0 || a == []) && exists j: nat :: Good(a, j) && |Bytes(a[..j])| == size
  {
    if size == 0 {
      assert Good(a, 0) && |Bytes(a[..0])| == 0;
    } else if ret == size {
      assert Good(a, k) && |Bytes(a[..k])| == size;
    }
    if size > 0 {
      if j: nat :| Good(a, j) && |Bytes(a[..j])| == size {
        FirstReach(size, a, j);
        BytesPrefix(a, j, k);
      }
    }
  }

  /** Whatever the result, all chunks that arrived while the total did not exceed the size are written: the
      file begins with what was written of them, and is never longer than the size. */
  lemma WritesAllThatFits(size: nat, a: seq<Arrival>, k: nat, ret: int, file: seq<byte>, j: nat)
    requires Arrivals(size, a) && Received(size, a, k, ret, file)
    requires Good(a, j) && |Bytes(a[..j])| <= size
    ensures Stored(a[..j]) <= file && |file| <= size
  {
    forall i | 0 <= i < j ensures |Bytes(a[..i])| < size {
      OneMore(a, i);
      BytesPrefix(a, i + 1, j);
    }
    assert Taken(size, a, j);
    StoredPrefix(a, j, k);
  }

  /** A recv asks for at most 256 bytes, and never for more than the size. */
  lemma ChunksAreSmall(size: nat, a: seq<Arrival>, j: nat)
    requires Arrivals(size, a) && j < |a| && a[j].Chunk?
    ensures |a[j].data| <= 256 && |a[j].data| <= size
  {
  }

  /** The arrivals up to the j-th are chunks that did not complete the size, and after them a write fails, or
      recv does. */
  ghost predicate BreaksAt(size: nat, a: seq<Arrival>, j: nat) {
    && Good(a, j) && j < |a| && |Bytes(a[..j])| < size
    && match a[j]
       case Fault => j > 0
       case Chunk(data, written) => |Bytes(a[..j])| + |data| <= size && written < 0
  }

  lemma BeforeBreak(size: nat, a: seq<Arrival>, j: nat)
    requires BreaksAt(size, a, j)
    ensures Taken(size, a, j)
  {
    forall i | 0 <= i < j ensures |Bytes(a[..i])| < size {
      BytesPrefix(a, i, j);
    }
  }

  /** Which error file_recv returns: -123 exactly if a write fails, or recv does after the first chunk, and
      -119 otherwise (the end came too early, a chunk was too large, or the first recv failed). */
  lemma RecvErrors(size: nat, a: seq<Arrival>, k: nat, ret: int, file: seq<byte>)
    requires Arrivals(size, a) && Received(size, a, k, ret, file) && 0 < size <= INT_MAX && ret != size
    ensures ret == -123 <==> exists j: nat :: BreaksAt(size, a, j)
    ensures ret != -123 ==> ret == -119
  {
    IntIffSmall(size);
    if j: nat :| BreaksAt(size, a, j) {
      BeforeBreak(size, a, j);
    }
    if ret == -123 {
      if a[k].Chunk? && a[k].written >= 0 { TakeOne(size, a, k); }
      assert BreaksAt(size, a, k);
    }
  }

  lemma {:induction false} StoredFull(a: seq<Arrival>, size: nat)
    requires Arrivals(size, a) && Good(a, |a|)
    ensures |Stored(a)| <= |Bytes(a)|
    ensures |Stored(a)| == |Bytes(a)| <==> forall i :: 0 <= i < |a| ==> a[i].written == |a[i].data|
    ensures |Stored(a)| == |Bytes(a)| ==> Stored(a) == Bytes(a)
  {
    if a == [] {
    } else {
      var b, last := a[..|a| - 1], a[|a| - 1];
      assert forall i :: 0 <= i < |b| ==> b[i] == a[i];
      StoredFull(b, size);
      assert |Bytes(a)| == |Bytes(b)| + |last.data| && |Stored(a)| == |Stored(b)| + last.written;
      assert (forall i :: 0 <= i < |a| ==> a[i].written == |a[i].data|) <==>
             (forall i :: 0 <= i < |b| ==> b[i].written == |b[i].data|) && last.written == |last.data|;
    }
  }

  /** A successful file_recv has the bytes that arrived in its file exactly if every write was full:
      a short write goes unnoticed. */
  lemma RecvStoresWhatArrived(size: nat, a: seq<Arrival>, k: nat, ret: int, file: seq<byte>)
    requires Arrivals(size, a) && Received(size, a, k, ret, file) && size <= INT_MAX && ret == size
    ensures file == Bytes(a[..k]) <==> forall i :: 0 <= i < k ==> a[i].written == |a[i].data|
  {
    var b := a[..k];
    assert forall i :: 0 <= i < k ==> b[i] == a[i];
    StoredFull(b, size);
  }

  /** A short write that goes unnoticed: two bytes arrive, one is written, and the result is 2. */
  lemma ShortWriteSucceeds(x: byte, y: byte)
    ensures var a := [Chunk([x, y], 1)];
            Arrivals(2, a) && Received(2, a, 1, 2, [x]) && Bytes(a) == [x, y]
  {
    var a := [Chunk([x, y], 1)];
    assert a[..1] == a && a[..0] == [];
    assert Bytes(a) == [x, y] && Stored(a) == [x];
    IntIffSmall(2);
  }

  /** What a complete run returns, for every size: the size exactly if it is an int, a negative number
      for every second range of 2^31 sizes, and an error code for some. */
  lemma CompleteRunReturns(size: nat, a: seq<Arrival>, k: nat, ret: int, file: seq<byte>)
    requires Arrivals(size, a) && Received(size, a, k, ret, file)
    requires |Bytes(a[..k])| == size && (size > 0 || a == [])
    ensures ret == ToInt(size)
    ensures ret == size <==> size <= INT_MAX
    ensures ret >= 0 <==> size % INT_RANGE <= INT_MAX
    ensures ret == ERROR_FILESIZE <==> size % INT_RANGE == INT_RANGE + ERROR_FILESIZE
  {
    IntIffSmall(size);
  }

  /** The sizes the program can pass come from atoi. A size announced as a negative number becomes so
      large that no stream of less than 2^64 - 2^31 bytes completes it: the result is an error. */
  lemma NegativeSizeFails(announced: int, a: seq<Arrival>, k: nat, ret: int, file: seq<byte>)
    requires IsInt(announced) && announced < 0 && |Bytes(a)| < SIZE_LIMIT - INT_MAX - 1
    requires Arrivals(ToSize(announced), a) && Received(ToSize(announced), a, k, ret, file)
    ensures ret == ERROR_FILESIZE || ret == ERROR_IO
  {
    ThroughSize(announced);
    BytesPrefix(a, k, |a|);
    assert a[..|a|] == a;
  }

  /** Hence, for every size the program can pass and every stream of that length, a result that is not
      negative means exactly that the announced number of bytes has arrived. */
  lemma ResultTellsSuccess(announced: int, a: seq<Arrival>, k: nat, ret: int, file: seq<byte>)
    requires IsInt(announced) && |Bytes(a)| < SIZE_LIMIT - INT_MAX - 1
    requires Arrivals(ToSize(announced), a) && Received(ToSize(announced), a, k, ret, file)
    ensures ret >= 0 <==> ret == announced && |Bytes(a[..k])| == announced
  {
    ThroughSize(announced);
    if announced < 0 {
      NegativeSizeFails(announced, a, k, ret, file);
    } else {
      IntIffSmall(announced);
    }
  }

  // ---- End to end ----

  /** A fresh connection: the bytes the sender has put in, those in flight, and what the receiver's calls
      have found. */
  datatype Channel = Channel(sent: seq<byte>, queue: seq<byte>, arrived: seq<Arrival>)

  /** Out: the next n bytes of the sender's stream enter the channel. In: a recv takes n bytes, of which
      write then accepts w. Broken: a recv fails. */
  datatype Move = Out(n: nat) | In(n: nat, w: int) | Broken

  predicate Possible(c: Channel, stream: seq<byte>, m: Move) {
    match m
    case Out(n) => |c.sent| + n <= |stream|
    case In(n, w) => n <= |c.queue|
    case Broken => true
  }

  function Step(c: Channel, stream: seq<byte>, m: Move): Channel
    requires Possible(c, stream, m)
  {
    match m
    case Out(n) =>
      var next := stream[|c.sent|..|c.sent| + n];
      c.(sent := c.sent + next, queue := c.queue + next)
    case In(n, w) => c.(queue := c.queue[n..], arrived := c.arrived + [Chunk(c.queue[..n], w)])
    case Broken => c.(arrived := c.arrived + [Fault])
  }

  /** The channel after some moves, if each was possible in its turn. */
  function Flow(stream: seq<byte>, moves: seq<Move>): Option<Channel>
    decreases |moves|
  {
    if moves == [] then Some(Channel([], [], []))
    else
      match Flow(stream, moves[..|moves| - 1])
      case None => None
      case Some(c) =>
        var m := moves[|moves| - 1];
        if Possible(c, stream, m) then Some(Step(c, stream, m)) else None
  }

  lemma Associative(a: seq<byte>, b: seq<byte>, c: seq<byte>)
    ensures a + (b + c) == (a + b) + c
  {
  }

  lemma ExtendPrefix(s: seq<byte>, t: seq<byte>, n: nat)
    requires s <= t && |s| + n <= |t|
    ensures s + t[|s|..|s| + n] <= t
  {
    assert s + t[|s|..|s| + n] == t[..|s| + n];
  }

  lemma BytesAppend(a: seq<Arrival>, x: Arrival)
    ensures Bytes(a + [x]) == if x.Chunk? then Bytes(a) + x.data else Bytes(a)
  {
    assert (a + [x])[..|a|] == a;
  }

  lemma StepLosesNothing(c: Channel, stream: seq<byte>, m: Move)
    requires Possible(c, stream, m) && c.sent <= stream && Bytes(c.arrived) + c.queue == c.sent
    ensures var d := Step(c, stream, m); d.sent <= stream && Bytes(d.arrived) + d.queue == d.sent
  {
    match m
    case Out(n) =>
      Associative(Bytes(c.arrived), c.queue, stream[|c.sent|..|c.sent| + n]);
      ExtendPrefix(c.sent, stream, n);
    case In(n, w) =>
      BytesAppend(c.arrived, Chunk(c.queue[..n], w));
      Associative(Bytes(c.arrived), c.queue[..n], c.queue[n..]);
      assert c.queue[..n] + c.queue[n..] == c.queue;
    case Broken =>
      BytesAppend(c.arrived, Fault);
  }

  /** At every moment of every interleaving, the bytes received and those in flight make up the bytes
      sent, a beginning of the sender's stream. */
  lemma {:induction false} NothingLost(stream: seq<byte>, moves: seq<Move>, c: Channel)
    requires Flow(stream, moves) == Some(c)
    ensures Bytes(c.arrived) + c.queue == c.sent && c.sent <= stream
    decreases |moves|
  {
    if moves == [] {
    } else {
      var before := Flow(stream, moves[..|moves| - 1]).value;
      NothingLost(stream, moves[..|moves| - 1], before);
      StepLosesNothing(before, stream, moves[|moves| - 1]);
    }
  }

  /** Any run of leading arrivals is a beginning of the sender's stream. */
  lemma ArrivedIsPrefix(stream: seq<byte>, moves: seq<Move>, c: Channel, k: nat)
    requires Flow(stream, moves) == Some(c) && k <= |c.arrived|
    ensures Bytes(c.arrived[..k]) <= stream
  {
    NothingLost(stream, moves, c);
    BytesPrefix(c.arrived, k, |c.arrived|);
    assert c.arrived[..|c.arrived|] == c.arrived;
    var all := Bytes(c.arrived);
    assert all == (all + c.queue)[..|all|];
  }

  /** All writes of the first k chunks were full. */
  ghost predicate FullWrites(a: seq<Arrival>, k: nat) {
    forall i :: 0 <= i < k && i < |a| && a[i].Chunk? ==> a[i].written == |a[i].data|
  }

  /** End to end: file_send's stream goes through the channel to file_recv. Whatever the interleaving, the
      chunking and the sender's fate, a receiver that reports success with full writes has exactly the
      first bytes of the file, as many as were announced to it; with the size of the file, the file. */
  lemma EndToEnd(
    file: seq<byte>, size: nat, results: seq<int>, sendRet: int, stream: seq<byte>, moves: seq<Move>, c: Channel,
    announced: nat, k: nat, ret: int, received: seq<byte>)
    requires Sent(file, size, results, sendRet, stream) && Flow(stream, moves) == Some(c)
    requires Arrivals(announced, c.arrived) && Received(announced, c.arrived, k, ret, received)
    requires announced <= INT_MAX && ret == announced && FullWrites(c.arrived, k)
    ensures announced <= |stream| && received == file[..announced]
    ensures announced == |file| ==> received == file
  {
    RecvStoresWhatArrived(announced, c.arrived, k, ret, received);
    ArrivedIsPrefix(stream, moves, c, k);
    assert received <= stream <= file;
  }

  /** With the file's own size announced, no sendfile, recv or write failing, everything sent and the
      channel drained, both sides report success, whatever the chunking and the interleaving. */
  lemma DrainedTransfer(
    file: seq<byte>, results: seq<int>, sendRet: int, stream: seq<byte>, moves: seq<Move>, c: Channel,
    k: nat, ret: int, received: seq<byte>)
    requires |file| <= INT_MAX && Sent(file, |file|, results, sendRet, stream) && !Failed(results)
    requires Flow(stream, moves) == Some(c) && |c.sent| == |stream| && c.queue == []
    requires Arrivals(|file|, c.arrived) && Good(c.arrived, |c.arrived|)
    requires Received(|file|, c.arrived, k, ret, received)
    ensures sendRet == |file| && ret == |file|
  {
    var a := c.arrived;
    SendsAllIff(file, results, sendRet, stream);
    NothingLost(stream, moves, c);
    assert a[..|a|] == a;
    assert |Bytes(a[..|a|])| == |file|;
    if a != [] {
      assert a[0].Chunk?;
    }
    RecvSucceedsIff(|file|, a, k, ret, received);
  }
}
