/** The transfer metadata of one connection (include/grass.h, ftp_data_t) as a value,
    and the body of ftp_clean as a list of single assignments. */
module FtpState {

  datatype Option<+T> = None | Some(value: T) {
    function Or(default: T): T {
      if Some? then value else default
    }
  }

  datatype Dir = Send | Recv

  /** ftp_user: which of the two programs this structure belongs to. */
  datatype Side = Client | Server

  /** What a get or put asks for. */
  datatype Job = Job(path: string, size: nat)

  /** The fields kept once per direction: sending/receiving, send_id/recv_id, the file
      handle, the path and the size. Threads are named by the order of their creation. */
  datatype Lane = Lane(flag: bool, id: nat, file: Option<nat>, path: string, size: nat)

  datatype Ftp = Ftp(send: Lane, recv: Lane, portOpen: bool, listen: int, port: int, sock: int, user: Side) {
    function At(d: Dir): Lane {
      if d.Send? then send else recv
    }

    function With(d: Dir, l: Lane): Ftp {
      if d.Send? then this.(send := l) else this.(recv := l)
    }
  }

  /** init_ftp_fields. */
  function InitFtp(): Ftp {
    var lane := Lane(false, 0, None, "", 0);
    Ftp(lane, lane, false, -1, -1, -1, Client)
  }

  function Other(d: Dir): Dir {
    if d.Send? then Recv else Send
  }

  /** What the operating system holds for the connection: accepted transfer sockets, listening
      sockets with their ports, and open files with the direction they were opened for. */
  datatype Kernel = Kernel(transfer: set<int>, listeners: map<int, nat>, files: set<(Dir, nat)>) {
    /** close(fd) frees the number, whatever it stood for. */
    function Close(fd: int): Kernel {
      Kernel(transfer - {fd}, listeners - {fd}, files)
    }
  }

  /** The instructions of ftp_clean after the optional cancel and join. The two flags are read in
      one step: the caller's own flag was cleared just before and nobody else can raise it. */
  datatype Clean =
    | Fclose | NullFile | ClearPath | ClearFlag | ClearSize | TestFlags
    | CloseListen | ResetPort | CloseSock | ResetSock | ClosePort | Done

  /** One instruction of ftp_clean for direction d. */
  function CleanStep(f: Ftp, k: Kernel, d: Dir, c: Clean): (Ftp, Kernel, Clean) {
    var l := f.At(d);
    match c
    case Fclose =>
      if l.file.Some? then (f, k.(files := k.files - {(d, l.file.value)}), NullFile) else (f, k, ClearPath)
    case NullFile => (f.With(d, l.(file := None)), k, ClearPath)
    case ClearPath => (f.With(d, l.(path := "")), k, ClearFlag)
    case ClearFlag => (f.With(d, l.(flag := false)), k, ClearSize)
    case ClearSize => (f.With(d, l.(size := 0)), k, TestFlags)
    case TestFlags => (f, k, if !f.recv.flag && !f.send.flag then CloseListen else Done)
    case CloseListen => (f, if f.listen > 1 then k.Close(f.listen) else k, ResetPort)
    case ResetPort => (f.(port := -1), k, CloseSock)
    case CloseSock => (f, if f.sock > 1 then k.Close(f.sock) else k, ResetSock)
    case ResetSock => (f.(sock := -1), k, ClosePort)
    case ClosePort => (f.(portOpen := false), k, Done)
    case Done => (f, k, Done)
  }

  // ---- The whole of ftp_clean ----

  function CleanedLane(l: Lane): Lane {
    l.(file := None, path := "", flag := false, size := 0)
  }

  /** Both directions idle. */
  predicate BothIdle(f: Ftp) {
    !f.recv.flag && !f.send.flag
  }

  /** The fields after ftp_clean for direction d has run without interference. */
  function Cleaned(f: Ftp, d: Dir): Ftp {
    var g := f.With(d, CleanedLane(f.At(d)));
    if BothIdle(g) then g.(port := -1, sock := -1, portOpen := false) else g
  }

  /** What that ftp_clean has closed. */
  function CleanedKernel(f: Ftp, k: Kernel, d: Dir): Kernel {
    var l := f.At(d);
    var k1 := if l.file.Some? then k.(files := k.files - {(d, l.file.value)}) else k;
    if BothIdle(f.With(d, CleanedLane(l))) then
      var k2 := if f.listen > 1 then k1.Close(f.listen) else k1;
      if f.sock > 1 then k2.Close(f.sock) else k2
    else k1
  }

  // ---- The other two critical sections ----

  /** The fields after setup_ftp; created is the port and listening socket it can get, if any. */
  function Listening(f: Ftp, created: Option<(nat, int)>): Ftp {
    if f.portOpen || created.None? then f else f.(port := created.value.0, listen := created.value.1)
  }

  /** The fields after connect_ftp_server; sock is what accept returns, if it is called. */
  function Connecting(f: Ftp, sock: int): Ftp {
    if f.portOpen || sock < 0 then f else f.(sock := sock, portOpen := true)
  }

  // ---- ftp_clean, instruction by instruction ----

  /** How many instructions are left at most. */
  function Left(c: Clean): nat {
    match c
    case Fclose => 11 case NullFile => 10 case ClearPath => 9 case ClearFlag => 8 case ClearSize => 7
    case TestFlags => 6 case CloseListen => 5 case ResetPort => 4 case CloseSock => 3 case ResetSock => 2
    case ClosePort => 1 case Done => 0
  }

  /** The instructions of ftp_clean from c on, one after the other. */
  function Rest(f: Ftp, k: Kernel, d: Dir, c: Clean): (Ftp, Kernel)
    decreases Left(c)
  {
    if c.Done? then (f, k)
    else
      var (f', k', c') := CleanStep(f, k, d, c);
      Rest(f', k', d, c')
  }

  lemma RestTeardown(f: Ftp, k: Kernel, d: Dir)
    ensures Rest(f, k, d, CloseListen) ==
            var k1 := if f.listen > 1 then k.Close(f.listen) else k;
            (f.(port := -1, sock := -1, portOpen := false), if f.sock > 1 then k1.Close(f.sock) else k1)
  {
    var (f1, k1, c1) := CleanStep(f, k, d, CloseListen);
    var (f2, k2, c2) := CleanStep(f1, k1, d, c1);
    var (f3, k3, c3) := CleanStep(f2, k2, d, c2);
    var (f4, k4, c4) := CleanStep(f3, k3, d, c3);
    assert Rest(f, k, d, CloseListen) == Rest(f4, k4, d, c4);
  }

  /** The instructions of ftp_clean in sequence compute Cleaned and CleanedKernel. */
  lemma RestIsCleaned(f: Ftp, k: Kernel, d: Dir)
    ensures Rest(f, k, d, Fclose) == (Cleaned(f, d), CleanedKernel(f, k, d))
  {
    var (f1, k1, c1) := CleanStep(f, k, d, Fclose);
    var (f2, k2, c2) := CleanStep(f1, k1, d, NullFile);
    assert Rest(f, k, d, Fclose) == Rest(f2, k1, d, ClearPath);
    var (f3, k3, c3) := CleanStep(f2, k1, d, ClearPath);
    var (f4, k4, c4) := CleanStep(f3, k3, d, ClearFlag);
    var (f5, k5, c5) := CleanStep(f4, k4, d, ClearSize);
    assert Rest(f2, k1, d, ClearPath) == Rest(f5, k1, d, TestFlags);
    assert f5 == f.With(d, CleanedLane(f.At(d)));
    if BothIdle(f5) {
      RestTeardown(f5, k1, d);
    }
  }
}
