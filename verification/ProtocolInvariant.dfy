/** What every step of the transfer protocol keeps. */
module ProtocolInvariant {
  import opened FtpState
  import opened Protocol

  // ---- Phases of a worker's life ----

  /** Instructions of ftp_clean up to and including the one that clears the flag. */
  predicate Early(c: Clean) {
    c.Fclose? || c.NullFile? || c.ClearPath? || c.ClearFlag?
  }

  /** Instructions that take the shared socket down. */
  predicate Teardown(c: Clean) {
    c.CloseListen? || c.ResetPort? || c.CloseSock? || c.ResetSock? || c.ClosePort?
  }

  /** Instructions no thread ever reaches: the client branch, and everything behind a
      check_ftp(ftp, type, false, true) that returns. */
  predicate Stray(pc: WPc) {
    pc.ClientSide? || pc.CheckUnlock? || pc.Returned?
  }

  /** The worker touches the connection's data no more. */
  predicate Gone(pc: WPc) {
    pc.Exiting? || pc.Exited? || pc.Cancelled?
  }

  /** The worker still has to clear its own flag. */
  predicate Active(pc: WPc) {
    !Stray(pc) && !Gone(pc) && (pc.Cleaning? ==> Early(pc.step))
  }

  predicate Closing(pc: WPc) {
    pc.Cleaning? && !Early(pc.step)
  }

  /** The worker has finished ftp_connect successfully and has not cleared its flag. */
  predicate Linked(pc: WPc) {
    match pc
    case ConnUnlock(ok) => ok
    case Open => true
    case StoreFile(_) => true
    case TestFile => true
    case Fileno => true
    case Load => true
    case Transfer => true
    case Report(why) => !why.ConnectFailed?
    case CheckLock(why) => !why.ConnectFailed?
    case CheckTest(why) => !why.ConnectFailed?
    case Cleaning(why, c) => !why.ConnectFailed? && Early(c)
    case _ => false
  }

  /** The worker has not yet stored what fopen returned. */
  predicate BeforeStore(pc: WPc) {
    match pc
    case Start => true
    case ConnLock => true
    case ConnTest => true
    case Accept => true
    case StoreSock(_) => true
    case StorePort => true
    case ConnUnlock(_) => true
    case Open => true
    case StoreFile(_) => true
    case Report(why) => why.ConnectFailed?
    case CheckLock(why) => why.ConnectFailed?
    case CheckTest(why) => why.ConnectFailed?
    case _ => false
  }

  predicate HoldsW(pc: WPc) {
    || pc.ConnTest? || pc.Accept? || pc.StoreSock? || pc.StorePort? || pc.ConnUnlock?
    || pc.CheckTest? || pc.Cleaning? || pc.CheckUnlock?
  }

  predicate HoldsC(pc: CPc) {
    || pc.TestFlag? || pc.CancelWorker? || pc.JoinWorker? || pc.Sweeping? || pc.DropLock?
    || pc.SetupTest? || pc.SetupCreate? || pc.SetupDrop?
  }

  // ---- Which direction the command thread has to itself ----

  /** The command thread has stopped the worker of direction d and not started the next one. */
  predicate Claims(pc: CPc, d: Dir) {
    match pc
    case Idle => false
    case TakeLock(p) => p.Shut? && p.d.Recv? && d.Send?
    case TestFlag(p) => p.Shut? && p.d.Recv? && d.Send?
    case CancelWorker(p) => p.Shut? && p.d.Recv? && d.Send?
    case JoinWorker(p) => p.Shut? && p.d.Recv? && d.Send?
    case Sweeping(p, _) => p.d == d || (p.Shut? && p.d.Recv?)
    case DropLock(p) => p.d == d || (p.Shut? && p.d.Recv?)
    case ErasePath(e, _) => e == d
    case WritePath(e, _) => e == d
    case WriteSize(e, _) => e == d
    case SetupTake(e, _) => e == d
    case SetupTest(e, _) => e == d
    case SetupCreate(e, _) => e == d
    case SetupDrop(e, _, _) => e == d
    case RaiseFlag(e, _) => e == d
    case SetUser(e, _) => e == d
    case Spawn(e, _) => e == d
    case Reply(_, _) => false
    case Unregister => true
    case Free => true
    case Finished => true
  }

  /** The value of a claimed direction's flag. */
  predicate ClaimedFlag(pc: CPc, d: Dir) {
    || (pc.Sweeping? && pc.p.d == d && Early(pc.step))
    || pc.SetUser? || pc.Spawn?
  }

  /** What the lock's owner is in the middle of. */
  datatype Window = Quiet | Accepting | InClean(d: Dir, c: Clean) | GotSock(fd: int) | GotPort

  function WindowW(w: Worker): Window {
    match w.pc
    case Cleaning(_, c) => InClean(w.dir, c)
    case Accept => Accepting
    case StoreSock(fd) => GotSock(fd)
    case StorePort => GotPort
    case _ => Quiet
  }

  function WindowC(pc: CPc): Window {
    if pc.Sweeping? then InClean(pc.p.d, pc.step) else Quiet
  }

  function WindowOf(s: State): Window {
    match s.lock
    case Nobody => Quiet
    case ByCmd => WindowC(s.cmd)
    case ByWorker(i) => if i < |s.workers| then WindowW(s.workers[i]) else Quiet
  }

  // ---- The invariant, part by part ----

  ghost predicate InvLock(s: State) {
    && (s.lock.ByCmd? <==> HoldsC(s.cmd))
    && (s.lock.ByWorker? ==> s.lock.i < |s.workers| && HoldsW(s.workers[s.lock.i].pc))
    && (forall i :: 0 <= i < |s.workers| && HoldsW(s.workers[i].pc) ==> s.lock == ByWorker(i))
  }

  /** An active worker is the one registered for its direction and has its flag up; a worker whose
      direction the command thread claims is gone; a cancelled worker is being joined or dead. */
  ghost predicate WorkerOk(s: State, i: nat)
    requires i < |s.workers|
  {
    var w := s.workers[i];
    var l := s.ftp.At(w.dir);
    && !Stray(w.pc)
    && (Active(w.pc) ==> l.flag && l.id == i && s.ftp.user.Server?)
    && (Closing(w.pc) ==> !l.flag && l.id == i)
    && (Claims(s.cmd, w.dir) ==> Gone(w.pc))
    && (w.cancel ==> w.pc.Cancelled? || (s.cmd.JoinWorker? && s.cmd.p.d == w.dir && l.id == i))
    && (w.pc.Cancelled? ==> w.cancel)
    && (w.joins != 0 ==> w.joins == 1 && w.pc.Cancelled?)
  }

  /** A raised flag has its worker: active, or just cancelled and waiting to be joined. */
  ghost predicate LaneOk(s: State, d: Dir) {
    var l := s.ftp.At(d);
    && (Claims(s.cmd, d) ==> (l.flag <==> ClaimedFlag(s.cmd, d)))
    && (l.flag && !Claims(s.cmd, d) ==>
          && l.id < |s.workers|
          && var w := s.workers[l.id];
             && w.dir == d && w.joins == 0
             && (Active(w.pc) || (w.pc.Cancelled? && s.cmd.JoinWorker? && s.cmd.p.d == d)))
    && ((s.cmd.CancelWorker? || s.cmd.JoinWorker?) && s.cmd.p.d == d ==> l.flag)
    && (s.cmd.JoinWorker? && s.cmd.p.d == d ==> l.id < |s.workers| && s.workers[l.id].cancel)
  }

  ghost predicate InvWorkers(s: State) {
    forall i :: 0 <= i < |s.workers| ==> WorkerOk(s, i)
  }

  ghost predicate InvLanes(s: State) {
    LaneOk(s, Send) && LaneOk(s, Recv)
  }

  /** Accepted sockets with a number ftp_clean is willing to close. */
  ghost function High(k: Kernel): set<int> {
    set x | x in k.transfer && x > 1
  }

  function Big(fd: int): set<int> {
    if fd > 1 then {fd} else {}
  }

  /** The transfer socket, port_open and the kernel agree, up to what the lock's owner is doing. */
  ghost predicate SockOk(f: Ftp, k: Kernel, w: Window) {
    && f.listen !in k.transfer
    && match w
       case Accepting => !f.portOpen && f.sock == -1 && High(k) == {}
       case GotSock(fd) => !f.portOpen && f.sock == -1 && fd >= 0 && High(k) == Big(fd)
       case GotPort => !f.portOpen && f.sock >= 0 && High(k) == Big(f.sock)
       case InClean(_, ResetSock) => High(k) == {}
       case InClean(_, ClosePort) => High(k) == {} && f.sock == -1
       case _ =>
         && High(k) == (if f.portOpen then Big(f.sock) else {})
         && if f.portOpen then f.sock >= 0 else f.sock == -1
  }

  predicate Late(w: Window) {
    w.InClean? && !Early(w.c) && !w.c.Done?
  }

  /** port_open is backed by a flag, except between clearing a flag and the end of that sweep. */
  ghost predicate PortBacked(f: Ftp, w: Window) {
    f.portOpen ==> f.send.flag || f.recv.flag || Late(w)
  }

  ghost predicate InvSock(s: State) {
    SockOk(s.ftp, s.kernel, WindowOf(s)) && PortBacked(s.ftp, WindowOf(s))
  }

  ghost predicate InvLink(s: State) {
    forall i :: 0 <= i < |s.workers| && Linked(s.workers[i].pc) ==>
      && s.ftp.portOpen && s.ftp.sock == s.workers[i].conn
      && !(WindowOf(s).InClean? && Teardown(WindowOf(s).c))
  }

  /** The handle fopen has returned and the worker of direction d has not yet stored. */
  function Flight(s: State, d: Dir): Option<nat> {
    var id := s.ftp.At(d).id;
    if id < |s.workers| && s.workers[id].dir == d && s.workers[id].pc.StoreFile? then s.workers[id].pc.handle else None
  }

  ghost predicate FileOk(f: Ftp, files: set<(Dir, nat)>, w: Window, flight: Option<nat>, d: Dir) {
    var l := f.At(d);
    && (!l.flag ==> l.file.None?)
    && (w == InClean(d, NullFile) ==> l.file.Some?)
    && (w == InClean(d, ClearPath) || w == InClean(d, ClearFlag) ==> l.file.None?)
    && (forall h :: (d, h) in files <==> (l.file == Some(h) && w != InClean(d, NullFile)) || flight == Some(h))
  }

  ghost predicate LaneFileOk(s: State, d: Dir) {
    && FileOk(s.ftp, s.kernel.files, WindowOf(s), Flight(s, d), d)
    && (s.cmd.SetUser? || s.cmd.Spawn? ==> s.cmd.d == d ==> s.ftp.At(d).file.None?)
  }

  ghost predicate InvFiles(s: State) {
    && LaneFileOk(s, Send) && LaneFileOk(s, Recv)
    && (forall i :: 0 <= i < |s.workers| && BeforeStore(s.workers[i].pc) ==> s.ftp.At(s.workers[i].dir).file.None?)
  }

  /** Before ftp_connect has succeeded. */
  predicate Starting(pc: WPc) {
    pc.Start? || pc.ConnLock? || pc.ConnTest? || pc.Accept? || pc.StoreSock? || pc.StorePort?
  }

  /** The path and size in the shared structure are those of the job, until the clean-up erases
      them; what a worker has read of them is what its job says. */
  ghost predicate JobOk(f: Ftp, w: Worker) {
    var l := f.At(w.dir);
    && (Active(w.pc) ==> l.size == w.job.size)
    && (Active(w.pc) && !(w.pc.Cleaning? && w.pc.step.ClearFlag?) ==> l.path == w.job.path)
    && (w.pathUsed.Some? ==> w.pathUsed.value == w.job.path)
    && (w.argsUsed.Some? ==> w.argsUsed.value == (w.conn, w.job.size))
    && (w.argsUsed.Some? ==> !Starting(w.pc))
  }

  /** The worker has executed the step of ftp_clean that resets its file size. */
  predicate SizeErased(pc: WPc) {
    || pc.Exiting? || pc.Exited?
    || (pc.Cleaning? && !Early(pc.step) && !pc.step.ClearSize?)
  }

  ghost predicate Prepared(f: Ftp, d: Dir, job: Job) {
    f.At(d).path == job.path && f.At(d).size == job.size
  }

  ghost predicate CmdJobOk(s: State) {
    var f := s.ftp;
    match s.cmd
    case WriteSize(d, job) => f.At(d).path == job.path
    case SetupTake(d, job) => Prepared(f, d, job)
    case SetupTest(d, job) => Prepared(f, d, job)
    case SetupCreate(d, job) => Prepared(f, d, job)
    case SetupDrop(d, job, _) => Prepared(f, d, job)
    case RaiseFlag(d, job) => Prepared(f, d, job)
    case SetUser(d, job) => Prepared(f, d, job)
    case Spawn(d, job) => Prepared(f, d, job) && f.user.Server?
    case Reply(d, job) =>
      && f.At(d).id < |s.workers|
      && var w := s.workers[f.At(d).id];
         && w.dir == d && w.job == job && !w.cancel
         && f.At(d).size == if SizeErased(w.pc) then 0 else job.size
    case _ => true
  }

  ghost predicate InvJobs(s: State) {
    && CmdJobOk(s)
    && (forall i :: 0 <= i < |s.workers| ==> JobOk(s.ftp, s.workers[i]))
  }

  ghost predicate Inv(s: State) {
    InvLock(s) && InvWorkers(s) && InvLanes(s) && InvSock(s) && InvLink(s) && InvFiles(s) && InvJobs(s)
  }

  lemma InitInv()
    ensures Inv(Init())
  {
  }
}
