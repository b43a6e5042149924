/** The server side of one connection's file transfers as a small-step transition system:
    the command thread (cmd_get, cmd_put, thread_cleanup) and any number of worker threads
    (ftp_thread_send, ftp_thread_recv) over one ftp_data_t and its clean_lock.

    Every assignment made without the lock is a step of its own, and so is every instruction of
    ftp_clean. Results of system calls are chosen by the action that takes the step. */
module Protocol {
  import opened FtpState

  /** Why a worker calls check_ftp(ftp, type, false, true). */
  datatype Why = ConnectFailed | OpenFailed | FilenoFailed | Transferred

  /** The next instruction of a worker. */
  datatype WPc =
    | Start                           // reads ftp_user
    | ClientSide                      // connect_ftp_client
    | ConnLock | ConnTest             // connect_ftp_server: lock, then test port_open
    | Accept | StoreSock(fd: int) | StorePort
    | ConnUnlock(ok: bool)
    | Open | StoreFile(handle: Option<nat>) | TestFile | Fileno
    | Load                            // do_ftp reads the socket and the size
    | Transfer                        // file_send or file_recv
    | Report(why: Why)                // messages before check_ftp
    | CheckLock(why: Why) | CheckTest(why: Why)
    | Cleaning(why: Why, step: Clean)
    | CheckUnlock(why: Why)           // check_ftp returning to its caller
    | Returned                        // the thread function falls off its end
    | Exiting                         // lock released, about to call pthread_exit
    | Exited
    | Cancelled

  /** conn, pathUsed and argsUsed record what the thread saw in ftp_connect, fopen and do_ftp. */
  datatype Worker = Worker(
    dir: Dir, job: Job, pc: WPc, cancel: bool, joins: nat,
    conn: int, pathUsed: Option<string>, argsUsed: Option<(int, nat)>)

  /** Why the command thread calls check_ftp(ftp, d, true, false): a get (Send) or put (Recv)
      starts, or thread_cleanup runs. */
  datatype Purpose = Begin(d: Dir, job: Job) | Shut(d: Dir)

  /** The next instruction of the command thread. */
  datatype CPc =
    | Idle
    | TakeLock(p: Purpose) | TestFlag(p: Purpose) | CancelWorker(p: Purpose) | JoinWorker(p: Purpose)
    | Sweeping(p: Purpose, step: Clean) | DropLock(p: Purpose)
    | ErasePath(d: Dir, job: Job) | WritePath(d: Dir, job: Job) | WriteSize(d: Dir, job: Job)
    | SetupTake(d: Dir, job: Job) | SetupTest(d: Dir, job: Job)
    | SetupCreate(d: Dir, job: Job) | SetupDrop(d: Dir, job: Job, ok: bool)
    | RaiseFlag(d: Dir, job: Job) | SetUser(d: Dir, job: Job) | Spawn(d: Dir, job: Job)
    | Reply(d: Dir, job: Job)
    | Unregister | Free | Finished

  datatype Owner = Nobody | ByCmd | ByWorker(i: nat)

  datatype State = State(
    ftp: Ftp, kernel: Kernel, lock: Owner, cmd: CPc, workers: seq<Worker>)

  /** Arrive: a get, put or the end of the connection reaches the command thread.
      Cmd, Work: the next instruction of a thread, with the system call's result.
      Die: a pending cancellation takes effect. */
  datatype Action =
    | Arrive(p: Purpose)
    | Cmd(ok: bool, port: nat, fd: int)
    | Work(i: nat, ok: bool, fd: int)
    | Die(i: nat)

  function Init(): State {
    State(InitFtp(), Kernel({}, map[], {}), Nobody, Idle, [])
  }

  predicate Ended(pc: WPc) {
    pc.Exited? || pc.Cancelled?
  }

  /** Instructions that contain a cancellation point: accept, fopen, fclose, close, printf, write,
      sendfile, recv. pthread_mutex_lock is none. */
  predicate CancelPoint(pc: WPc) {
    || pc.Accept? || pc.Open? || pc.Load? || pc.Transfer? || pc.Report?
    || (pc.Cleaning? && (pc.step.Fclose? || pc.step.CloseListen? || pc.step.CloseSock?))
  }

  /** A number the system may hand out as a new descriptor. */
  predicate NewFd(k: Kernel, fd: int) {
    fd >= 0 && fd !in k.transfer && fd !in k.listeners
  }

  /** A port the system may bind a new listening socket to: not one that is in use. */
  predicate NewPort(k: Kernel, port: nat) {
    port > 0 && forall fd :: fd in k.listeners ==> k.listeners[fd] != port
  }

  predicate CmdEnabled(s: State, ok: bool, port: nat, fd: int) {
    match s.cmd
    case Idle => false
    case TakeLock(_) => s.lock.Nobody?
    case SetupTake(_, _) => s.lock.Nobody?
    case JoinWorker(p) =>
      var id := s.ftp.At(p.d).id;
      id < |s.workers| && Ended(s.workers[id].pc)
    case SetupCreate(_, _) => ok ==> NewFd(s.kernel, fd) && NewPort(s.kernel, port)
    case WriteSize(d, _) => ok || d.Send?
    case Finished => false
    case _ => true
  }

  /** accept can only succeed on a descriptor that is open, so it never returns that number. */
  predicate WorkEnabled(s: State, i: nat, ok: bool, fd: int) {
    && i < |s.workers|
    && var w := s.workers[i];
       match w.pc
       case ConnLock => s.lock.Nobody?
       case CheckLock(_) => s.lock.Nobody?
       case Accept => ok ==> NewFd(s.kernel, fd) && fd != s.ftp.listen
       case Open => ok ==> fd >= 0 && (Send, fd) !in s.kernel.files && (Recv, fd) !in s.kernel.files
       case ClientSide => false
       case Returned => false
       case Exited => false
       case Cancelled => false
       case _ => true
  }

  predicate Enabled(s: State, a: Action) {
    match a
    case Arrive(p) => s.cmd.Idle? && (p.Shut? ==> p.d.Send?)
    case Cmd(ok, port, fd) => CmdEnabled(s, ok, port, fd)
    case Work(i, ok, fd) => WorkEnabled(s, i, ok, fd)
    case Die(i) => i < |s.workers| && s.workers[i].cancel && CancelPoint(s.workers[i].pc)
  }

  function CmdNext(s: State, ok: bool, port: nat, fd: int): State
    requires CmdEnabled(s, ok, port, fd)
  {
    var f := s.ftp;
    match s.cmd
    // check_ftp(ftp, d, true, false)
    case TakeLock(p) => s.(lock := ByCmd, cmd := TestFlag(p))
    case TestFlag(p) => s.(cmd := if f.At(p.d).flag then CancelWorker(p) else DropLock(p))
    case CancelWorker(p) =>
      var id := f.At(p.d).id;
      var t := s.(cmd := JoinWorker(p));
      if id < |s.workers| then t.(workers := s.workers[id := s.workers[id].(cancel := true)]) else t
    case JoinWorker(p) =>
      var id := f.At(p.d).id;
      var w := s.workers[id];
      s.(cmd := Sweeping(p, Fclose), workers := s.workers[id := w.(joins := w.joins + 1)])
    case Sweeping(p, c) =>
      var (f', k', c') := CleanStep(f, s.kernel, p.d, c);
      s.(ftp := f', kernel := k', cmd := if c.Done? then DropLock(p) else Sweeping(p, c'))
    case DropLock(p) =>
      s.(lock := Nobody,
         cmd := match p
                case Begin(d, job) => ErasePath(d, job)
                case Shut(d) => if d.Send? then TakeLock(Shut(Recv)) else Unregister)
    // cmd_get, cmd_put
    case ErasePath(d, job) => s.(ftp := f.With(d, f.At(d).(path := "")), cmd := WritePath(d, job))
    case WritePath(d, job) => s.(ftp := f.With(d, f.At(d).(path := job.path)), cmd := WriteSize(d, job))
    case WriteSize(d, job) =>
      if ok then s.(ftp := f.With(d, f.At(d).(size := job.size)), cmd := SetupTake(d, job))
      else s.(cmd := Idle) // check_file_validity refused the path of a get
    // setup_ftp
    case SetupTake(d, job) => s.(lock := ByCmd, cmd := SetupTest(d, job))
    case SetupTest(d, job) => s.(cmd := if f.portOpen then SetupDrop(d, job, true) else SetupCreate(d, job))
    case SetupCreate(d, job) =>
      if ok then
        s.(ftp := f.(port := port, listen := fd),
           kernel := s.kernel.(listeners := s.kernel.listeners[fd := port]),
           cmd := SetupDrop(d, job, true))
      else s.(cmd := SetupDrop(d, job, false))
    case SetupDrop(d, job, good) => s.(lock := Nobody, cmd := if good then RaiseFlag(d, job) else Idle)
    case RaiseFlag(d, job) => s.(ftp := f.With(d, f.At(d).(flag := true)), cmd := SetUser(d, job))
    case SetUser(d, job) => s.(ftp := f.(user := Server), cmd := Spawn(d, job))
    case Spawn(d, job) =>
      s.(ftp := f.With(d, f.At(d).(id := |s.workers|)),
         workers := s.workers + [Worker(d, job, Start, false, 0, -1, None, None)],
         cmd := Reply(d, job))
    case Reply(_, _) => s.(cmd := Idle)
    // thread_cleanup
    case Unregister => s.(cmd := Free)
    case Free => s.(cmd := Finished)
  }

  function Move(s: State, i: nat, pc: WPc): State
    requires i < |s.workers|
  {
    s.(workers := s.workers[i := s.workers[i].(pc := pc)])
  }

  function WorkNext(s: State, i: nat, ok: bool, fd: int): State
    requires WorkEnabled(s, i, ok, fd)
  {
    var w := s.workers[i];
    var f := s.ftp;
    var l := f.At(w.dir);
    match w.pc
    case Start => Move(s, i, if f.user.Server? then ConnLock else ClientSide)
    // connect_ftp_server
    case ConnLock => Move(s, i, ConnTest).(lock := ByWorker(i))
    case ConnTest =>
      if f.portOpen then s.(workers := s.workers[i := w.(pc := ConnUnlock(true), conn := f.sock)])
      else Move(s, i, Accept)
    case Accept =>
      if ok then Move(s, i, StoreSock(fd)).(kernel := s.kernel.(transfer := s.kernel.transfer + {fd}))
      else Move(s, i, ConnUnlock(false))
    case StoreSock(sock) => Move(s, i, StorePort).(ftp := f.(sock := sock))
    case StorePort =>
      s.(ftp := f.(portOpen := true),
         workers := s.workers[i := w.(pc := ConnUnlock(true), conn := f.sock)])
    case ConnUnlock(good) => Move(s, i, if good then Open else Report(ConnectFailed)).(lock := Nobody)
    // the thread function
    case Open =>
      var h := if ok then Some(fd as nat) else None;
      s.(kernel := if ok then s.kernel.(files := s.kernel.files + {(w.dir, fd as nat)}) else s.kernel,
         workers := s.workers[i := w.(pc := StoreFile(h), pathUsed := Some(l.path))])
    case StoreFile(h) => Move(s, i, TestFile).(ftp := f.With(w.dir, l.(file := h)))
    case TestFile => Move(s, i, if l.file.Some? then Fileno else Report(OpenFailed))
    case Fileno => Move(s, i, if ok then Load else Report(FilenoFailed))
    case Load => s.(workers := s.workers[i := w.(pc := Transfer, argsUsed := Some((f.sock, l.size)))])
    case Transfer => Move(s, i, Report(Transferred))
    // check_ftp(ftp, type, false, true)
    case Report(why) => Move(s, i, CheckLock(why))
    case CheckLock(why) => Move(s, i, CheckTest(why)).(lock := ByWorker(i))
    case CheckTest(why) => Move(s, i, if l.flag then Cleaning(why, Fclose) else CheckUnlock(why))
    case Cleaning(why, c) =>
      if c.Done? then Move(s, i, Exiting).(lock := Nobody)
      else
        var (f', k', c') := CleanStep(f, s.kernel, w.dir, c);
        Move(s, i, Cleaning(why, c')).(ftp := f', kernel := k')
    case CheckUnlock(why) =>
      Move(s, i, match why
                 case ConnectFailed => Open
                 case OpenFailed => Fileno
                 case FilenoFailed => Load
                 case Transferred => Returned).(lock := Nobody)
    case Exiting => Move(s, i, Exited)
  }

  function Next(s: State, a: Action): State
    requires Enabled(s, a)
  {
    match a
    case Arrive(p) => s.(cmd := TakeLock(p))
    case Cmd(ok, port, fd) => CmdNext(s, ok, port, fd)
    case Work(i, ok, fd) => WorkNext(s, i, ok, fd)
    case Die(i) => Move(s, i, Cancelled)
  }

  /** The state after a whole run, if every action was enabled in its turn. */
  function Run(s: State, acts: seq<Action>): Option<State>
    decreases |acts|
  {
    if acts == [] then Some(s)
    else if Enabled(s, acts[0]) then Run(Next(s, acts[0]), acts[1..])
    else None
  }
}
