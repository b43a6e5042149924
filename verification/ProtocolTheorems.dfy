/** Properties of every run of the transfer protocol from its initial state. */
module ProtocolTheorems {
  import opened FtpState
  import opened Protocol
  import opened ProtocolInvariant
  import opened ProtocolPreservation

  ghost predicate Reaches(acts: seq<Action>, s: State) {
    Run(Init(), acts) == Some(s)
  }

  lemma ReachableInv(acts: seq<Action>, s: State)
    requires Reaches(acts, s)
    ensures Inv(s)
  {
    InitInv();
    RunKeeps(Init(), acts);
  }

  // ---- One worker per direction ----

  /** A worker that still has to clean up is the only one of its direction, is the one registered
      in send_id or recv_id, and its flag is up; so the flag test inside its own check_ftp succeeds,
      that call never returns, and the code behind it is never reached. */
  lemma OneWorkerPerDirection(acts: seq<Action>, s: State, i: nat, j: nat)
    requires Reaches(acts, s) && i < |s.workers| && j < |s.workers|
    ensures Active(s.workers[i].pc) ==> s.ftp.At(s.workers[i].dir).flag && s.ftp.At(s.workers[i].dir).id == i
    ensures Active(s.workers[i].pc) && Active(s.workers[j].pc) && s.workers[i].dir == s.workers[j].dir ==> i == j
    ensures s.workers[i].pc.CheckTest? ==> s.ftp.At(s.workers[i].dir).flag
    ensures !Stray(s.workers[i].pc)
  {
    ReachableInv(acts, s);
    assert WorkerOk(s, i) && WorkerOk(s, j);
  }

  // ---- Socket stability ----

  /** The worker stays connected to the same socket, or its clean-up has begun. */
  predicate LinkKept(w: Worker, w': Worker) {
    || (Linked(w.pc) && Linked(w'.pc) && w'.conn == w.conn)
    || Closing(w'.pc) || Gone(w'.pc)
  }

  predicate PastConnect(pc: WPc) {
    Linked(pc) || Closing(pc) || Gone(pc)
  }

  lemma LinkWork(s: State, i: nat, ok: bool, fd: int)
    requires InvWorkers(s) && WorkEnabled(s, i, ok, fd) && PastConnect(s.workers[i].pc)
    ensures var t := WorkNext(s, i, ok, fd); i < |t.workers| && LinkKept(s.workers[i], t.workers[i])
  {
    assert WorkerOk(s, i);
  }

  lemma LinkStep(s: State, a: Action, i: nat)
    requires InvWorkers(s) && Enabled(s, a) && i < |s.workers| && PastConnect(s.workers[i].pc)
    ensures var t := Next(s, a); i < |t.workers| && LinkKept(s.workers[i], t.workers[i])
  {
    if a.Work? {
      if a.i == i { LinkWork(s, i, a.ok, a.fd); }
    }
  }

  lemma LinkTransitive(u: Worker, v: Worker, w: Worker)
    requires LinkKept(u, v) && LinkKept(v, w)
    ensures LinkKept(u, w)
  {
  }

  lemma {:induction false} LinkRun(s: State, acts: seq<Action>, t: State, i: nat)
    requires Inv(s) && Run(s, acts) == Some(t) && i < |s.workers| && PastConnect(s.workers[i].pc)
    ensures i < |t.workers| && LinkKept(s.workers[i], t.workers[i])
    decreases |acts|
  {
    if acts == [] {
    } else {
      StepKeeps(s, acts[0]);
      LinkStep(s, acts[0], i);
      var s1 := Next(s, acts[0]);
      LinkRun(s1, acts[1..], t, i);
      LinkTransitive(s.workers[i], s1.workers[i], t.workers[i]);
    }
  }

  /** Once ftp_connect has succeeded, whatever every thread does next, the worker finds port_open
      true and the same open transfer socket until it clears its flag or is cancelled. */
  lemma SocketIsStable(before: seq<Action>, s: State, acts: seq<Action>, t: State, i: nat)
    requires Reaches(before, s) && i < |s.workers| && Linked(s.workers[i].pc)
    requires Run(s, acts) == Some(t)
    ensures i < |t.workers|
    ensures Closing(t.workers[i].pc) || Gone(t.workers[i].pc)
            || (t.ftp.portOpen && t.ftp.sock == s.ftp.sock && (t.ftp.sock > 1 ==> t.ftp.sock in t.kernel.transfer))
  {
    ReachableInv(before, s);
    RunKeeps(s, acts);
    LinkRun(s, acts, t, i);
    if Linked(t.workers[i].pc) {
      assert t.ftp.portOpen;
      if t.lock.ByWorker? { assert WorkerOk(t, t.lock.i); }
      if t.ftp.sock > 1 { assert t.ftp.sock in High(t.kernel); }
    }
  }

  // ---- Lock discipline ----

  predicate TakesLock(s: State, a: Action) {
    match a
    case Arrive(_) => false
    case Cmd(_, _, _) => s.cmd.TakeLock? || s.cmd.SetupTake?
    case Work(i, _, _) => i < |s.workers| && (s.workers[i].pc.ConnLock? || s.workers[i].pc.CheckLock?)
    case Die(_) => false
  }

  /** The action executes a pthread_mutex_unlock. */
  predicate DropsLock(s: State, a: Action) {
    match a
    case Arrive(_) => false
    case Cmd(_, _, _) => s.cmd.DropLock? || s.cmd.SetupDrop?
    case Work(i, _, _) =>
      && i < |s.workers|
      && (s.workers[i].pc.ConnUnlock? || s.workers[i].pc.CheckUnlock?
          || (s.workers[i].pc.Cleaning? && s.workers[i].pc.step.Done?))
    case Die(_) => false
  }

  function Actor(a: Action): Owner {
    match a
    case Arrive(_) => ByCmd
    case Cmd(_, _, _) => ByCmd
    case Work(i, _, _) => ByWorker(i)
    case Die(i) => ByWorker(i)
  }

  function Count(s: State, acts: seq<Action>, what: (State, Action) -> bool): nat
    decreases |acts|
  {
    if acts == [] || !Enabled(s, acts[0]) then 0
    else (if what(s, acts[0]) then 1 else 0) + Count(Next(s, acts[0]), acts[1..], what)
  }

  lemma LockStep(s: State, a: Action)
    requires InvLock(s) && InvWorkers(s) && Enabled(s, a)
    ensures TakesLock(s, a) ==> s.lock.Nobody? && Next(s, a).lock == Actor(a)
    ensures DropsLock(s, a) ==> s.lock == Actor(a) && Next(s, a).lock.Nobody?
    ensures !TakesLock(s, a) && !DropsLock(s, a) ==> Next(s, a).lock == s.lock
    ensures a.Die? ==> s.lock != Actor(a)
  {
    if a.Work? || a.Die? { assert WorkerOk(s, a.i); }
  }

  /** The lock has one owner; whoever unlocks is that owner; and no worker is cancelled while it
      owns the lock. */
  lemma LockDiscipline(acts: seq<Action>, s: State, a: Action)
    requires Reaches(acts, s) && Enabled(s, a)
    ensures TakesLock(s, a) ==> s.lock.Nobody? && Next(s, a).lock == Actor(a)
    ensures DropsLock(s, a) ==> s.lock == Actor(a) && Next(s, a).lock.Nobody?
    ensures !TakesLock(s, a) && !DropsLock(s, a) ==> Next(s, a).lock == s.lock
    ensures a.Die? ==> s.lock != Actor(a)
  {
    ReachableInv(acts, s);
    LockStep(s, a);
  }

  lemma {:induction false} LockCount(s: State, acts: seq<Action>, t: State)
    requires Inv(s) && Run(s, acts) == Some(t)
    ensures Count(s, acts, TakesLock) + (if s.lock.Nobody? then 0 else 1)
         == Count(s, acts, DropsLock) + (if t.lock.Nobody? then 0 else 1)
    decreases |acts|
  {
    if acts == [] {
    } else {
      var a := acts[0];
      LockStep(s, a);
      StepKeeps(s, a);
      LockCount(Next(s, a), acts[1..], t);
    }
  }

  /** Over a whole run every acquisition is released exactly once, but for the one still held. */
  lemma LockBalance(acts: seq<Action>, s: State)
    requires Reaches(acts, s)
    ensures Count(Init(), acts, TakesLock) == Count(Init(), acts, DropsLock) + (if s.lock.Nobody? then 0 else 1)
  {
    InitInv();
    LockCount(Init(), acts, s);
  }

  /** A thread is joined at most once, only after it was cancelled, and never after it left
      through pthread_exit. */
  lemma JoinedOnce(acts: seq<Action>, s: State, i: nat)
    requires Reaches(acts, s) && i < |s.workers|
    ensures s.workers[i].joins <= 1
    ensures s.workers[i].joins == 1 ==> s.workers[i].pc.Cancelled?
    ensures s.cmd.JoinWorker? && s.ftp.At(s.cmd.p.d).id == i ==>
              s.workers[i].joins == 0 && !s.workers[i].pc.Exiting? && !s.workers[i].pc.Exited?
  {
    ReachableInv(acts, s);
    assert WorkerOk(s, i);
  }

  // ---- The end of the connection ----

  predicate Leaving(pc: CPc) {
    pc.Unregister? || pc.Free? || pc.Finished?
  }

  /** With every worker gone and the command thread past its two check_ftp calls, a run reads and
      writes nothing of the transfer data: any other contents give the same run. */
  lemma {:induction false} LeavingRun(s: State, acts: seq<Action>, junk: Ftp)
    requires Leaving(s.cmd) && s.lock.Nobody? && forall i :: 0 <= i < |s.workers| ==> Gone(s.workers[i].pc)
    ensures Run(s, acts).Some? <==> Run(s.(ftp := junk), acts).Some?
    ensures Run(s, acts).Some? ==>
              && Run(s.(ftp := junk), acts).value == Run(s, acts).value.(ftp := junk)
              && Run(s, acts).value.ftp == s.ftp && Run(s, acts).value.kernel == s.kernel
    decreases |acts|
  {
    if acts == [] {
    } else {
      var a := acts[0];
      var s' := s.(ftp := junk);
      assert Enabled(s, a) <==> Enabled(s', a);
      if Enabled(s, a) {
        var t := Next(s, a);
        assert Next(s', a) == t.(ftp := junk);
        LeavingRun(t, acts[1..], junk);
      }
    }
  }

  lemma {:induction false} StayingGone(s: State, acts: seq<Action>, t: State)
    requires Leaving(s.cmd) && Run(s, acts) == Some(t)
    requires forall i :: 0 <= i < |s.workers| ==> Gone(s.workers[i].pc)
    ensures |t.workers| == |s.workers| && forall i :: 0 <= i < |t.workers| ==> Gone(t.workers[i].pc)
    decreases |acts|
  {
    if acts == [] {
    } else {
      StayingGone(Next(s, acts[0]), acts[1..], t);
    }
  }

  lemma {:induction false} StayingUnlocked(s: State, acts: seq<Action>, t: State)
    requires Leaving(s.cmd) && s.lock.Nobody? && Run(s, acts) == Some(t)
    requires forall i :: 0 <= i < |s.workers| ==> Gone(s.workers[i].pc)
    ensures t.lock.Nobody? && Count(s, acts, TakesLock) == 0 && Count(s, acts, DropsLock) == 0
    decreases |acts|
  {
    if acts == [] {
    } else {
      StayingUnlocked(Next(s, acts[0]), acts[1..], t);
    }
  }

  /** When thread_cleanup has made its two check_ftp calls, no thread touches the connection's
      ftp_data, its mutex included, ever again, so freeing it is safe in every schedule. */
  lemma CleanupIsSafe(before: seq<Action>, s: State, acts: seq<Action>, t: State, junk: Ftp)
    requires Reaches(before, s) && Leaving(s.cmd) && Run(s, acts) == Some(t)
    ensures t.ftp == s.ftp && t.kernel == s.kernel && |t.workers| == |s.workers|
    ensures Run(s.(ftp := junk), acts) == Some(t.(ftp := junk))
    ensures forall i :: 0 <= i < |t.workers| ==> Gone(t.workers[i].pc)
    ensures s.lock.Nobody? && t.lock.Nobody? && Count(s, acts, TakesLock) == 0 && Count(s, acts, DropsLock) == 0
  {
    ReachableInv(before, s);
    forall i | 0 <= i < |s.workers| ensures Gone(s.workers[i].pc) {
      assert WorkerOk(s, i);
    }
    if s.lock.ByWorker? { assert false; }
    LeavingRun(s, acts, junk);
    StayingGone(s, acts, t);
    StayingUnlocked(s, acts, t);
  }

  // ---- Resources ----

  /** Whenever the lock is free, the accepted sockets still open (with a number above 1, the only
      ones ftp_clean closes) are exactly the current transfer socket if port_open, else none; and
      port_open means that a transfer is flagged. */
  lemma SocketConservation(acts: seq<Action>, s: State)
    requires Reaches(acts, s) && s.lock.Nobody?
    ensures (set fd | fd in s.kernel.transfer && fd > 1) ==
            if s.ftp.portOpen && s.ftp.sock > 1 then {s.ftp.sock} else {}
    ensures s.ftp.portOpen <==> s.ftp.sock != -1
    ensures s.ftp.portOpen ==> s.ftp.send.flag || s.ftp.recv.flag
  {
    ReachableInv(acts, s);
    assert (set fd | fd in s.kernel.transfer && fd > 1) == High(s.kernel);
  }

  /** close(file_transfer_socket) always closes a descriptor that is open. */
  lemma SocketClosedOnce(acts: seq<Action>, s: State)
    requires Reaches(acts, s) && WindowOf(s).InClean? && WindowOf(s).c.CloseSock? && s.ftp.sock > 1
    ensures s.ftp.sock in s.kernel.transfer
  {
    ReachableInv(acts, s);
    assert s.ftp.sock in High(s.kernel);
  }

  /** The open files of a direction are exactly the stored handle, apart from the instant between
      fopen and its assignment and the one between fclose and its assignment. */
  lemma FileConservation(acts: seq<Action>, s: State, d: Dir)
    requires Reaches(acts, s)
    requires WindowOf(s) != InClean(d, NullFile) && Flight(s, d).None?
    ensures forall h :: (d, h) in s.kernel.files <==> s.ftp.At(d).file == Some(h)
    ensures !s.ftp.At(d).flag ==> s.ftp.At(d).file.None?
  {
    ReachableInv(acts, s);
    assert LaneFileOk(s, d);
  }

  /** fopen runs only when nothing is open in that direction, and fclose gets an open handle. */
  lemma FilesOpenAndCloseInTurn(acts: seq<Action>, s: State, i: nat, d: Dir)
    requires Reaches(acts, s) && i < |s.workers|
    ensures s.workers[i].pc.Open? ==> forall h :: (s.workers[i].dir, h) !in s.kernel.files
    ensures WindowOf(s) == InClean(d, Fclose) && s.ftp.At(d).file.Some? ==>
              (d, s.ftp.At(d).file.value) in s.kernel.files
  {
    ReachableInv(acts, s);
    assert WorkerOk(s, i) && LaneFileOk(s, d) && LaneFileOk(s, s.workers[i].dir);
  }

  // ---- Jobs ----

  /** A worker opens the path and transfers the size set by the command that spawned it, on the
      socket it connected, whatever commands came later. */
  lemma WorkerUsesItsJob(acts: seq<Action>, s: State, i: nat)
    requires Reaches(acts, s) && i < |s.workers|
    ensures s.workers[i].pathUsed.Some? ==> s.workers[i].pathUsed.value == s.workers[i].job.path
    ensures s.workers[i].argsUsed.Some? ==> s.workers[i].argsUsed.value == (s.workers[i].conn, s.workers[i].job.size)
    ensures Active(s.workers[i].pc) && !s.workers[i].pc.Cleaning? ==>
              && s.ftp.At(s.workers[i].dir).path == s.workers[i].job.path
              && s.ftp.At(s.workers[i].dir).size == s.workers[i].job.size
  {
    ReachableInv(acts, s);
    assert JobOk(s.ftp, s.workers[i]);
  }

  /** The reply to a get reads the size without the lock. It announces the size of the file exactly
      if the spawned worker has not yet reset it (or the file is empty). */
  lemma ReplyIsExact(acts: seq<Action>, s: State)
    requires Reaches(acts, s) && s.cmd.Reply?
    ensures var l := s.ftp.At(s.cmd.d);
            && l.id < |s.workers| && s.workers[l.id].job == s.cmd.job
            && (l.size == s.cmd.job.size <==> (!SizeErased(s.workers[l.id].pc) || s.cmd.job.size == 0))
  {
    ReachableInv(acts, s);
  }

  /** Which request a step takes up, if any. */
  function Requested(a: Action): seq<(Dir, Job)> {
    if a.Arrive? && a.p.Begin? then [(a.p.d, a.p.job)] else []
  }

  /** The transfers asked for by the gets and puts of a run. */
  function Requests(acts: seq<Action>): seq<(Dir, Job)> {
    if acts == [] then []
    else Requested(acts[0]) + Requests(acts[1..])
  }

  /** The transfer the command thread is working on. */
  function Pending(pc: CPc): Option<(Dir, Job)> {
    match pc
    case TakeLock(p) => if p.Begin? then Some((p.d, p.job)) else None
    case TestFlag(p) => if p.Begin? then Some((p.d, p.job)) else None
    case CancelWorker(p) => if p.Begin? then Some((p.d, p.job)) else None
    case JoinWorker(p) => if p.Begin? then Some((p.d, p.job)) else None
    case Sweeping(p, _) => if p.Begin? then Some((p.d, p.job)) else None
    case DropLock(p) => if p.Begin? then Some((p.d, p.job)) else None
    case ErasePath(d, job) => Some((d, job))
    case WritePath(d, job) => Some((d, job))
    case WriteSize(d, job) => Some((d, job))
    case SetupTake(d, job) => Some((d, job))
    case SetupTest(d, job) => Some((d, job))
    case SetupCreate(d, job) => Some((d, job))
    case SetupDrop(d, job, _) => Some((d, job))
    case RaiseFlag(d, job) => Some((d, job))
    case SetUser(d, job) => Some((d, job))
    case Spawn(d, job) => Some((d, job))
    case _ => None
  }

  function Spawned(s: State): seq<(Dir, Job)> {
    seq(|s.workers|, i requires 0 <= i < |s.workers| => (s.workers[i].dir, s.workers[i].job))
  }

  function PendingBag(s: State): multiset<(Dir, Job)> {
    if Pending(s.cmd).Some? then multiset{Pending(s.cmd).value} else multiset{}
  }

  lemma SameSpawned(s: State, t: State)
    requires |s.workers| == |t.workers|
    requires forall i :: 0 <= i < |s.workers| ==>
               t.workers[i].dir == s.workers[i].dir && t.workers[i].job == s.workers[i].job
    ensures Spawned(t) == Spawned(s)
  {
  }

  lemma SpawnPending(s: State, ok: bool, port: nat, fd: int)
    requires CmdEnabled(s, ok, port, fd) && s.cmd.Spawn?
    ensures var t := CmdNext(s, ok, port, fd);
            multiset(Spawned(t)) + PendingBag(t) == multiset(Spawned(s)) + PendingBag(s)
  {
    var t := CmdNext(s, ok, port, fd);
    assert Spawned(t) == Spawned(s) + [(s.cmd.d, s.cmd.job)];
  }

  lemma CmdPending(s: State, ok: bool, port: nat, fd: int)
    requires CmdEnabled(s, ok, port, fd) && !s.cmd.Spawn?
    ensures var t := CmdNext(s, ok, port, fd);
            Spawned(t) == Spawned(s) && (Pending(t.cmd) == Pending(s.cmd) || Pending(t.cmd).None?)
  {
    SameSpawned(s, CmdNext(s, ok, port, fd));
  }

  lemma WorkPending(s: State, i: nat, ok: bool, fd: int)
    requires WorkEnabled(s, i, ok, fd)
    ensures Spawned(WorkNext(s, i, ok, fd)) == Spawned(s) && WorkNext(s, i, ok, fd).cmd == s.cmd
  {
    var t := WorkNext(s, i, ok, fd);
    assert t.workers == s.workers[i := t.workers[i]];
    assert t.workers[i].dir == s.workers[i].dir && t.workers[i].job == s.workers[i].job;
    SameSpawned(s, t);
  }

  lemma PendingStep(s: State, a: Action)
    requires Enabled(s, a)
    ensures var t := Next(s, a);
            multiset(Spawned(t)) + PendingBag(t) <= multiset(Spawned(s)) + PendingBag(s) + multiset(Requested(a))
  {
    match a
    case Cmd(ok, port, fd) =>
      if s.cmd.Spawn? { SpawnPending(s, ok, port, fd); } else { CmdPending(s, ok, port, fd); }
    case Arrive(p) =>
      assert Spawned(Next(s, a)) == Spawned(s);
    case Work(i, ok, fd) => WorkPending(s, i, ok, fd);
    case Die(i) => SameSpawned(s, Next(s, a));
  }

  /** The threads started, and the one being prepared, against the requests of the run. */
  lemma {:induction false} SpawnedRun(s: State, acts: seq<Action>, t: State)
    requires Run(s, acts) == Some(t)
    ensures multiset(Spawned(t)) + PendingBag(t) <= multiset(Spawned(s)) + PendingBag(s) + multiset(Requests(acts))
    decreases |acts|
  {
    if acts == [] {
    } else {
      PendingStep(s, acts[0]);
      SpawnedRun(Next(s, acts[0]), acts[1..], t);
      assert Requests(acts) == Requested(acts[0]) + Requests(acts[1..]);
    }
  }

  /** Every worker thread was asked for by a get or put of its own: no request starts two. */
  lemma WorkersWereAskedFor(acts: seq<Action>, s: State)
    requires Reaches(acts, s)
    ensures multiset(Spawned(s)) <= multiset(Requests(acts))
  {
    SpawnedRun(Init(), acts, s);
    assert Spawned(Init()) == [] && PendingBag(Init()) == multiset{};
    var mine, asked := multiset(Spawned(s)), multiset(Requests(acts));
    assert mine + PendingBag(s) <= asked;
    assert forall x :: mine[x] <= (mine + PendingBag(s))[x];
  }

  // ---- Progress ----

  datatype Thread = CmdThread | WorkerThread(i: nat)

  predicate Owns(s: State, t: Thread) {
    match t
    case CmdThread => s.lock.ByCmd?
    case WorkerThread(i) => s.lock == ByWorker(i)
  }

  predicate WaitsForLock(pc: WPc) {
    pc.ConnLock? || pc.CheckLock?
  }

  /** Thread t can do nothing until thread u does: it wants the lock u owns, or joins u. */
  predicate Waits(s: State, t: Thread, u: Thread) {
    match t
    case CmdThread =>
      || ((s.cmd.TakeLock? || s.cmd.SetupTake?) && Owns(s, u))
      || (s.cmd.JoinWorker? && u.WorkerThread? && u.i == s.ftp.At(s.cmd.p.d).id
          && u.i < |s.workers| && !Ended(s.workers[u.i].pc))
    case WorkerThread(i) => i < |s.workers| && WaitsForLock(s.workers[i].pc) && Owns(s, u)
  }

  ghost predicate WaitCycle(s: State, p: seq<Thread>) {
    && |p| >= 2 && p[0] == p[|p| - 1]
    && forall k :: 0 <= k < |p| - 1 ==> Waits(s, p[k], p[k + 1])
  }

  /** The command thread joins a worker while holding the lock that worker wants. */
  predicate JoinDeadlock(s: State) {
    && s.cmd.JoinWorker?
    && var id := s.ftp.At(s.cmd.p.d).id;
       id < |s.workers| && WaitsForLock(s.workers[id].pc)
  }

  lemma CycleMember(s: State, p: seq<Thread>, k: nat)
    requires Inv(s) && WaitCycle(s, p) && k < |p| - 1
    ensures JoinDeadlock(s)
    ensures p[k].CmdThread? || p[k] == WorkerThread(s.ftp.At(s.cmd.p.d).id)
  {
    var next := if k + 1 < |p| - 1 then k + 1 else 0;
    assert p[next] == p[k + 1];
    assert Waits(s, p[k], p[next]) && Waits(s, p[next], p[next + 1]);
    var after := if next + 1 < |p| - 1 then next + 1 else 0;
    assert p[after] == p[next + 1];
    assert Waits(s, p[after], p[after + 1]);
    var before := if k > 0 then k - 1 else |p| - 2;
    assert p[before + 1] == p[k];
    assert Waits(s, p[before], p[before + 1]);
  }

  /** Exactly one kind of cyclic wait exists: the command thread in pthread_join with the lock, and
      the joined worker wanting the lock. The two workers never wait for each other. */
  lemma OnlyCyclicWait(acts: seq<Action>, s: State)
    requires Reaches(acts, s)
    ensures (exists p: seq<Thread> :: WaitCycle(s, p)) <==> JoinDeadlock(s)
    ensures forall p: seq<Thread>, k: nat :: WaitCycle(s, p) && 0 <= k < |p| ==>
              p[k].CmdThread? || p[k] == WorkerThread(s.ftp.At(s.cmd.p.d).id)
  {
    ReachableInv(acts, s);
    forall p: seq<Thread>, k: nat | WaitCycle(s, p) && 0 <= k < |p|
      ensures JoinDeadlock(s) && (p[k].CmdThread? || p[k] == WorkerThread(s.ftp.At(s.cmd.p.d).id))
    {
      CycleMember(s, p, if k < |p| - 1 then k else 0);
    }
    if JoinDeadlock(s) {
      var w := WorkerThread(s.ftp.At(s.cmd.p.d).id);
      assert WaitCycle(s, [CmdThread, w, CmdThread]);
    }
    if exists p: seq<Thread> :: WaitCycle(s, p) {
      var p :| WaitCycle(s, p);
      CycleMember(s, p, 0);
    }
  }

  /** Nothing can happen but the arrival of a command. */
  ghost predicate Stuck(s: State) {
    forall a :: Enabled(s, a) ==> a.Arrive?
  }

  ghost predicate AllResting(s: State) {
    && (s.cmd.Idle? || s.cmd.Finished?)
    && forall i :: 0 <= i < |s.workers| ==> Ended(s.workers[i].pc)
  }

  ghost predicate Jammed(s: State) {
    && JoinDeadlock(s)
    && forall i :: 0 <= i < |s.workers| ==> Ended(s.workers[i].pc) || WaitsForLock(s.workers[i].pc)
  }

  lemma StuckMeans(s: State)
    requires Inv(s) && Stuck(s)
    ensures AllResting(s) || Jammed(s)
  {
    forall i | 0 <= i < |s.workers|
      ensures Ended(s.workers[i].pc) || (WaitsForLock(s.workers[i].pc) && !s.lock.Nobody?)
    {
      assert WorkerOk(s, i);
      assert !Enabled(s, Work(i, false, 0));
    }
    assert !Enabled(s, Cmd(false, 0, 0)) && !Enabled(s, Cmd(true, 1, 0));
    assert !s.lock.ByWorker?;
    if s.cmd.JoinWorker? {
      assert LaneOk(s, s.cmd.p.d);
    }
  }

  lemma JammedIsStuck(s: State)
    requires Inv(s) && Jammed(s)
    ensures Stuck(s)
  {
  }

  lemma RestingIsStuck(s: State)
    requires Inv(s) && AllResting(s)
    ensures Stuck(s)
  {
  }

  /** Counting arriving connections and bytes as steps the environment can always supply, the server
      side of a connection stops moving exactly when it waits for a command with every worker ended,
      or when the join deadlock has drawn in every worker that is left. */
  lemma ExactProgress(acts: seq<Action>, s: State)
    requires Reaches(acts, s)
    ensures Stuck(s) <==> AllResting(s) || Jammed(s)
  {
    ReachableInv(acts, s);
    if Stuck(s) {
      StuckMeans(s);
    }
    if Jammed(s) {
      JammedIsStuck(s);
    }
    if AllResting(s) {
      RestingIsStuck(s);
    }
  }

  lemma DeadlockStep(s: State, a: Action)
    requires InvLock(s) && InvWorkers(s) && JoinDeadlock(s) && Enabled(s, a)
    ensures JoinDeadlock(Next(s, a))
  {
    if a.Work? || a.Die? {
      assert WorkerOk(s, a.i);
    }
  }

  lemma {:induction false} DeadlockRun(s: State, acts: seq<Action>, t: State)
    requires Inv(s) && JoinDeadlock(s) && Run(s, acts) == Some(t)
    ensures JoinDeadlock(t)
    decreases |acts|
  {
    if acts == [] {
    } else {
      var a := acts[0];
      if a.Work? || a.Die? { assert WorkerOk(s, a.i); }
      DeadlockStep(s, a);
      StepKeeps(s, a);
      DeadlockRun(Next(s, a), acts[1..], t);
    }
  }

  /** The deadlock is final. */
  lemma DeadlockIsFinal(before: seq<Action>, s: State, acts: seq<Action>, t: State)
    requires Reaches(before, s) && JoinDeadlock(s) && Run(s, acts) == Some(t)
    ensures JoinDeadlock(t)
  {
    ReachableInv(before, s);
    DeadlockRun(s, acts, t);
  }
}
