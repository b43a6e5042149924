/** Every action of the transfer protocol keeps its invariant. */
module ProtocolPreservation {
  import opened FtpState
  import opened Protocol
  import opened ProtocolInvariant

  // ---- Steps of a worker ----

  /** What any step of worker i leaves alone, and how its phase may change. */
  ghost predicate WorkFrame(s: State, t: State, i: nat)
    requires i < |s.workers| && i < |t.workers|
  {
    var w, w' := s.workers[i], t.workers[i];
    var l, l' := s.ftp.At(w.dir), t.ftp.At(w.dir);
    && t.workers == s.workers[i := w'] && t.cmd == s.cmd && t.ftp.user == s.ftp.user
    && w'.dir == w.dir && w'.job == w.job && w'.cancel == w.cancel && w'.joins == w.joins
    && t.ftp.At(Other(w.dir)) == s.ftp.At(Other(w.dir)) && l'.id == l.id
    && !Ended(w.pc) && (l.flag && !l'.flag ==> Active(w.pc))
    && !Stray(w'.pc) && (w'.pc.Cancelled? ==> w'.cancel) && (Gone(w.pc) ==> Gone(w'.pc))
    && (Active(w'.pc) ==> Active(w.pc)) && (Closing(w'.pc) ==> !l'.flag)
    && (l'.flag ==> l.flag) && (Active(w.pc) && l'.flag ==> Active(w'.pc)) && (Active(w'.pc) ==> l'.flag)
  }

  /** How any step of worker i treats the lock. */
  ghost predicate WorkLock(s: State, t: State, i: nat)
    requires i < |s.workers| && i < |t.workers|
  {
    var w, w' := s.workers[i], t.workers[i];
    && (HoldsW(w.pc) <==> s.lock == ByWorker(i)) && (HoldsW(w'.pc) <==> t.lock == ByWorker(i))
    && (t.lock == s.lock || (s.lock.Nobody? && HoldsW(w'.pc)) || (HoldsW(w.pc) && t.lock.Nobody?))
    && (t.ftp.At(w.dir).flag != s.ftp.At(w.dir).flag ==> HoldsW(w.pc))
  }

  /** What one instruction of ftp_clean for direction d changes outside the socket fields. */
  lemma SweepFrame(f: Ftp, k: Kernel, d: Dir, c: Clean)
    ensures var (f', k', c') := CleanStep(f, k, d, c);
            && f'.At(Other(d)) == f.At(Other(d)) && f'.At(d).id == f.At(d).id
            && f'.At(d).flag == (f.At(d).flag && !c.ClearFlag?)
            && f'.user == f.user && f'.listen == f.listen
            && (Early(c') <==> Early(c) && !c.ClearFlag?) && !c'.Fclose?
  {
  }

  lemma SweepStep(s: State, i: nat, ok: bool, fd: int)
    requires InvLock(s) && InvWorkers(s) && WorkEnabled(s, i, ok, fd)
    requires s.workers[i].pc.Cleaning? && !s.workers[i].pc.step.Done?
    ensures |WorkNext(s, i, ok, fd).workers| == |s.workers|
    ensures WorkFrame(s, WorkNext(s, i, ok, fd), i) && WorkLock(s, WorkNext(s, i, ok, fd), i)
  {
    assert WorkerOk(s, i);
    SweepFrame(s.ftp, s.kernel, s.workers[i].dir, s.workers[i].pc.step);
  }

  lemma AcceptStep(s: State, i: nat, ok: bool, fd: int)
    requires InvLock(s) && InvWorkers(s) && WorkEnabled(s, i, ok, fd)
    requires s.workers[i].pc.Accept? || s.workers[i].pc.StoreSock? || s.workers[i].pc.StorePort?
    ensures |WorkNext(s, i, ok, fd).workers| == |s.workers|
    ensures WorkFrame(s, WorkNext(s, i, ok, fd), i) && WorkLock(s, WorkNext(s, i, ok, fd), i)
  {
    assert WorkerOk(s, i);
  }

  lemma EnterStep(s: State, i: nat, ok: bool, fd: int)
    requires InvLock(s) && InvWorkers(s) && WorkEnabled(s, i, ok, fd)
    requires s.workers[i].pc.Start? || s.workers[i].pc.ConnLock?
             || s.workers[i].pc.ConnTest? || s.workers[i].pc.ConnUnlock?
    ensures |WorkNext(s, i, ok, fd).workers| == |s.workers|
    ensures WorkFrame(s, WorkNext(s, i, ok, fd), i) && WorkLock(s, WorkNext(s, i, ok, fd), i)
  {
    assert WorkerOk(s, i);
  }

  lemma ConnectStep(s: State, i: nat, ok: bool, fd: int)
    requires InvLock(s) && InvWorkers(s) && WorkEnabled(s, i, ok, fd)
    requires Starting(s.workers[i].pc) || s.workers[i].pc.ConnUnlock?
    ensures |WorkNext(s, i, ok, fd).workers| == |s.workers|
    ensures WorkFrame(s, WorkNext(s, i, ok, fd), i) && WorkLock(s, WorkNext(s, i, ok, fd), i)
  {
    var pc := s.workers[i].pc;
    if pc.Accept? || pc.StoreSock? || pc.StorePort? {
      AcceptStep(s, i, ok, fd);
    } else {
      EnterStep(s, i, ok, fd);
    }
  }

  predicate Body(pc: WPc) {
    pc.Open? || pc.StoreFile? || pc.TestFile? || pc.Fileno? || pc.Load? || pc.Transfer? || pc.Report?
  }

  predicate Check(pc: WPc) {
    pc.CheckLock? || pc.CheckTest? || (pc.Cleaning? && pc.step.Done?) || pc.Exiting?
  }

  lemma FileStep(s: State, i: nat, ok: bool, fd: int)
    requires InvLock(s) && InvWorkers(s) && WorkEnabled(s, i, ok, fd)
    requires s.workers[i].pc.Open? || s.workers[i].pc.StoreFile?
    ensures |WorkNext(s, i, ok, fd).workers| == |s.workers|
    ensures WorkFrame(s, WorkNext(s, i, ok, fd), i) && WorkLock(s, WorkNext(s, i, ok, fd), i)
  {
    assert WorkerOk(s, i);
  }

  /** A step that moves an active worker on, without lock, fields or kernel. */
  lemma MoveStep(s: State, t: State, i: nat, w: Worker)
    requires InvLock(s) && InvWorkers(s) && i < |s.workers| && t == s.(workers := s.workers[i := w])
    requires Body(s.workers[i].pc) && !HoldsW(w.pc) && Active(w.pc) && !w.pc.Cleaning?
    requires var v := s.workers[i]; w.dir == v.dir && w.job == v.job && w.cancel == v.cancel && w.joins == v.joins
    ensures WorkFrame(s, t, i) && WorkLock(s, t, i)
  {
    assert WorkerOk(s, i);
  }

  lemma PlainStep(s: State, i: nat, ok: bool, fd: int)
    requires InvLock(s) && InvWorkers(s) && WorkEnabled(s, i, ok, fd) && Body(s.workers[i].pc)
    requires !s.workers[i].pc.Open? && !s.workers[i].pc.StoreFile?
    ensures |WorkNext(s, i, ok, fd).workers| == |s.workers|
    ensures WorkFrame(s, WorkNext(s, i, ok, fd), i) && WorkLock(s, WorkNext(s, i, ok, fd), i)
    ensures WorkNext(s, i, ok, fd).ftp == s.ftp && WorkNext(s, i, ok, fd).kernel == s.kernel
  {
    var t := WorkNext(s, i, ok, fd);
    MoveStep(s, t, i, t.workers[i]);
  }

  lemma BodyStep(s: State, i: nat, ok: bool, fd: int)
    requires InvLock(s) && InvWorkers(s) && WorkEnabled(s, i, ok, fd) && Body(s.workers[i].pc)
    ensures |WorkNext(s, i, ok, fd).workers| == |s.workers|
    ensures WorkFrame(s, WorkNext(s, i, ok, fd), i) && WorkLock(s, WorkNext(s, i, ok, fd), i)
  {
    var pc := s.workers[i].pc;
    if pc.Open? || pc.StoreFile? { FileStep(s, i, ok, fd); } else { PlainStep(s, i, ok, fd); }
  }

  lemma CheckStep(s: State, i: nat, ok: bool, fd: int)
    requires InvLock(s) && InvWorkers(s) && WorkEnabled(s, i, ok, fd) && Check(s.workers[i].pc)
    ensures |WorkNext(s, i, ok, fd).workers| == |s.workers|
    ensures WorkFrame(s, WorkNext(s, i, ok, fd), i) && WorkLock(s, WorkNext(s, i, ok, fd), i)
  {
    assert WorkerOk(s, i);
  }

  lemma WorkKeepsLock(s: State, t: State, i: nat)
    requires InvLock(s) && i < |s.workers| && i < |t.workers|
    requires WorkFrame(s, t, i) && WorkLock(s, t, i)
    ensures InvLock(t)
  {
  }

  lemma WorkKeepsWorkers(s: State, t: State, i: nat)
    requires InvWorkers(s) && i < |s.workers| && i < |t.workers|
    requires WorkFrame(s, t, i)
    ensures InvWorkers(t)
  {
    assert WorkerOk(s, i);
    forall j | 0 <= j < |t.workers| ensures WorkerOk(t, j) {
      assert WorkerOk(s, j);
    }
  }

  lemma WorkKeepsLanes(s: State, t: State, i: nat)
    requires InvLock(s) && InvWorkers(s) && InvLanes(s) && i < |s.workers| && i < |t.workers|
    requires WorkFrame(s, t, i) && WorkLock(s, t, i)
    ensures InvLanes(t)
  {
    assert WorkerOk(s, i);
  }

  // ---- The shared socket ----

  /** One instruction of ftp_clean keeps the socket fields and the kernel in step. */
  lemma CleanSock(f: Ftp, k: Kernel, d: Dir, c: Clean)
    requires SockOk(f, k, InClean(d, c)) && PortBacked(f, InClean(d, c)) && !c.Done?
    requires !Early(c) ==> !f.At(d).flag
    ensures var (f', k', c') := CleanStep(f, k, d, c);
            SockOk(f', k', InClean(d, c')) && PortBacked(f', InClean(d, c'))
  {
    var (f', k', c') := CleanStep(f, k, d, c);
    if c.CloseSock? {
      assert High(k') == {};
    } else {
      assert High(k') == High(k);
    }
  }

  lemma WorkWindow(s: State, t: State, i: nat)
    requires InvLock(s) && i < |s.workers| && i < |t.workers|
    requires WorkFrame(s, t, i) && WorkLock(s, t, i)
    ensures HoldsW(s.workers[i].pc) ==> WindowOf(s) == WindowW(s.workers[i])
    ensures HoldsW(t.workers[i].pc) ==> WindowOf(t) == WindowW(t.workers[i])
    ensures s.lock.Nobody? ==> WindowOf(s).Quiet?
    ensures t.lock.Nobody? ==> WindowOf(t).Quiet?
    ensures !HoldsW(s.workers[i].pc) && !HoldsW(t.workers[i].pc) ==> WindowOf(t) == WindowOf(s)
  {
  }

  lemma SweepKeepsSock(s: State, i: nat, ok: bool, fd: int)
    requires InvLock(s) && InvWorkers(s) && InvSock(s) && WorkEnabled(s, i, ok, fd)
    requires s.workers[i].pc.Cleaning? && !s.workers[i].pc.step.Done?
    ensures InvSock(WorkNext(s, i, ok, fd))
  {
    assert WorkerOk(s, i);
    SweepStep(s, i, ok, fd);
    WorkWindow(s, WorkNext(s, i, ok, fd), i);
    CleanSock(s.ftp, s.kernel, s.workers[i].dir, s.workers[i].pc.step);
  }

  lemma ConnectKeepsSock(s: State, i: nat, ok: bool, fd: int)
    requires InvLock(s) && InvWorkers(s) && InvSock(s) && WorkEnabled(s, i, ok, fd)
    requires Starting(s.workers[i].pc) || s.workers[i].pc.ConnUnlock?
    ensures InvSock(WorkNext(s, i, ok, fd))
  {
    assert WorkerOk(s, i);
    var t := WorkNext(s, i, ok, fd);
    ConnectStep(s, i, ok, fd);
    WorkWindow(s, t, i);
    if s.workers[i].pc.Accept? && ok {
      assert High(t.kernel) == High(s.kernel) + Big(fd);
    } else {
      assert t.kernel == s.kernel;
    }
  }

  lemma BodyKeepsSock(s: State, i: nat, ok: bool, fd: int)
    requires InvLock(s) && InvWorkers(s) && InvSock(s) && WorkEnabled(s, i, ok, fd) && Body(s.workers[i].pc)
    ensures InvSock(WorkNext(s, i, ok, fd))
  {
    assert WorkerOk(s, i);
    var t := WorkNext(s, i, ok, fd);
    BodyStep(s, i, ok, fd);
    WorkWindow(s, t, i);
    assert High(t.kernel) == High(s.kernel);
  }

  lemma CheckKeepsSock(s: State, i: nat, ok: bool, fd: int)
    requires InvLock(s) && InvWorkers(s) && InvSock(s) && WorkEnabled(s, i, ok, fd) && Check(s.workers[i].pc)
    ensures InvSock(WorkNext(s, i, ok, fd))
  {
    assert WorkerOk(s, i);
    var t := WorkNext(s, i, ok, fd);
    CheckStep(s, i, ok, fd);
    WorkWindow(s, t, i);
    assert t.ftp == s.ftp && t.kernel == s.kernel;
  }

  // ---- Connected workers ----

  lemma SweepKeepsLink(s: State, i: nat, ok: bool, fd: int)
    requires InvLock(s) && InvWorkers(s) && InvLink(s) && WorkEnabled(s, i, ok, fd)
    requires s.workers[i].pc.Cleaning? && !s.workers[i].pc.step.Done?
    ensures InvLink(WorkNext(s, i, ok, fd))
  {
    assert WorkerOk(s, i);
    var t := WorkNext(s, i, ok, fd);
    SweepStep(s, i, ok, fd);
    WorkWindow(s, t, i);
    forall j | 0 <= j < |t.workers| && Linked(t.workers[j].pc)
      ensures t.ftp.portOpen && t.ftp.sock == t.workers[j].conn && !(WindowOf(t).InClean? && Teardown(WindowOf(t).c))
    {
      assert WorkerOk(s, j);
      assert Linked(s.workers[j].pc);
    }
  }

  lemma ConnectKeepsLink(s: State, i: nat, ok: bool, fd: int)
    requires InvLock(s) && InvWorkers(s) && InvSock(s) && InvLink(s) && WorkEnabled(s, i, ok, fd)
    requires Starting(s.workers[i].pc) || s.workers[i].pc.ConnUnlock?
    ensures InvLink(WorkNext(s, i, ok, fd))
  {
    assert WorkerOk(s, i);
    var t := WorkNext(s, i, ok, fd);
    ConnectStep(s, i, ok, fd);
    WorkWindow(s, t, i);
    forall j | 0 <= j < |t.workers| && Linked(t.workers[j].pc)
      ensures t.ftp.portOpen && t.ftp.sock == t.workers[j].conn && !(WindowOf(t).InClean? && Teardown(WindowOf(t).c))
    {
    }
  }

  lemma BodyKeepsLink(s: State, i: nat, ok: bool, fd: int)
    requires InvLock(s) && InvWorkers(s) && InvLink(s) && WorkEnabled(s, i, ok, fd) && Body(s.workers[i].pc)
    ensures InvLink(WorkNext(s, i, ok, fd))
  {
    assert WorkerOk(s, i);
    var t := WorkNext(s, i, ok, fd);
    BodyStep(s, i, ok, fd);
    WorkWindow(s, t, i);
    forall j | 0 <= j < |t.workers| && Linked(t.workers[j].pc)
      ensures t.ftp.portOpen && t.ftp.sock == t.workers[j].conn && !(WindowOf(t).InClean? && Teardown(WindowOf(t).c))
    {
      assert Linked(s.workers[j].pc);
    }
  }

  lemma CheckKeepsLink(s: State, i: nat, ok: bool, fd: int)
    requires InvLock(s) && InvWorkers(s) && InvLink(s) && WorkEnabled(s, i, ok, fd) && Check(s.workers[i].pc)
    ensures InvLink(WorkNext(s, i, ok, fd))
  {
    assert WorkerOk(s, i);
    var t := WorkNext(s, i, ok, fd);
    CheckStep(s, i, ok, fd);
    WorkWindow(s, t, i);
    forall j | 0 <= j < |t.workers| && Linked(t.workers[j].pc)
      ensures t.ftp.portOpen && t.ftp.sock == t.workers[j].conn && !(WindowOf(t).InClean? && Teardown(WindowOf(t).c))
    {
      assert Linked(s.workers[j].pc);
    }
  }

  // ---- Files ----

  /** One instruction of ftp_clean keeps the handles of both directions in step with the kernel. */
  lemma CleanFile(f: Ftp, k: Kernel, d: Dir, c: Clean, other: Option<nat>)
    requires FileOk(f, k.files, InClean(d, c), None, d) && FileOk(f, k.files, InClean(d, c), other, Other(d))
    requires !c.Done?
    ensures var (f', k', c') := CleanStep(f, k, d, c);
            && FileOk(f', k'.files, InClean(d, c'), None, d)
            && FileOk(f', k'.files, InClean(d, c'), other, Other(d))
  {
  }

  /** The sweep is at an instruction that has closed the file and not yet cleared the flag. */
  predicate Sensitive(w: Window) {
    w.InClean? && (w.c.NullFile? || w.c.ClearPath? || w.c.ClearFlag?)
  }

  /** A step that has nothing to do with files. */
  ghost predicate FilesAlone(s: State, t: State) {
    && t.kernel.files == s.kernel.files
    && (forall d :: t.ftp.At(d).file == s.ftp.At(d).file && t.ftp.At(d).flag == s.ftp.At(d).flag)
    && (forall d :: Flight(t, d) == Flight(s, d))
    && (WindowOf(t) == WindowOf(s) || (!Sensitive(WindowOf(t)) && !Sensitive(WindowOf(s))))
    && (t.cmd == s.cmd || !(t.cmd.SetUser? || t.cmd.Spawn?) || (s.cmd.SetUser? && t.cmd.Spawn? && t.cmd.d == s.cmd.d))
    && |t.workers| == |s.workers|
    && forall j :: 0 <= j < |t.workers| && BeforeStore(t.workers[j].pc) ==>
                     BeforeStore(s.workers[j].pc) && t.workers[j].dir == s.workers[j].dir
  }

  lemma AloneKeepsFiles(s: State, t: State)
    requires InvFiles(s) && FilesAlone(s, t)
    ensures InvFiles(t)
  {
    forall d ensures LaneFileOk(t, d) {
      assert LaneFileOk(s, d) by { match d case Send => case Recv => }
    }
  }

  lemma SweepKeepsFiles(s: State, i: nat, ok: bool, fd: int)
    requires InvLock(s) && InvWorkers(s) && InvLanes(s) && InvFiles(s) && WorkEnabled(s, i, ok, fd)
    requires s.workers[i].pc.Cleaning? && !s.workers[i].pc.step.Done?
    ensures InvFiles(WorkNext(s, i, ok, fd))
  {
    assert WorkerOk(s, i);
    var t := WorkNext(s, i, ok, fd);
    var d := s.workers[i].dir;
    SweepStep(s, i, ok, fd);
    WorkWindow(s, t, i);
    var id := s.ftp.At(d).id;
    if id < |s.workers| { assert WorkerOk(s, id); }
    assert Flight(s, d).None? && Flight(t, d).None?;
    assert Flight(t, Other(d)) == Flight(s, Other(d));
    CleanFile(s.ftp, s.kernel, d, s.workers[i].pc.step, Flight(s, Other(d)));
    forall j | 0 <= j < |t.workers| && BeforeStore(t.workers[j].pc)
      ensures t.ftp.At(t.workers[j].dir).file.None?
    {
      assert WorkerOk(s, j);
      assert BeforeStore(s.workers[j].pc);
    }
  }

  lemma ConnectLeavesFiles(s: State, i: nat, ok: bool, fd: int)
    requires InvLock(s) && InvWorkers(s) && WorkEnabled(s, i, ok, fd)
    requires Starting(s.workers[i].pc) || s.workers[i].pc.ConnUnlock?
    ensures FilesAlone(s, WorkNext(s, i, ok, fd))
  {
    assert WorkerOk(s, i);
    var t := WorkNext(s, i, ok, fd);
    ConnectStep(s, i, ok, fd);
    WorkWindow(s, t, i);
    assert forall d :: Flight(t, d) == Flight(s, d);
  }

  lemma ConnectKeepsFiles(s: State, i: nat, ok: bool, fd: int)
    requires InvLock(s) && InvWorkers(s) && InvFiles(s) && WorkEnabled(s, i, ok, fd)
    requires Starting(s.workers[i].pc) || s.workers[i].pc.ConnUnlock?
    ensures InvFiles(WorkNext(s, i, ok, fd))
  {
    ConnectLeavesFiles(s, i, ok, fd);
    AloneKeepsFiles(s, WorkNext(s, i, ok, fd));
  }

  /** Nobody sweeps the direction of an active worker that does not hold the lock. */
  lemma NobodySweeps(s: State, i: nat, c: Clean)
    requires InvLock(s) && InvWorkers(s) && i < |s.workers| && Early(c)
    requires Active(s.workers[i].pc) && !HoldsW(s.workers[i].pc)
    ensures WindowOf(s) != InClean(s.workers[i].dir, c)
  {
    assert WorkerOk(s, i);
    if s.lock.ByWorker? { assert WorkerOk(s, s.lock.i); }
  }

  /** While a worker opens its file, no other worker of its direction is about to. */
  lemma StoringAlone(s: State, i: nat, ok: bool, fd: int)
    requires InvWorkers(s) && InvFiles(s) && WorkEnabled(s, i, ok, fd)
    requires s.workers[i].pc.Open? || s.workers[i].pc.StoreFile?
    ensures var t := WorkNext(s, i, ok, fd);
            forall j :: 0 <= j < |t.workers| && BeforeStore(t.workers[j].pc) ==> t.ftp.At(t.workers[j].dir).file.None?
  {
    assert WorkerOk(s, i);
    var t := WorkNext(s, i, ok, fd);
    forall j | 0 <= j < |t.workers| && BeforeStore(t.workers[j].pc)
      ensures t.ftp.At(t.workers[j].dir).file.None?
    {
      assert WorkerOk(s, j);
    }
  }

  lemma OpenKeepsFiles(s: State, i: nat, ok: bool, fd: int)
    requires InvLock(s) && InvWorkers(s) && InvFiles(s) && WorkEnabled(s, i, ok, fd)
    requires s.workers[i].pc.Open? || s.workers[i].pc.StoreFile?
    ensures InvFiles(WorkNext(s, i, ok, fd))
  {
    assert WorkerOk(s, i);
    var t := WorkNext(s, i, ok, fd);
    var d := s.workers[i].dir;
    BodyStep(s, i, ok, fd);
    WorkWindow(s, t, i);
    NobodySweeps(s, i, NullFile);
    NobodySweeps(s, i, ClearPath);
    NobodySweeps(s, i, ClearFlag);
    assert Flight(t, d) == if s.workers[i].pc.Open? then t.workers[i].pc.handle else None;
    assert Flight(t, Other(d)) == Flight(s, Other(d));
    assert s.ftp.At(d).file.None?;
    assert LaneFileOk(t, Other(d));
    assert LaneFileOk(t, d);
    StoringAlone(s, i, ok, fd);
  }

  lemma BodyLeavesFiles(s: State, i: nat, ok: bool, fd: int)
    requires InvLock(s) && InvWorkers(s) && WorkEnabled(s, i, ok, fd) && Body(s.workers[i].pc)
    requires !s.workers[i].pc.Open? && !s.workers[i].pc.StoreFile?
    ensures FilesAlone(s, WorkNext(s, i, ok, fd))
  {
    var t := WorkNext(s, i, ok, fd);
    PlainStep(s, i, ok, fd);
    WorkWindow(s, t, i);
    assert forall d :: Flight(t, d) == Flight(s, d);
  }

  lemma BodyKeepsFiles(s: State, i: nat, ok: bool, fd: int)
    requires InvLock(s) && InvWorkers(s) && InvFiles(s) && WorkEnabled(s, i, ok, fd) && Body(s.workers[i].pc)
    requires !s.workers[i].pc.Open? && !s.workers[i].pc.StoreFile?
    ensures InvFiles(WorkNext(s, i, ok, fd))
  {
    BodyLeavesFiles(s, i, ok, fd);
    AloneKeepsFiles(s, WorkNext(s, i, ok, fd));
  }

  lemma CheckLeavesFiles(s: State, i: nat, ok: bool, fd: int)
    requires InvLock(s) && InvWorkers(s) && WorkEnabled(s, i, ok, fd) && Check(s.workers[i].pc)
    ensures FilesAlone(s, WorkNext(s, i, ok, fd))
  {
    assert WorkerOk(s, i);
    var t := WorkNext(s, i, ok, fd);
    CheckStep(s, i, ok, fd);
    WorkWindow(s, t, i);
    assert t.ftp == s.ftp && t.kernel == s.kernel;
    assert forall d :: Flight(t, d) == Flight(s, d);
  }

  lemma CheckKeepsFiles(s: State, i: nat, ok: bool, fd: int)
    requires InvLock(s) && InvWorkers(s) && InvFiles(s) && WorkEnabled(s, i, ok, fd) && Check(s.workers[i].pc)
    ensures InvFiles(WorkNext(s, i, ok, fd))
  {
    CheckLeavesFiles(s, i, ok, fd);
    AloneKeepsFiles(s, WorkNext(s, i, ok, fd));
  }

  // ---- Jobs ----

  /** A step that has nothing to do with jobs: the paths, sizes and workers' records stay. */
  ghost predicate JobsAlone(s: State, t: State) {
    && |t.workers| == |s.workers|
    && (forall d :: t.ftp.At(d) == s.ftp.At(d))
    && forall j :: 0 <= j < |t.workers| ==>
         var w, w' := s.workers[j], t.workers[j];
         w' == w || w' == w.(pc := Cancelled) || w' == w.(cancel := true) || w' == w.(joins := w.joins + 1)
  }

  lemma AloneKeepsJobs(s: State, t: State, j: nat)
    requires InvJobs(s) && JobsAlone(s, t) && j < |t.workers|
    ensures JobOk(t.ftp, t.workers[j])
  {
    assert JobOk(s.ftp, s.workers[j]);
  }

  lemma SweepKeepsJobs(s: State, i: nat, ok: bool, fd: int)
    requires InvLock(s) && InvWorkers(s) && InvJobs(s) && WorkEnabled(s, i, ok, fd)
    requires s.workers[i].pc.Cleaning? && !s.workers[i].pc.step.Done?
    ensures InvJobs(WorkNext(s, i, ok, fd))
  {
    assert WorkerOk(s, i);
    var t := WorkNext(s, i, ok, fd);
    SweepStep(s, i, ok, fd);
    forall j | 0 <= j < |t.workers| ensures JobOk(t.ftp, t.workers[j]) {
      assert WorkerOk(s, j) && JobOk(s.ftp, s.workers[j]);
    }
  }

  lemma ConnectKeepsJobs(s: State, i: nat, ok: bool, fd: int)
    requires InvLock(s) && InvWorkers(s) && InvJobs(s) && WorkEnabled(s, i, ok, fd)
    requires Starting(s.workers[i].pc) || s.workers[i].pc.ConnUnlock?
    ensures InvJobs(WorkNext(s, i, ok, fd))
  {
    assert WorkerOk(s, i);
    var t := WorkNext(s, i, ok, fd);
    ConnectStep(s, i, ok, fd);
    forall j | 0 <= j < |t.workers| ensures JobOk(t.ftp, t.workers[j]) {
      assert JobOk(s.ftp, s.workers[j]);
    }
  }

  lemma FileKeepsJobs(s: State, i: nat, ok: bool, fd: int)
    requires InvWorkers(s) && InvJobs(s) && WorkEnabled(s, i, ok, fd)
    requires s.workers[i].pc.Open? || s.workers[i].pc.StoreFile?
    ensures InvJobs(WorkNext(s, i, ok, fd))
  {
    var t := WorkNext(s, i, ok, fd);
    forall j | 0 <= j < |t.workers| ensures JobOk(t.ftp, t.workers[j]) {
      assert JobOk(s.ftp, s.workers[j]);
    }
  }

  lemma PlainKeepsCmdJob(s: State, i: nat, ok: bool, fd: int)
    requires InvWorkers(s) && CmdJobOk(s) && WorkEnabled(s, i, ok, fd) && Body(s.workers[i].pc)
    requires !s.workers[i].pc.Open? && !s.workers[i].pc.StoreFile?
    ensures CmdJobOk(WorkNext(s, i, ok, fd))
  {
  }

  lemma PlainKeepsJob(s: State, i: nat, ok: bool, fd: int)
    requires InvWorkers(s) && InvLink(s) && InvJobs(s) && WorkEnabled(s, i, ok, fd) && Body(s.workers[i].pc)
    requires !s.workers[i].pc.Open? && !s.workers[i].pc.StoreFile?
    ensures var t := WorkNext(s, i, ok, fd);
            t.ftp == s.ftp && t.workers == s.workers[i := t.workers[i]] && JobOk(t.ftp, t.workers[i])
  {
    assert WorkerOk(s, i) && JobOk(s.ftp, s.workers[i]);
  }

  lemma PlainKeepsJobs(s: State, i: nat, ok: bool, fd: int)
    requires InvWorkers(s) && InvLink(s) && InvJobs(s) && WorkEnabled(s, i, ok, fd) && Body(s.workers[i].pc)
    requires !s.workers[i].pc.Open? && !s.workers[i].pc.StoreFile?
    ensures InvJobs(WorkNext(s, i, ok, fd))
  {
    PlainKeepsCmdJob(s, i, ok, fd);
    PlainKeepsJob(s, i, ok, fd);
  }

  lemma CheckKeepsJobs(s: State, i: nat, ok: bool, fd: int)
    requires InvLock(s) && InvWorkers(s) && InvLink(s) && InvJobs(s)
    requires WorkEnabled(s, i, ok, fd) && Check(s.workers[i].pc)
    ensures InvJobs(WorkNext(s, i, ok, fd))
  {
    assert WorkerOk(s, i);
    var t := WorkNext(s, i, ok, fd);
    CheckStep(s, i, ok, fd);
    forall j | 0 <= j < |t.workers| ensures JobOk(t.ftp, t.workers[j]) {
      assert JobOk(s.ftp, s.workers[j]);
    }
  }

  lemma WorkKeeps(s: State, i: nat, ok: bool, fd: int)
    requires Inv(s) && WorkEnabled(s, i, ok, fd)
    ensures Inv(WorkNext(s, i, ok, fd))
  {
    var t := WorkNext(s, i, ok, fd);
    var pc := s.workers[i].pc;
    assert WorkerOk(s, i);
    if pc.Cleaning? && !pc.step.Done? {
      SweepStep(s, i, ok, fd); SweepKeepsSock(s, i, ok, fd); SweepKeepsLink(s, i, ok, fd);
      SweepKeepsFiles(s, i, ok, fd); SweepKeepsJobs(s, i, ok, fd);
    } else if Starting(pc) || pc.ConnUnlock? {
      ConnectStep(s, i, ok, fd); ConnectKeepsSock(s, i, ok, fd); ConnectKeepsLink(s, i, ok, fd);
      ConnectKeepsFiles(s, i, ok, fd); ConnectKeepsJobs(s, i, ok, fd);
    } else if Check(pc) {
      CheckStep(s, i, ok, fd); CheckKeepsSock(s, i, ok, fd); CheckKeepsLink(s, i, ok, fd);
      CheckKeepsFiles(s, i, ok, fd); CheckKeepsJobs(s, i, ok, fd);
    } else {
      BodyStep(s, i, ok, fd); BodyKeepsSock(s, i, ok, fd); BodyKeepsLink(s, i, ok, fd);
      if pc.Open? || pc.StoreFile? {
        OpenKeepsFiles(s, i, ok, fd); FileKeepsJobs(s, i, ok, fd);
      } else {
        BodyKeepsFiles(s, i, ok, fd); PlainKeepsJobs(s, i, ok, fd);
      }
    }
    WorkKeepsLock(s, t, i);
    WorkKeepsWorkers(s, t, i);
    WorkKeepsLanes(s, t, i);
  }

  // ---- A cancellation taking effect ----

  lemma DieKeepsControl(s: State, i: nat)
    requires Inv(s) && Enabled(s, Die(i))
    ensures var t := Next(s, Die(i)); InvLock(t) && InvWorkers(t) && InvLanes(t)
  {
    assert WorkerOk(s, i);
    var t := Next(s, Die(i));
    forall j | 0 <= j < |t.workers| ensures WorkerOk(t, j) {
      assert WorkerOk(s, j);
    }
  }

  lemma DieKeepsFiles(s: State, i: nat)
    requires InvLock(s) && InvWorkers(s) && InvFiles(s) && Enabled(s, Die(i))
    ensures WindowOf(Next(s, Die(i))) == WindowOf(s)
    ensures InvFiles(Next(s, Die(i)))
  {
    assert WorkerOk(s, i);
    var t := Next(s, Die(i));
    assert WindowOf(t) == WindowOf(s);
    assert forall d :: Flight(t, d) == Flight(s, d);
    assert FilesAlone(s, t);
    AloneKeepsFiles(s, t);
  }

  lemma DieKeepsJobs(s: State, i: nat)
    requires InvWorkers(s) && InvJobs(s) && Enabled(s, Die(i))
    ensures InvJobs(Next(s, Die(i)))
  {
    assert WorkerOk(s, i);
    var t := Next(s, Die(i));
    forall j | 0 <= j < |t.workers| ensures JobOk(t.ftp, t.workers[j]) {
      AloneKeepsJobs(s, t, j);
    }
  }

  lemma DieKeeps(s: State, i: nat)
    requires Inv(s) && Enabled(s, Die(i))
    ensures Inv(Next(s, Die(i)))
  {
    DieKeepsControl(s, i);
    DieKeepsFiles(s, i);
    DieKeepsJobs(s, i);
  }

  // ---- Steps of the command thread ----

  predicate StopStep(pc: CPc) {
    || pc.TakeLock? || pc.TestFlag? || pc.CancelWorker? || pc.JoinWorker? || pc.DropLock?
    || (pc.Sweeping? && pc.step.Done?)
  }

  lemma StopKeepsWorkers(s: State, ok: bool, port: nat, fd: int)
    requires InvLock(s) && InvWorkers(s) && InvLanes(s) && CmdEnabled(s, ok, port, fd) && StopStep(s.cmd)
    ensures InvWorkers(CmdNext(s, ok, port, fd))
  {
    var t := CmdNext(s, ok, port, fd);
    forall j | 0 <= j < |t.workers| ensures WorkerOk(t, j) {
      assert WorkerOk(s, j);
    }
  }

  lemma StopKeepsLanes(s: State, ok: bool, port: nat, fd: int)
    requires InvLock(s) && InvWorkers(s) && InvLanes(s) && CmdEnabled(s, ok, port, fd) && StopStep(s.cmd)
    ensures InvLock(CmdNext(s, ok, port, fd)) && InvLanes(CmdNext(s, ok, port, fd))
  {
  }

  lemma StopKeepsSock(s: State, ok: bool, port: nat, fd: int)
    requires InvLock(s) && InvLanes(s) && InvSock(s) && InvLink(s) && CmdEnabled(s, ok, port, fd) && StopStep(s.cmd)
    ensures var t := CmdNext(s, ok, port, fd); InvSock(t) && InvLink(t)
  {
  }

  lemma StopKeepsFiles(s: State, ok: bool, port: nat, fd: int)
    requires InvLock(s) && InvLanes(s) && InvFiles(s) && CmdEnabled(s, ok, port, fd) && StopStep(s.cmd)
    ensures InvFiles(CmdNext(s, ok, port, fd))
  {
    var t := CmdNext(s, ok, port, fd);
    assert t.ftp == s.ftp && t.kernel == s.kernel && |t.workers| == |s.workers|;
    assert forall j :: 0 <= j < |s.workers| ==>
                         t.workers[j].pc == s.workers[j].pc && t.workers[j].dir == s.workers[j].dir;
    assert forall d :: Flight(t, d) == Flight(s, d);
    assert FilesAlone(s, t);
    AloneKeepsFiles(s, t);
  }

  lemma StopKeepsJobs(s: State, ok: bool, port: nat, fd: int)
    requires InvLanes(s) && InvJobs(s) && CmdEnabled(s, ok, port, fd) && StopStep(s.cmd)
    ensures InvJobs(CmdNext(s, ok, port, fd))
  {
    var t := CmdNext(s, ok, port, fd);
    forall j | 0 <= j < |t.workers| ensures JobOk(t.ftp, t.workers[j]) {
      AloneKeepsJobs(s, t, j);
    }
  }

  lemma CmdSweepKeepsWorkers(s: State, ok: bool, port: nat, fd: int)
    requires InvLock(s) && InvWorkers(s) && InvLanes(s) && CmdEnabled(s, ok, port, fd)
    requires s.cmd.Sweeping? && !s.cmd.step.Done?
    ensures var t := CmdNext(s, ok, port, fd); InvLock(t) && InvWorkers(t) && InvLanes(t)
  {
    var t := CmdNext(s, ok, port, fd);
    SweepFrame(s.ftp, s.kernel, s.cmd.p.d, s.cmd.step);
    forall j | 0 <= j < |t.workers| ensures WorkerOk(t, j) {
      assert WorkerOk(s, j);
    }
  }

  lemma CmdSweepKeepsSock(s: State, ok: bool, port: nat, fd: int)
    requires Inv(s) && CmdEnabled(s, ok, port, fd)
    requires s.cmd.Sweeping? && !s.cmd.step.Done?
    ensures var t := CmdNext(s, ok, port, fd); InvSock(t) && InvLink(t)
  {
    var t := CmdNext(s, ok, port, fd);
    SweepFrame(s.ftp, s.kernel, s.cmd.p.d, s.cmd.step);
    CleanSock(s.ftp, s.kernel, s.cmd.p.d, s.cmd.step);
    forall j | 0 <= j < |t.workers| && Linked(t.workers[j].pc)
      ensures t.ftp.portOpen && t.ftp.sock == t.workers[j].conn && !(WindowOf(t).InClean? && Teardown(WindowOf(t).c))
    {
      assert WorkerOk(s, j);
      assert Linked(s.workers[j].pc);
    }
  }

  lemma CmdSweepKeepsFiles(s: State, ok: bool, port: nat, fd: int)
    requires Inv(s) && CmdEnabled(s, ok, port, fd)
    requires s.cmd.Sweeping? && !s.cmd.step.Done?
    ensures InvFiles(CmdNext(s, ok, port, fd))
  {
    var t := CmdNext(s, ok, port, fd);
    var d := s.cmd.p.d;
    SweepFrame(s.ftp, s.kernel, d, s.cmd.step);
    var id := s.ftp.At(d).id;
    if id < |s.workers| { assert WorkerOk(s, id); }
    assert Flight(s, d).None? && Flight(t, d).None?;
    assert Flight(t, Other(d)) == Flight(s, Other(d));
    CleanFile(s.ftp, s.kernel, d, s.cmd.step, Flight(s, Other(d)));
    forall j | 0 <= j < |t.workers| && BeforeStore(t.workers[j].pc)
      ensures t.ftp.At(t.workers[j].dir).file.None?
    {
      assert WorkerOk(s, j);
    }
  }

  lemma CmdSweepKeepsJobs(s: State, ok: bool, port: nat, fd: int)
    requires Inv(s) && CmdEnabled(s, ok, port, fd)
    requires s.cmd.Sweeping? && !s.cmd.step.Done?
    ensures InvJobs(CmdNext(s, ok, port, fd))
  {
    var t := CmdNext(s, ok, port, fd);
    SweepFrame(s.ftp, s.kernel, s.cmd.p.d, s.cmd.step);
    forall j | 0 <= j < |t.workers| ensures JobOk(t.ftp, t.workers[j]) {
      assert WorkerOk(s, j) && JobOk(s.ftp, s.workers[j]);
    }
  }

  /** Unlocked writes to a claimed direction. */
  predicate LaneStep(pc: CPc) {
    pc.ErasePath? || pc.WritePath? || pc.WriteSize? || pc.RaiseFlag?
  }

  lemma LaneKeepsControl(s: State, ok: bool, port: nat, fd: int)
    requires InvLock(s) && InvWorkers(s) && InvLanes(s) && CmdEnabled(s, ok, port, fd) && LaneStep(s.cmd)
    ensures var t := CmdNext(s, ok, port, fd); InvLock(t) && InvWorkers(t) && InvLanes(t)
  {
    var t := CmdNext(s, ok, port, fd);
    forall j | 0 <= j < |t.workers| ensures WorkerOk(t, j) {
      assert WorkerOk(s, j);
    }
  }

  lemma LaneKeepsSock(s: State, ok: bool, port: nat, fd: int)
    requires Inv(s) && CmdEnabled(s, ok, port, fd) && LaneStep(s.cmd)
    ensures var t := CmdNext(s, ok, port, fd); InvSock(t) && InvLink(t)
  {
    var t := CmdNext(s, ok, port, fd);
    assert WindowOf(t) == WindowOf(s);
  }

  lemma WriteKeepsFiles(s: State, ok: bool, port: nat, fd: int)
    requires InvLock(s) && InvFiles(s) && CmdEnabled(s, ok, port, fd) && LaneStep(s.cmd) && !s.cmd.RaiseFlag?
    ensures InvFiles(CmdNext(s, ok, port, fd))
  {
    var t := CmdNext(s, ok, port, fd);
    assert WindowOf(t) == WindowOf(s);
    assert forall d :: Flight(t, d) == Flight(s, d);
    assert FilesAlone(s, t);
    AloneKeepsFiles(s, t);
  }

  lemma RaiseKeepsFiles(s: State, ok: bool, port: nat, fd: int)
    requires InvLock(s) && InvWorkers(s) && InvLanes(s) && InvFiles(s)
    requires CmdEnabled(s, ok, port, fd) && s.cmd.RaiseFlag?
    ensures InvFiles(CmdNext(s, ok, port, fd))
  {
    var t := CmdNext(s, ok, port, fd);
    assert WindowOf(t) == WindowOf(s);
    assert forall d :: Flight(t, d) == Flight(s, d);
    if s.lock.ByWorker? { assert WorkerOk(s, s.lock.i); }
    assert LaneOk(s, s.cmd.d);
    assert t.ftp.At(Other(s.cmd.d)) == s.ftp.At(Other(s.cmd.d));
    assert LaneFileOk(t, s.cmd.d);
    assert LaneFileOk(t, Other(s.cmd.d));
  }

  lemma LaneKeepsJobs(s: State, ok: bool, port: nat, fd: int)
    requires Inv(s) && CmdEnabled(s, ok, port, fd) && LaneStep(s.cmd)
    ensures InvJobs(CmdNext(s, ok, port, fd))
  {
    var t := CmdNext(s, ok, port, fd);
    forall j | 0 <= j < |t.workers| ensures JobOk(t.ftp, t.workers[j]) {
      assert WorkerOk(s, j) && JobOk(s.ftp, s.workers[j]);
    }
  }

  predicate SetupStep(pc: CPc) {
    pc.SetupTake? || pc.SetupTest? || pc.SetupCreate? || pc.SetupDrop?
  }

  lemma SetupKeepsControl(s: State, ok: bool, port: nat, fd: int)
    requires InvLock(s) && InvWorkers(s) && InvLanes(s) && CmdEnabled(s, ok, port, fd) && SetupStep(s.cmd)
    ensures var t := CmdNext(s, ok, port, fd); InvLock(t) && InvWorkers(t) && InvLanes(t)
  {
    var t := CmdNext(s, ok, port, fd);
    forall j | 0 <= j < |t.workers| ensures WorkerOk(t, j) {
      assert WorkerOk(s, j);
    }
  }

  lemma SetupKeepsSock(s: State, ok: bool, port: nat, fd: int)
    requires InvLock(s) && InvSock(s) && InvLink(s) && CmdEnabled(s, ok, port, fd) && SetupStep(s.cmd)
    ensures var t := CmdNext(s, ok, port, fd); InvSock(t) && InvLink(t)
  {
    var t := CmdNext(s, ok, port, fd);
    assert WindowOf(t).Quiet? && WindowOf(s).Quiet?;
    assert High(t.kernel) == High(s.kernel);
  }

  lemma SetupKeepsFiles(s: State, ok: bool, port: nat, fd: int)
    requires InvLock(s) && InvFiles(s) && CmdEnabled(s, ok, port, fd) && SetupStep(s.cmd)
    ensures InvFiles(CmdNext(s, ok, port, fd))
  {
    var t := CmdNext(s, ok, port, fd);
    assert WindowOf(t).Quiet? && WindowOf(s).Quiet?;
    assert forall d :: Flight(t, d) == Flight(s, d) && t.ftp.At(d) == s.ftp.At(d);
    assert FilesAlone(s, t);
    AloneKeepsFiles(s, t);
  }

  lemma SetupKeepsJobs(s: State, ok: bool, port: nat, fd: int)
    requires InvJobs(s) && CmdEnabled(s, ok, port, fd) && SetupStep(s.cmd)
    ensures InvJobs(CmdNext(s, ok, port, fd))
  {
    var t := CmdNext(s, ok, port, fd);
    assert forall d :: t.ftp.At(d) == s.ftp.At(d);
    forall j | 0 <= j < |t.workers| ensures JobOk(t.ftp, t.workers[j]) {
      AloneKeepsJobs(s, t, j);
    }
  }

  predicate IdleStep(pc: CPc) {
    pc.SetUser? || pc.Reply? || pc.Unregister? || pc.Free?
  }

  lemma IdleKeepsControl(s: State, ok: bool, port: nat, fd: int)
    requires InvLock(s) && InvWorkers(s) && InvLanes(s) && CmdEnabled(s, ok, port, fd) && IdleStep(s.cmd)
    ensures var t := CmdNext(s, ok, port, fd); InvLock(t) && InvWorkers(t) && InvLanes(t)
  {
    var t := CmdNext(s, ok, port, fd);
    forall j | 0 <= j < |t.workers| ensures WorkerOk(t, j) {
      assert WorkerOk(s, j);
    }
  }

  lemma IdleKeepsSock(s: State, ok: bool, port: nat, fd: int)
    requires InvLock(s) && InvSock(s) && InvLink(s) && CmdEnabled(s, ok, port, fd) && IdleStep(s.cmd)
    ensures var t := CmdNext(s, ok, port, fd); InvSock(t) && InvLink(t)
  {
    assert WindowOf(CmdNext(s, ok, port, fd)) == WindowOf(s);
  }

  lemma IdleKeepsFiles(s: State, ok: bool, port: nat, fd: int)
    requires InvLock(s) && InvFiles(s) && CmdEnabled(s, ok, port, fd) && IdleStep(s.cmd)
    ensures InvFiles(CmdNext(s, ok, port, fd))
  {
    var t := CmdNext(s, ok, port, fd);
    assert WindowOf(t) == WindowOf(s);
    assert forall d :: Flight(t, d) == Flight(s, d) && t.ftp.At(d) == s.ftp.At(d);
    assert FilesAlone(s, t);
    AloneKeepsFiles(s, t);
  }

  lemma IdleKeepsJobs(s: State, ok: bool, port: nat, fd: int)
    requires InvJobs(s) && CmdEnabled(s, ok, port, fd) && IdleStep(s.cmd)
    ensures InvJobs(CmdNext(s, ok, port, fd))
  {
    var t := CmdNext(s, ok, port, fd);
    assert forall d :: t.ftp.At(d) == s.ftp.At(d);
    forall j | 0 <= j < |t.workers| ensures JobOk(t.ftp, t.workers[j]) {
      AloneKeepsJobs(s, t, j);
    }
  }

  lemma SpawnKeepsControl(s: State, ok: bool, port: nat, fd: int)
    requires Inv(s) && CmdEnabled(s, ok, port, fd) && s.cmd.Spawn?
    ensures var t := CmdNext(s, ok, port, fd); InvLock(t) && InvWorkers(t) && InvLanes(t)
  {
    var t := CmdNext(s, ok, port, fd);
    forall j | 0 <= j < |t.workers| ensures WorkerOk(t, j) {
      if j < |s.workers| { assert WorkerOk(s, j); }
    }
  }

  lemma SpawnKeepsSock(s: State, ok: bool, port: nat, fd: int)
    requires InvLock(s) && InvSock(s) && InvLink(s) && CmdEnabled(s, ok, port, fd) && s.cmd.Spawn?
    ensures var t := CmdNext(s, ok, port, fd); InvSock(t) && InvLink(t)
  {
    assert WindowOf(CmdNext(s, ok, port, fd)) == WindowOf(s);
  }

  lemma SpawnKeepsJobs(s: State, ok: bool, port: nat, fd: int)
    requires InvWorkers(s) && InvJobs(s) && CmdEnabled(s, ok, port, fd) && s.cmd.Spawn?
    ensures InvJobs(CmdNext(s, ok, port, fd))
  {
    var t := CmdNext(s, ok, port, fd);
    forall j | 0 <= j < |t.workers| ensures JobOk(t.ftp, t.workers[j]) {
      if j < |s.workers| { assert JobOk(s.ftp, s.workers[j]); }
    }
  }

  lemma SpawnKeepsFiles(s: State, ok: bool, port: nat, fd: int)
    requires InvLock(s) && InvWorkers(s) && InvFiles(s) && CmdEnabled(s, ok, port, fd) && s.cmd.Spawn?
    ensures InvFiles(CmdNext(s, ok, port, fd))
  {
    var t := CmdNext(s, ok, port, fd);
    var d := s.cmd.d;
    assert WindowOf(t) == WindowOf(s);
    var id := s.ftp.At(d).id;
    if id < |s.workers| { assert WorkerOk(s, id); }
    assert Flight(s, d).None? && Flight(t, d).None?;
    assert Flight(t, Other(d)) == Flight(s, Other(d));
    assert LaneFileOk(t, d);
    assert LaneFileOk(t, Other(d));
  }

  lemma CmdKeeps(s: State, ok: bool, port: nat, fd: int)
    requires Inv(s) && CmdEnabled(s, ok, port, fd)
    ensures Inv(CmdNext(s, ok, port, fd))
  {
    if StopStep(s.cmd) {
      StopKeepsWorkers(s, ok, port, fd); StopKeepsLanes(s, ok, port, fd); StopKeepsSock(s, ok, port, fd);
      StopKeepsFiles(s, ok, port, fd); StopKeepsJobs(s, ok, port, fd);
    } else if s.cmd.Sweeping? {
      CmdSweepKeepsWorkers(s, ok, port, fd); CmdSweepKeepsSock(s, ok, port, fd);
      CmdSweepKeepsFiles(s, ok, port, fd); CmdSweepKeepsJobs(s, ok, port, fd);
    } else if LaneStep(s.cmd) {
      LaneKeepsControl(s, ok, port, fd); LaneKeepsSock(s, ok, port, fd);
      if s.cmd.RaiseFlag? { RaiseKeepsFiles(s, ok, port, fd); } else { WriteKeepsFiles(s, ok, port, fd); }
      LaneKeepsJobs(s, ok, port, fd);
    } else if SetupStep(s.cmd) {
      SetupKeepsControl(s, ok, port, fd); SetupKeepsSock(s, ok, port, fd);
      SetupKeepsFiles(s, ok, port, fd); SetupKeepsJobs(s, ok, port, fd);
    } else if s.cmd.Spawn? {
      SpawnKeepsControl(s, ok, port, fd); SpawnKeepsSock(s, ok, port, fd);
      SpawnKeepsFiles(s, ok, port, fd); SpawnKeepsJobs(s, ok, port, fd);
    } else {
      IdleKeepsControl(s, ok, port, fd); IdleKeepsSock(s, ok, port, fd);
      IdleKeepsFiles(s, ok, port, fd); IdleKeepsJobs(s, ok, port, fd);
    }
  }

  lemma ArriveKeeps(s: State, p: Purpose)
    requires Inv(s) && Enabled(s, Arrive(p))
    ensures Inv(Next(s, Arrive(p)))
  {
    var t := Next(s, Arrive(p));
    forall j | 0 <= j < |t.workers| ensures WorkerOk(t, j) && JobOk(t.ftp, t.workers[j]) {
      assert WorkerOk(s, j) && JobOk(s.ftp, s.workers[j]);
    }
    assert WindowOf(t) == WindowOf(s);
    assert forall d :: Flight(t, d) == Flight(s, d);
  }

  lemma StepKeeps(s: State, a: Action)
    requires Inv(s) && Enabled(s, a)
    ensures Inv(Next(s, a))
  {
    match a
    case Arrive(p) => ArriveKeeps(s, p);
    case Cmd(ok, port, fd) => CmdKeeps(s, ok, port, fd);
    case Work(i, ok, fd) => WorkKeeps(s, i, ok, fd);
    case Die(i) => DieKeeps(s, i);
  }

  lemma {:induction false} RunKeeps(s: State, acts: seq<Action>)
    requires Inv(s) && Run(s, acts).Some?
    ensures Inv(Run(s, acts).value)
    decreases |acts|
  {
    if acts == [] {
    } else {
      StepKeeps(s, acts[0]);
      RunKeeps(Next(s, acts[0]), acts[1..]);
    }
  }
}
