/** The listening socket of a connection: setup_ftp tests port_open under the lock, but the flag that
    keeps the port alive is raised only after the lock is released. Exactly that gap matters. */
module ProtocolListener {
  import opened FtpState
  import opened Protocol
  import opened ProtocolInvariant
  import opened ProtocolPreservation
  import opened ProtocolTheorems
  import opened ProtocolWitness

  // ---- The race ----

  /** A worker finds both directions idle and starts the teardown while the command thread has left
      setup_ftp and not yet raised its flag. */
  predicate Race(s: State, a: Action) {
    && a.Work? && a.i < |s.workers|
    && s.workers[a.i].pc.Cleaning? && s.workers[a.i].pc.step.TestFlags?
    && BothIdle(s.ftp) && s.cmd.RaiseFlag?
  }

  /** setup_ftp creates a listening socket and overwrites ftp_socket and ftp_port. */
  predicate Rebinds(s: State, a: Action) {
    a.Cmd? && a.ok && s.cmd.SetupCreate?
  }

  predicate RacedNext(s: State, a: Action, raced: bool) {
    !Rebinds(s, a) && (raced || Race(s, a))
  }

  /** After the actions there has been a race, and setup_ftp has created no listening socket since; raced
      says whether that held before them. */
  predicate Raced(s: State, acts: seq<Action>, raced: bool)
    decreases |acts|
  {
    if acts == [] || !Enabled(s, acts[0]) then raced
    else Raced(Next(s, acts[0]), acts[1..], RacedNext(s, acts[0], raced))
  }

  /** There is no race at all. */
  predicate RaceFree(s: State, acts: seq<Action>)
    decreases |acts|
  {
    acts == [] || !Enabled(s, acts[0]) || (!Race(s, acts[0]) && RaceFree(Next(s, acts[0]), acts[1..]))
  }

  lemma {:induction false} RaceFreeIsNotRaced(s: State, acts: seq<Action>)
    requires RaceFree(s, acts)
    ensures !Raced(s, acts, false)
    decreases |acts|
  {
    if acts == [] || !Enabled(s, acts[0]) {
    } else {
      RaceFreeIsNotRaced(Next(s, acts[0]), acts[1..]);
    }
  }

  // ---- What depends on it ----

  /** ftp_socket is a listening socket that is still open, and ftp_port is its port. */
  predicate ListenLive(s: State) {
    s.ftp.listen in s.kernel.listeners && s.kernel.listeners[s.ftp.listen] == s.ftp.port
  }

  /** ftp_socket, if ftp_clean would close that number, is not an open listening socket. */
  predicate ListenClosed(s: State) {
    s.ftp.listen > 1 ==> s.ftp.listen !in s.kernel.listeners
  }

  /** setup_ftp has succeeded for a command that has not spawned its worker yet. */
  predicate Ready(pc: CPc) {
    (pc.SetupDrop? && pc.ok) || pc.RaiseFlag? || pc.SetUser? || pc.Spawn?
  }

  predicate AtTest(w: Window) {
    w.InClean? && w.c.TestFlags?
  }

  predicate AtClose(w: Window) {
    w.InClean? && w.c.CloseListen?
  }

  predicate AtReset(w: Window) {
    w.InClean? && w.c.ResetPort?
  }

  predicate BeforeClose(w: Window) {
    (w.InClean? && w.c.ClearSize?) || AtTest(w) || AtClose(w)
  }

  predicate AfterClose(w: Window) {
    AtReset(w) || (w.InClean? && (w.c.CloseSock? || w.c.ResetSock? || w.c.ClosePort?))
  }

  /** The listening socket is needed: a transfer is flagged or about to be, or its teardown is to come. */
  predicate ListenDue(s: State) {
    !BothIdle(s.ftp) || Ready(s.cmd) || BeforeClose(WindowOf(s))
  }

  /** The port is set up, and the teardown has not reset it yet. */
  predicate PortDue(s: State) {
    ListenDue(s) || AtReset(WindowOf(s))
  }

  // ---- What one step does to it ----

  /** One instruction of ftp_clean, seen from the listening socket. */
  predicate CleanEffect(f: Ftp, k: Kernel, c: Clean, f': Ftp, k': Kernel, c': Clean) {
    && f'.listen == f.listen && f'.port == (if c.ResetPort? then -1 else f.port)
    && (f.listen !in k.listeners ==> f.listen !in k'.listeners)
    && (c.CloseListen? || c.CloseSock? || k'.listeners == k.listeners)
    && (c.CloseListen? && f.listen > 1 ==> f.listen !in k'.listeners)
    && (BothIdle(f) ==> BothIdle(f')) && (BothIdle(f') ==> BothIdle(f) || c.ClearFlag?)
    && (match c
        case ClearFlag => c'.ClearSize?
        case ClearSize => c'.TestFlags?
        case TestFlags => if BothIdle(f) then c'.CloseListen? else c'.Done?
        case CloseListen => c'.ResetPort?
        case ResetPort => c'.CloseSock?
        case CloseSock => c'.ResetSock?
        case ResetSock => c'.ClosePort?
        case ClosePort => c'.Done?
        case _ => Early(c'))
  }

  lemma CleanHasEffect(f: Ftp, k: Kernel, d: Dir, c: Clean)
    requires !c.Done?
    ensures var (f', k', c') := CleanStep(f, k, d, c); CleanEffect(f, k, c, f', k', c')
  {
  }

  /** The lock's owner executes an instruction of ftp_clean. */
  ghost predicate SweepEffect(s: State, t: State) {
    var w, w' := WindowOf(s), WindowOf(t);
    && w.InClean? && !w.c.Done? && w'.InClean? && (Ready(t.cmd) <==> Ready(s.cmd))
    && CleanEffect(s.ftp, s.kernel, w.c, t.ftp, t.kernel, w'.c)
    && (Early(w.c) ==> !BothIdle(s.ftp))
  }

  /** Any other step that creates no listening socket. */
  ghost predicate QuietEffect(s: State, t: State) {
    var w, w' := WindowOf(s), WindowOf(t);
    && t.ftp.listen == s.ftp.listen && t.ftp.port == s.ftp.port && t.kernel.listeners == s.kernel.listeners
    && (w' == w || (!Late(w) && !Late(w')))
    && (BothIdle(t.ftp) ==> BothIdle(s.ftp)) && (BothIdle(s.ftp) && !BothIdle(t.ftp) ==> Ready(s.cmd))
    && (Ready(s.cmd) && !Ready(t.cmd) ==> !BothIdle(t.ftp))
    && (Ready(t.cmd) && !Ready(s.cmd) ==> !BothIdle(s.ftp) && w'.Quiet?)
  }

  /** setup_ftp creates a listening socket. */
  ghost predicate RebindEffect(s: State, t: State) {
    && WindowOf(s).Quiet? && WindowOf(t).Quiet? && !Ready(s.cmd) && Ready(t.cmd)
    && ListenLive(t) && t.ftp.port > 0
  }

  lemma SweepHasEffect(s: State, i: nat, ok: bool, fd: int)
    requires InvLock(s) && InvWorkers(s) && InvLanes(s) && WorkEnabled(s, i, ok, fd)
    requires s.workers[i].pc.Cleaning? && !s.workers[i].pc.step.Done?
    ensures SweepEffect(s, WorkNext(s, i, ok, fd))
    ensures AtTest(WindowOf(s)) && BothIdle(s.ftp) && Ready(s.cmd) <==> Race(s, Work(i, ok, fd))
  {
    var t := WorkNext(s, i, ok, fd);
    var w := s.workers[i];
    assert WorkerOk(s, i) && LaneOk(s, Send) && LaneOk(s, Recv);
    SweepStep(s, i, ok, fd);
    WorkWindow(s, t, i);
    CleanHasEffect(s.ftp, s.kernel, w.dir, w.pc.step);
  }

  /** Outside ftp_clean a worker does not touch what the listener depends on. */
  lemma QuietWork(s: State, i: nat, ok: bool, fd: int)
    requires WorkEnabled(s, i, ok, fd)
    requires s.workers[i].pc.Cleaning? ==> s.workers[i].pc.step.Done?
    ensures var t := WorkNext(s, i, ok, fd);
            && t.kernel.listeners == s.kernel.listeners && t.ftp.listen == s.ftp.listen && t.ftp.port == s.ftp.port
            && t.cmd == s.cmd
            && BothIdle(t.ftp) == BothIdle(s.ftp) && i < |t.workers|
            && (WindowW(t.workers[i]).InClean? ==> WindowW(t.workers[i]).c.Fclose?)
  {
  }

  lemma QuietWorkHasEffect(s: State, i: nat, ok: bool, fd: int)
    requires InvLock(s) && InvWorkers(s) && WorkEnabled(s, i, ok, fd)
    requires s.workers[i].pc.Cleaning? ==> s.workers[i].pc.step.Done?
    ensures QuietEffect(s, WorkNext(s, i, ok, fd)) && !Race(s, Work(i, ok, fd))
  {
    var t := WorkNext(s, i, ok, fd);
    var pc := s.workers[i].pc;
    assert WorkerOk(s, i);
    QuietWork(s, i, ok, fd);
    if Starting(pc) || pc.ConnUnlock? {
      ConnectStep(s, i, ok, fd);
    } else if Check(pc) {
      CheckStep(s, i, ok, fd);
    } else {
      BodyStep(s, i, ok, fd);
    }
    WorkWindow(s, t, i);
  }

  lemma CmdSweepHasEffect(s: State, ok: bool, port: nat, fd: int)
    requires InvLock(s) && InvLanes(s) && CmdEnabled(s, ok, port, fd) && s.cmd.Sweeping? && !s.cmd.step.Done?
    ensures SweepEffect(s, CmdNext(s, ok, port, fd))
  {
    CleanHasEffect(s.ftp, s.kernel, s.cmd.p.d, s.cmd.step);
    assert LaneOk(s, s.cmd.p.d);
  }

  lemma CmdStopHasEffect(s: State, ok: bool, port: nat, fd: int)
    requires InvLock(s) && InvLanes(s) && CmdEnabled(s, ok, port, fd) && StopStep(s.cmd)
    ensures QuietEffect(s, CmdNext(s, ok, port, fd))
  {
  }

  lemma CmdHasEffect(s: State, ok: bool, port: nat, fd: int)
    requires InvLock(s) && InvLanes(s) && InvSock(s) && CmdEnabled(s, ok, port, fd)
    requires !StopStep(s.cmd) && !s.cmd.Sweeping? && !Rebinds(s, Cmd(ok, port, fd))
    ensures QuietEffect(s, CmdNext(s, ok, port, fd))
  {
    assert LaneOk(s, Send) && LaneOk(s, Recv);
  }

  /** Every step has one of the three effects, and the race is the only one that starts a teardown while a
      command is ready. */
  lemma StepHasEffect(s: State, a: Action)
    requires Inv(s) && Enabled(s, a)
    ensures var t := Next(s, a);
            if Rebinds(s, a) then RebindEffect(s, t) else SweepEffect(s, t) || QuietEffect(s, t)
    ensures SweepEffect(s, Next(s, a)) && AtTest(WindowOf(s)) && BothIdle(s.ftp) && Ready(s.cmd) ==> Race(s, a)
    ensures Race(s, a) ==> SweepEffect(s, Next(s, a)) && AtTest(WindowOf(s)) && BothIdle(s.ftp)
  {
    match a
    case Arrive(p) =>
      assert WindowOf(Next(s, a)) == WindowOf(s);
    case Cmd(ok, port, fd) =>
      if StopStep(s.cmd) {
        CmdStopHasEffect(s, ok, port, fd);
      } else if s.cmd.Sweeping? {
        CmdSweepHasEffect(s, ok, port, fd);
      } else if !Rebinds(s, a) {
        CmdHasEffect(s, ok, port, fd);
      }
    case Work(i, ok, fd) =>
      if s.workers[i].pc.Cleaning? && !s.workers[i].pc.step.Done? {
        SweepHasEffect(s, i, ok, fd);
      } else {
        QuietWorkHasEffect(s, i, ok, fd);
      }
    case Die(i) =>
      assert WorkerOk(s, i);
      assert WindowOf(Next(s, a)) == WindowOf(s);
  }

  // ---- What every run keeps ----

  /** Without a race: while it is needed the listening socket is open, and no teardown begins while a
      command is ready. */
  ghost predicate InvListen(s: State) {
    && (ListenDue(s) && !AfterClose(WindowOf(s)) ==> ListenLive(s))
    && (WindowOf(s).InClean? && Teardown(WindowOf(s).c) ==> !Ready(s.cmd) && BothIdle(s.ftp))
  }

  ghost predicate InvPort(s: State) {
    if PortDue(s) then s.ftp.port > 0 else s.ftp.port == -1
  }

  /** Once the last transfer has been torn down, its listening socket is closed. */
  ghost predicate InvClosed(s: State) {
    !ListenDue(s) ==> ListenClosed(s)
  }

  /** After a race: the teardown has reset the port and closed the socket, or is about to. */
  ghost predicate Broken(s: State) {
    && (s.ftp.port == -1 || AtClose(WindowOf(s)) || AtReset(WindowOf(s)))
    && (ListenClosed(s) || AtClose(WindowOf(s)))
  }

  lemma ListenKept(s: State, t: State)
    requires InvListen(s) && (SweepEffect(s, t) || QuietEffect(s, t))
    requires SweepEffect(s, t) ==> !(AtTest(WindowOf(s)) && BothIdle(s.ftp) && Ready(s.cmd))
    ensures InvListen(t)
  {
  }

  lemma PortKept(s: State, t: State)
    requires InvListen(s) && InvPort(s) && (SweepEffect(s, t) || QuietEffect(s, t))
    ensures InvPort(t)
  {
  }

  lemma ClosedKept(s: State, t: State)
    requires InvClosed(s) && (SweepEffect(s, t) || QuietEffect(s, t))
    ensures InvClosed(t)
  {
  }

  lemma BrokenKept(s: State, t: State)
    requires Broken(s) && (SweepEffect(s, t) || QuietEffect(s, t))
    ensures Broken(t)
  {
  }

  ghost predicate InvRace(s: State, raced: bool) {
    InvClosed(s) && if raced then Broken(s) else InvListen(s) && InvPort(s)
  }

  lemma RaceStep(s: State, a: Action, raced: bool)
    requires Inv(s) && InvRace(s, raced) && Enabled(s, a)
    ensures InvRace(Next(s, a), RacedNext(s, a, raced))
  {
    var t := Next(s, a);
    StepHasEffect(s, a);
    if !Rebinds(s, a) {
      ClosedKept(s, t);
      if raced {
        BrokenKept(s, t);
      } else if !Race(s, a) {
        ListenKept(s, t);
        PortKept(s, t);
      }
    }
  }

  lemma {:induction false} RaceRun(s: State, acts: seq<Action>, t: State, raced: bool)
    requires Inv(s) && InvRace(s, raced) && Run(s, acts) == Some(t)
    ensures InvRace(t, Raced(s, acts, raced))
    decreases |acts|
  {
    if acts == [] {
    } else {
      StepKeeps(s, acts[0]);
      RaceStep(s, acts[0], raced);
      RaceRun(Next(s, acts[0]), acts[1..], t, RacedNext(s, acts[0], raced));
    }
  }

  lemma ReachableRace(acts: seq<Action>, s: State)
    requires Reaches(acts, s)
    ensures Inv(s) && InvRace(s, Raced(Init(), acts, false))
  {
    ReachableInv(acts, s);
    InitInv();
    RaceRun(Init(), acts, s, false);
  }

  // ---- Exactly when the listening socket is open ----

  /** accept is called on an open listening socket, whose port is ftp_port, exactly if there has been no
      race since setup_ftp last created one. After a race it is called on a number that is closed. */
  lemma AcceptIff(acts: seq<Action>, s: State, i: nat)
    requires Reaches(acts, s) && i < |s.workers| && s.workers[i].pc.Accept?
    ensures ListenLive(s) <==> !Raced(Init(), acts, false)
    ensures Raced(Init(), acts, false) ==> ListenClosed(s)
  {
    ReachableRace(acts, s);
    assert WorkerOk(s, i);
  }

  /** A teardown is about to begin. It will close a listening socket that is open exactly if there has been
      no race since setup_ftp last created one. After a race it closes a number a second time. */
  lemma CloseIff(acts: seq<Action>, s: State)
    requires Reaches(acts, s) && AtTest(WindowOf(s)) && BothIdle(s.ftp)
    ensures ListenLive(s) <==> !Raced(Init(), acts, false)
    ensures Raced(Init(), acts, false) ==> ListenClosed(s)
  {
    ReachableRace(acts, s);
  }

  /** The reply to a get or put whose transfer is still flagged announces a port exactly if there has been
      no such race (unless the teardown of the race is just about to reset the port). In general a port is
      announced, without a race, exactly while one is due. */
  lemma ReplyPortIsExact(acts: seq<Action>, s: State)
    requires Reaches(acts, s) && s.cmd.Reply?
    ensures var reset := AtClose(WindowOf(s)) || AtReset(WindowOf(s));
            s.ftp.At(s.cmd.d).flag && !reset ==> (s.ftp.port > 0 <==> !Raced(Init(), acts, false))
    ensures !Raced(Init(), acts, false) ==> if PortDue(s) then s.ftp.port > 0 else s.ftp.port == -1
    ensures Raced(Init(), acts, false) ==> s.ftp.port == -1 || AtClose(WindowOf(s)) || AtReset(WindowOf(s))
  {
    ReachableRace(acts, s);
  }

  // ---- With the race ----

  predicate ClosesListener(w: Worker) {
    w.pc.Cleaning? && w.pc.step.CloseListen?
  }

  lemma ClosingStep(s: State, a: Action, i: nat)
    requires InvLock(s) && InvWorkers(s) && Enabled(s, a) && i < |s.workers| && ClosesListener(s.workers[i])
    ensures var t := Next(s, a);
            i < |t.workers| && (ClosesListener(t.workers[i]) || (a.Work? && a.i == i && ListenClosed(t)))
  {
    assert WorkerOk(s, i);
    if a.Work? && a.i == i {
      CleanHasEffect(s.ftp, s.kernel, s.workers[i].dir, s.workers[i].pc.step);
    }
  }

  lemma WorkersStay(s: State, a: Action)
    requires Enabled(s, a)
    ensures |s.workers| <= |Next(s, a).workers|
  {
  }

  lemma {:induction false} LostRun(s: State, acts: seq<Action>, t: State, i: nat)
    requires Inv(s) && i < |s.workers| && (ClosesListener(s.workers[i]) || ListenClosed(s))
    requires Run(s, acts) == Some(t) && Count(s, acts, Rebinds) == 0
    ensures |s.workers| <= |t.workers| && (ClosesListener(t.workers[i]) || ListenClosed(t))
    decreases |acts|
  {
    if acts == [] {
    } else {
      StepKeeps(s, acts[0]);
      StepHasEffect(s, acts[0]);
      if ClosesListener(s.workers[i]) { ClosingStep(s, acts[0], i); }
      WorkersStay(s, acts[0]);
      LostRun(Next(s, acts[0]), acts[1..], t, i);
    }
  }

  /** After the race, the command that was under way gets no working listening socket: as soon as the
      worker has executed its close, the socket stays closed, whatever commands arrive, until setup_ftp
      creates another. */
  lemma RaceLosesListener(before: seq<Action>, s: State, a: Action, acts: seq<Action>, t: State)
    requires Reaches(before, s) && Enabled(s, a) && Race(s, a)
    requires Run(Next(s, a), acts) == Some(t) && Count(Next(s, a), acts, Rebinds) == 0
    ensures a.i < |t.workers|
    ensures ClosesListener(t.workers[a.i]) || ListenClosed(t)
  {
    ReachableInv(before, s);
    StepKeeps(s, a);
    LostRun(Next(s, a), acts, t, a.i);
  }

  function Connected(get: Job): State {
    State(Ftp(Lane(true, 0, None, get.path, get.size), Lane(false, 0, None, "", 0), true, 3, 5000, 4, Server),
          Kernel({4}, map[3 := 5000], {}), Nobody, Idle,
          [Worker(Send, get, Open, false, 0, 4, None, None)])
  }

  lemma GetConnects(get: Job)
    ensures Leads(Init(), Connected(get))
  {
    var o := Init();
    GetStarts(get);
    var s := Go(o, GetStarted(get), Cmd(true, 1, 0));
    s := Go(o, s, Work(0, true, 4));
    s := Connect(o, s, 0, 4);
    assert s == Connected(get);
  }

  /** The worker of the get gives up at fopen and reaches its clean-up. */
  lemma OpenFails(o: State, s: State, i: nat) returns (t: State)
    requires Leads(o, s) && i < |s.workers| && s.workers[i].pc.Open? && s.lock.Nobody?
    requires s.ftp.At(s.workers[i].dir).flag && s.ftp.At(s.workers[i].dir).file.None?
    ensures t == s.(lock := ByWorker(i),
                    workers := s.workers[i := s.workers[i].(pc := Cleaning(OpenFailed, Fclose),
                                                            pathUsed := Some(s.ftp.At(s.workers[i].dir).path))])
    ensures Leads(o, t)
  {
    var w := Work(i, false, 0);
    t := Go(o, s, w);
    t := Go(o, t, w);
    t := Go(o, t, w);
    assert t == s.(workers := s.workers[i := s.workers[i].(pc := Report(OpenFailed),
                                                          pathUsed := Some(s.ftp.At(s.workers[i].dir).path))]);
    t := Go(o, t, w);
    t := Go(o, t, w);
    t := Go(o, t, w);
  }

  /** A put passes setup_ftp while the get is still connected. */
  lemma PutPasses(get: Job, put: Job) returns (t: State)
    ensures Alone(Connected(get), t)
    ensures t == Connected(get).(cmd := RaiseFlag(Recv, put),
                                 ftp := Connected(get).ftp.(recv := Lane(false, 0, None, put.path, put.size)))
  {
    var s := Connected(get);
    var u := Prepare(s, Recv, put);
    t := Setup(u, Recv, put, None);
    AloneThen(s, u, t);
  }

  /** The fields after the get has been torn down. */
  function TornDown(get: Job, put: Job): Ftp {
    Ftp(Lane(false, 0, None, "", 0), Lane(false, 0, None, put.path, put.size), false, 3, -1, -1, Server)
  }

  /** The get fails to open its file while the put has left setup_ftp and not yet raised its flag. */
  lemma GetEndsInGap(get: Job, put: Job) returns (s: State)
    ensures Leads(Init(), s) && |s.workers| == 1
    ensures s == State(TornDown(get, put), Kernel({}, map[], {}), Nobody, RaiseFlag(Recv, put), s.workers)
  {
    var o := Init();
    GetConnects(get);
    var v := PutPasses(get, put);
    ThenAlone(o, Connected(get), v);
    s := OpenFails(o, v, 0);
    s := WorkerCleans(o, s, 0, OpenFailed);
  }

  /** The put raises its flag and spawns its worker. */
  lemma PutStarts(get: Job, put: Job) returns (s: State)
    ensures Leads(Init(), s) && |s.workers| == 2 && s.workers[1] == Worker(Recv, put, Start, false, 0, -1, None, None)
    ensures s.lock.Nobody? && s.ftp.recv == Lane(true, 1, None, put.path, put.size) && s.kernel == Kernel({}, map[], {})
    ensures !s.ftp.send.flag && s.ftp.listen == 3 && !s.ftp.portOpen && s.ftp.user.Server?
  {
    var u := GetEndsInGap(get, put);
    s := Launch(u, Recv, put);
    ThenAlone(Init(), u, s);
  }

  /** The worker of a get ends while a put is between setup_ftp and its flag: the worker of the put
      then calls accept on the listening socket that was just closed. */
  lemma AcceptOnClosedSocket(get: Job, put: Job)
    ensures exists s :: Leads(Init(), s) && |s.workers| == 2 && s.workers[1].pc.Accept? && s.ftp.recv.flag
                        && s.ftp.listen !in s.kernel.listeners
  {
    var o := Init();
    var s := PutStarts(get, put);
    s := Go(o, s, Work(1, true, 0));
    s := Go(o, s, Work(1, true, 0));
    s := Go(o, s, Work(1, true, 0));
  }

  lemma CleanUntilClose(f: Ftp, k: Kernel, d: Dir)
    requires f.At(d).file.None? && !f.At(Other(d)).flag
    ensures var l := f.At(d);
            var f1, f2 := f.With(d, l.(path := "")), f.With(d, l.(path := "", flag := false));
            var f3 := f.With(d, CleanedLane(l));
            && CleanStep(f, k, d, Fclose) == (f, k, ClearPath) && CleanStep(f, k, d, ClearPath) == (f1, k, ClearFlag)
            && CleanStep(f1, k, d, ClearFlag) == (f2, k, ClearSize)
            && CleanStep(f2, k, d, ClearSize) == (f3, k, TestFlags)
            && CleanStep(f3, k, d, TestFlags) == (f3, k, CloseListen)
  {
  }

  /** The clean-up of the last transfer, up to the closing of the listening socket. */
  lemma CleansUntilClose(o: State, s: State, i: nat, why: Why) returns (t: State)
    requires Leads(o, s) && i < |s.workers| && s.workers[i].pc == Cleaning(why, Fclose)
    requires var d := s.workers[i].dir; s.ftp.At(d).file.None? && !s.ftp.At(Other(d)).flag
    ensures var d := s.workers[i].dir;
            t == WithClean(s, i, why, CloseListen, s.ftp.With(d, CleanedLane(s.ftp.At(d))), s.kernel)
    ensures Leads(o, t)
  {
    var d, f, k := s.workers[i].dir, s.ftp, s.kernel;
    var l := f.At(d);
    var f1, f2 := f.With(d, l.(path := "")), f.With(d, l.(path := "", flag := false));
    var f3 := f.With(d, CleanedLane(l));
    CleanUntilClose(f, k, d);
    assert WithClean(s, i, why, Fclose, f, k) == s;
    t := CleanOne(o, s, i, why, Fclose, f, k);
    t := CleanOne(o, s, i, why, ClearPath, f, k);
    t := CleanOne(o, s, i, why, ClearFlag, f1, k);
    t := CleanOne(o, s, i, why, ClearSize, f2, k);
    t := CleanOne(o, s, i, why, TestFlags, f3, k);
  }

  /** When that accept fails, the clean-up closes the same number a second time. */
  lemma ListenerClosedTwice(get: Job, put: Job)
    ensures exists s :: Leads(Init(), s) && AtClose(WindowOf(s)) && s.ftp.listen == 3 && 3 !in s.kernel.listeners
  {
    var o := Init();
    var s := PutStarts(get, put);
    s := AcceptFails(o, s, 1);
    s := CleansUntilClose(o, s, 1, ConnectFailed);
  }
}
