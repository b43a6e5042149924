/** Listening sockets that setup_ftp leaves behind. While port_open is false, setup_ftp creates a new
    listening socket and overwrites ftp_socket and ftp_port, even if a worker of the other direction has
    still to accept on the old one. */
module ProtocolLeaks {
  import opened FtpState
  import opened Protocol
  import opened ProtocolInvariant
  import opened ProtocolPreservation
  import opened ProtocolTheorems
  import opened ProtocolWitness
  import opened ProtocolListener

  // ---- Descriptors and ports are told apart ----

  /** No number stands for a listening socket and anything else, and no two listening sockets share a port. */
  ghost predicate Apart(s: State) {
    && (forall x :: x in s.kernel.listeners ==> x >= 0 && x !in s.kernel.transfer && x != s.ftp.sock)
    && (forall i :: 0 <= i < |s.workers| && s.workers[i].pc.StoreSock? ==> s.workers[i].pc.fd !in s.kernel.listeners)
    && (forall x, y :: x in s.kernel.listeners && y in s.kernel.listeners ==>
          s.kernel.listeners[x] == s.kernel.listeners[y] ==> x == y)
    && (s.cmd.SetupCreate? ==> !s.ftp.portOpen)
  }

  lemma CleanApart(f: Ftp, k: Kernel, d: Dir, c: Clean)
    requires f.listen !in k.transfer && (forall x :: x in k.listeners ==> x >= 0 && x !in k.transfer && x != f.sock)
    ensures var (f', k', c') := CleanStep(f, k, d, c);
            && (forall x :: x in k'.listeners <==>
                  x in k.listeners && !(c.CloseListen? && f.listen > 1 && x == f.listen))
            && (forall x :: x in k'.listeners ==>
                  k'.listeners[x] == k.listeners[x] && x !in k'.transfer && x != f'.sock)
            && f'.listen == f.listen && (f.portOpen || !f'.portOpen)
  {
  }

  lemma WorkKeepsApart(s: State, i: nat, ok: bool, fd: int)
    requires InvLock(s) && InvSock(s) && Apart(s) && WorkEnabled(s, i, ok, fd)
    ensures Apart(WorkNext(s, i, ok, fd))
  {
    var w := s.workers[i];
    if w.pc.Cleaning? && !w.pc.step.Done? {
      CleanApart(s.ftp, s.kernel, w.dir, w.pc.step);
    }
  }

  lemma CmdKeepsApart(s: State, ok: bool, port: nat, fd: int)
    requires InvLock(s) && InvSock(s) && Apart(s) && CmdEnabled(s, ok, port, fd)
    ensures Apart(CmdNext(s, ok, port, fd))
  {
    if s.cmd.Sweeping? {
      CleanApart(s.ftp, s.kernel, s.cmd.p.d, s.cmd.step);
    }
  }

  lemma StepKeepsApart(s: State, a: Action)
    requires InvLock(s) && InvSock(s) && Apart(s) && Enabled(s, a)
    ensures Apart(Next(s, a))
  {
    match a
    case Arrive(p) =>
    case Cmd(ok, port, fd) => CmdKeepsApart(s, ok, port, fd);
    case Work(i, ok, fd) => WorkKeepsApart(s, i, ok, fd);
    case Die(i) =>
  }

  lemma {:induction false} RunKeepsApart(s: State, acts: seq<Action>)
    requires Inv(s) && Apart(s) && Run(s, acts).Some?
    ensures Apart(Run(s, acts).value)
    decreases |acts|
  {
    if acts == [] {
    } else {
      StepKeeps(s, acts[0]);
      StepKeepsApart(s, acts[0]);
      RunKeepsApart(Next(s, acts[0]), acts[1..]);
    }
  }

  lemma ReachableApart(acts: seq<Action>, s: State)
    requires Reaches(acts, s)
    ensures Inv(s) && Apart(s)
  {
    ReachableInv(acts, s);
    InitInv();
    RunKeepsApart(Init(), acts);
  }

  /** setup_ftp creates a listening socket only while the port is closed. */
  lemma RebindsWhileClosed(acts: seq<Action>, s: State, a: Action)
    requires Reaches(acts, s) && Rebinds(s, a)
    ensures !s.ftp.portOpen
  {
    ReachableApart(acts, s);
  }

  lemma LowStep(s: State, a: Action, x: int)
    requires Enabled(s, a) && x <= 1
    ensures x in s.kernel.transfer ==> x in Next(s, a).kernel.transfer
    ensures x in s.kernel.listeners ==> x in Next(s, a).kernel.listeners
  {
  }

  /** A socket with the number 0 or 1 is never closed. */
  lemma {:induction false} LowNumbersStay(s: State, acts: seq<Action>, t: State, x: int)
    requires Run(s, acts) == Some(t) && x <= 1
    ensures x in s.kernel.transfer ==> x in t.kernel.transfer
    ensures x in s.kernel.listeners ==> x in t.kernel.listeners
    decreases |acts|
  {
    if acts == [] {
    } else {
      LowStep(s, acts[0], x);
      LowNumbersStay(Next(s, acts[0]), acts[1..], t, x);
    }
  }

  // ---- A listening socket that was overwritten ----

  /** x is a listening socket that ftp_socket does not name. */
  predicate Orphan(s: State, x: int, port: int) {
    x in s.kernel.listeners && s.kernel.listeners[x] == port && s.ftp.listen != x
  }

  /** What one step does to the listening sockets and to ftp_socket. */
  lemma ListenersStep(s: State, a: Action)
    requires InvLock(s) && InvSock(s) && Apart(s) && Enabled(s, a)
    ensures var t := Next(s, a);
            && t.ftp.listen == (if Rebinds(s, a) then a.fd else s.ftp.listen)
            && (Rebinds(s, a) ==>
                  a.fd !in s.kernel.listeners && t.kernel.listeners == s.kernel.listeners[a.fd := a.port])
            && (!Rebinds(s, a) ==> forall x :: x in t.kernel.listeners ==>
                  x in s.kernel.listeners && t.kernel.listeners[x] == s.kernel.listeners[x])
            && (forall x :: x in s.kernel.listeners && x !in t.kernel.listeners ==>
                  x == s.ftp.listen && WindowOf(s).InClean? && WindowOf(s).c.CloseListen?)
  {
    if a.Work? {
      var w := s.workers[a.i];
      if w.pc.Cleaning? && !w.pc.step.Done? {
        CleanApart(s.ftp, s.kernel, w.dir, w.pc.step);
      }
    } else if a.Cmd? && s.cmd.Sweeping? {
      CleanApart(s.ftp, s.kernel, s.cmd.p.d, s.cmd.step);
    }
  }

  lemma {:induction false} OrphanRun(s: State, acts: seq<Action>, t: State, x: int, port: int)
    requires Inv(s) && Apart(s) && Orphan(s, x, port) && Run(s, acts) == Some(t)
    ensures Orphan(t, x, port)
    decreases |acts|
  {
    if acts == [] {
    } else {
      StepKeeps(s, acts[0]);
      StepKeepsApart(s, acts[0]);
      ListenersStep(s, acts[0]);
      OrphanRun(Next(s, acts[0]), acts[1..], t, x, port);
    }
  }

  /** A listening socket that is open when setup_ftp creates another is never closed: in every
      continuation it stays open on its port, and nobody ever accepts on it. */
  lemma LeftOpenForever(before: seq<Action>, s: State, a: Action, acts: seq<Action>, t: State)
    requires Reaches(before, s) && Enabled(s, a) && Rebinds(s, a) && s.ftp.listen in s.kernel.listeners
    requires Run(Next(s, a), acts) == Some(t)
    ensures s.ftp.listen in t.kernel.listeners
    ensures t.kernel.listeners[s.ftp.listen] == s.kernel.listeners[s.ftp.listen] && t.ftp.listen != s.ftp.listen
  {
    ReachableApart(before, s);
    ListenersStep(s, a);
    StepKeeps(s, a);
    StepKeepsApart(s, a);
    OrphanRun(Next(s, a), acts, t, s.ftp.listen, s.kernel.listeners[s.ftp.listen]);
  }

  // ---- Exactly when a socket is left behind ----

  /** setup_ftp overwrites a listening socket that is open (with a number ftp_clean would close). */
  predicate Overwrites(s: State, a: Action) {
    Rebinds(s, a) && s.ftp.listen > 1 && s.ftp.listen in s.kernel.listeners
  }

  /** A listening socket other than ftp_socket is open. */
  ghost predicate LeftBehind(s: State) {
    exists x :: x in s.kernel.listeners && x > 1 && x != s.ftp.listen
  }

  lemma LeftBehindStep(s: State, a: Action)
    requires InvLock(s) && InvSock(s) && Apart(s) && Enabled(s, a)
    ensures LeftBehind(Next(s, a)) <==> LeftBehind(s) || Overwrites(s, a)
  {
    var t := Next(s, a);
    ListenersStep(s, a);
    if Overwrites(s, a) {
      assert s.ftp.listen in t.kernel.listeners;
    }
    if LeftBehind(s) {
      var x :| x in s.kernel.listeners && x > 1 && x != s.ftp.listen;
      assert x in t.kernel.listeners;
    }
  }

  lemma {:induction false} LeftBehindRun(s: State, acts: seq<Action>, t: State)
    requires Inv(s) && Apart(s) && Run(s, acts) == Some(t)
    ensures LeftBehind(t) <==> LeftBehind(s) || Count(s, acts, Overwrites) > 0
    decreases |acts|
  {
    if acts == [] {
    } else {
      StepKeeps(s, acts[0]);
      StepKeepsApart(s, acts[0]);
      LeftBehindStep(s, acts[0]);
      LeftBehindRun(Next(s, acts[0]), acts[1..], t);
    }
  }

  /** In every run a listening socket is left behind exactly if setup_ftp has overwritten an open one. */
  lemma LeftBehindIff(acts: seq<Action>, s: State)
    requires Reaches(acts, s)
    ensures LeftBehind(s) <==> Count(Init(), acts, Overwrites) > 0
  {
    InitInv();
    LeftBehindRun(Init(), acts, s);
  }

  /** What makes setup_ftp overwrite an open listening socket: a transfer of the other direction is flagged,
      and there has been no race since that socket was created. */
  lemma OverwritesIff(s: State, a: Action, raced: bool)
    requires InvLock(s) && InvLanes(s) && InvRace(s, raced) && Enabled(s, a) && Rebinds(s, a)
    ensures Overwrites(s, a) <==> s.ftp.At(Other(s.cmd.d)).flag && s.ftp.listen > 1 && !raced
  {
    assert LaneOk(s, s.cmd.d);
  }

  /** How often setup_ftp has created a listening socket while a transfer of the other direction was
      flagged and its own socket not lost in a race. */
  function Overlaps(s: State, acts: seq<Action>, raced: bool): nat
    decreases |acts|
  {
    if acts == [] || !Enabled(s, acts[0]) then 0
    else
      var a := acts[0];
      (if Rebinds(s, a) && s.ftp.At(Other(s.cmd.d)).flag && s.ftp.listen > 1 && !raced then 1 else 0)
      + Overlaps(Next(s, a), acts[1..], RacedNext(s, a, raced))
  }

  lemma {:induction false} OverlapsAreOverwrites(s: State, acts: seq<Action>, raced: bool)
    requires Inv(s) && InvRace(s, raced) && Run(s, acts).Some?
    ensures Count(s, acts, Overwrites) == Overlaps(s, acts, raced)
    decreases |acts|
  {
    if acts == [] {
    } else {
      var a := acts[0];
      if Rebinds(s, a) { OverwritesIff(s, a, raced); }
      StepKeeps(s, a);
      RaceStep(s, a, raced);
      OverlapsAreOverwrites(Next(s, a), acts[1..], RacedNext(s, a, raced));
    }
  }

  /** In every run, ftp_socket is the only listening socket open exactly if setup_ftp never created one
      while a transfer of the other direction was flagged whose own socket was not lost in a race. */
  lemma ListenersAreExact(acts: seq<Action>, s: State)
    requires Reaches(acts, s)
    ensures (forall x :: x in s.kernel.listeners && x > 1 ==> x == s.ftp.listen) <==> Overlaps(Init(), acts, false) == 0
  {
    LeftBehindIff(acts, s);
    InitInv();
    OverlapsAreOverwrites(Init(), acts, false);
  }

  // ---- The end of the connection ----

  lemma GoneAtEnd(s: State)
    requires Inv(s) && Leaving(s.cmd)
    ensures BothIdle(s.ftp) && WindowOf(s).Quiet? && !s.ftp.portOpen
    ensures forall d :: s.ftp.At(d).file.None? && Flight(s, d).None?
  {
    if s.lock.ByWorker? { assert WorkerOk(s, s.lock.i); }
    assert LaneOk(s, Send) && LaneOk(s, Recv);
    assert LaneFileOk(s, Send) && LaneFileOk(s, Recv);
    forall d ensures s.ftp.At(d).file.None? && Flight(s, d).None? {
      var id := s.ftp.At(d).id;
      if id < |s.workers| { assert WorkerOk(s, id); }
    }
  }

  lemma NoFileAtEnd(s: State, d: Dir, h: nat)
    requires InvFiles(s) && WindowOf(s).Quiet? && s.ftp.At(d).file.None? && Flight(s, d).None?
    ensures (d, h) !in s.kernel.files
  {
    assert LaneFileOk(s, d) by { match d case Send => case Recv => }
  }

  /** When thread_cleanup has made its two check_ftp calls, no file is open, no accepted socket with a number
      that ftp_clean closes, and no listening socket exactly if none was overwritten in the run. */
  lemma NothingStaysOpen(acts: seq<Action>, s: State)
    requires Reaches(acts, s) && Leaving(s.cmd)
    ensures s.kernel.files == {} && (forall x :: x in s.kernel.transfer ==> x <= 1)
    ensures (forall x :: x in s.kernel.listeners ==> x <= 1) <==> Overlaps(Init(), acts, false) == 0
  {
    ReachableRace(acts, s);
    GoneAtEnd(s);
    ListenersAreExact(acts, s);
    forall x | x in s.kernel.transfer ensures x <= 1 {
      assert x > 1 ==> x in High(s.kernel);
    }
    forall d: Dir, h: nat ensures (d, h) !in s.kernel.files {
      NoFileAtEnd(s, d, h);
    }
    assert forall x :: x in s.kernel.files ==> x == (x.0, x.1);
  }

  // ---- Which port a worker accepts on ----

  lemma ActiveWork(s: State, i: nat, ok: bool, fd: int)
    requires WorkEnabled(s, i, ok, fd) && !Stray(s.workers[i].pc)
    ensures var t := WorkNext(s, i, ok, fd);
            && |t.workers| == |s.workers| && (Active(t.workers[i].pc) ==> Active(s.workers[i].pc))
            && forall j :: 0 <= j < |s.workers| && j != i ==> t.workers[j] == s.workers[j]
  {
  }

  lemma ActiveStep(s: State, a: Action, i: nat)
    requires Enabled(s, a) && i < |s.workers| && !Stray(s.workers[i].pc)
    ensures i < |Next(s, a).workers| && (Active(Next(s, a).workers[i].pc) ==> Active(s.workers[i].pc))
  {
    if a.Work? {
      if !Stray(s.workers[a.i].pc) { ActiveWork(s, a.i, a.ok, a.fd); }
    }
  }

  lemma {:induction false} ActiveBefore(s: State, acts: seq<Action>, t: State, i: nat)
    requires Inv(s) && Run(s, acts) == Some(t) && i < |s.workers|
    ensures i < |t.workers| && (Active(t.workers[i].pc) ==> Active(s.workers[i].pc))
    decreases |acts|
  {
    if acts == [] {
    } else {
      assert WorkerOk(s, i);
      StepKeeps(s, acts[0]);
      ActiveStep(s, acts[0], i);
      ActiveBefore(Next(s, acts[0]), acts[1..], t, i);
    }
  }

  /** An active worker keeps its flag up, and thereby the listening socket open. */
  lemma ActiveListens(s: State, a: Action, i: nat)
    requires Inv(s) && InvListen(s) && Enabled(s, a) && i < |s.workers| && Active(s.workers[i].pc)
    ensures ListenLive(s) && InvListen(Next(s, a))
  {
    assert WorkerOk(s, i);
    StepHasEffect(s, a);
    if !Rebinds(s, a) {
      ListenKept(s, Next(s, a));
    }
  }

  lemma ActiveListensNow(s: State, i: nat)
    requires InvWorkers(s) && InvListen(s) && i < |s.workers| && Active(s.workers[i].pc)
    ensures ListenLive(s)
  {
    assert WorkerOk(s, i);
  }

  lemma ContinuesApart(before: seq<Action>, s: State, acts: seq<Action>, t: State)
    requires Reaches(before, s) && Run(s, acts) == Some(t)
    ensures Inv(t) && Apart(t)
  {
    ReachableApart(before, s);
    RunKeeps(s, acts);
    RunKeepsApart(s, acts);
  }

  lemma AnnouncedStep(s: State, a: Action, i: nat)
    requires Inv(s) && InvListen(s) && Apart(s) && Enabled(s, a) && i < |s.workers| && Active(s.workers[i].pc)
    ensures var u := Next(s, a); Inv(u) && InvListen(u) && Apart(u) && i < |u.workers|
    ensures var u := Next(s, a);
            if Rebinds(s, a) then Orphan(u, s.ftp.listen, s.ftp.port)
            else u.ftp.listen == s.ftp.listen && u.ftp.port == s.ftp.port
  {
    StepKeeps(s, a);
    StepKeepsApart(s, a);
    ListenersStep(s, a);
    ActiveListens(s, a, i);
    assert WorkerOk(s, i);
    ActiveStep(s, a, i);
    StepHasEffect(s, a);
  }

  lemma {:induction false} AnnouncedRun(s: State, acts: seq<Action>, t: State, i: nat)
    requires Inv(s) && InvListen(s) && Apart(s) && Run(s, acts) == Some(t)
    requires i < |s.workers| && i < |t.workers| && Active(t.workers[i].pc)
    ensures ListenLive(t)
    ensures Count(s, acts, Rebinds) == 0 ==> t.ftp.listen == s.ftp.listen && t.ftp.port == s.ftp.port
    ensures Count(s, acts, Rebinds) > 0 ==> Orphan(t, s.ftp.listen, s.ftp.port)
    decreases |acts|
  {
    ActiveBefore(s, acts, t, i);
    ActiveListensNow(s, i);
    if acts == [] {
    } else {
      var a := acts[0];
      var u := Next(s, a);
      AnnouncedStep(s, a, i);
      AnnouncedRun(u, acts[1..], t, i);
      if Rebinds(s, a) {
        OrphanRun(u, acts[1..], t, s.ftp.listen, s.ftp.port);
      }
    }
  }

  /** Whether the port a reply announces is that of the open socket on which the command's worker accepts: it
      is exactly if there has been no race before the reply, and setup_ftp has created no listening socket
      between the reply and the accept. A race before the reply shows as port -1, unless its teardown is just
      about to reset the port. */
  lemma AnnouncedPort(before: seq<Action>, s: State, acts: seq<Action>, t: State, i: nat)
    requires Reaches(before, s) && s.cmd.Reply? && i == s.ftp.At(s.cmd.d).id
    requires Run(s, acts) == Some(t) && i < |t.workers| && t.workers[i].pc.Accept?
    requires Raced(Init(), before, false) ==> s.ftp.port == -1
    ensures t.ftp.listen in t.kernel.listeners && t.kernel.listeners[t.ftp.listen] == s.ftp.port
            <==> !Raced(Init(), before, false) && Count(s, acts, Rebinds) == 0
    ensures !Raced(Init(), before, false) ==> ListenLive(t)
  {
    ReachableRace(before, s);
    ReachableApart(before, s);
    if !Raced(Init(), before, false) {
      ContinuesApart(before, s, acts, t);
      AnnouncedRun(s, acts, t, i);
    }
  }

  // ---- It happens ----

  lemma {:induction false} AloneIsRaceFree(s: State, acts: seq<Action>)
    requires NoWorker(acts)
    ensures RaceFree(s, acts)
    decreases |acts|
  {
    if acts == [] {
    } else if Enabled(s, acts[0]) {
      AloneIsRaceFree(Next(s, acts[0]), acts[1..]);
    }
  }

  lemma StaysOrphan(before: seq<Action>, s: State, acts: seq<Action>, t: State, x: int, port: int)
    requires Reaches(before, s) && Run(s, acts) == Some(t) && Orphan(t, x, port)
    ensures forall more, u :: Run(t, more) == Some(u) ==> x in u.kernel.listeners && u.ftp.listen != x
  {
    ContinuesApart(before, s, acts, t);
    forall more, u | Run(t, more) == Some(u) ensures x in u.kernel.listeners && u.ftp.listen != x {
      OrphanRun(t, more, u, x, port);
    }
  }

  lemma AloneRun(s: State, t: State) returns (acts: seq<Action>)
    requires Alone(s, t)
    ensures Run(s, acts) == Some(t) && RaceFree(s, acts)
  {
    acts :| Run(s, acts) == Some(t) && NoWorker(acts);
    AloneIsRaceFree(s, acts);
  }

  lemma PutServed(get: Job, put: Job) returns (t: State)
    ensures Alone(GetStarted(get), t)
    ensures t.kernel.listeners == map[3 := 5000, 4 := 5001] && t.ftp.listen == 4 && t.ftp.port == 5001
    ensures |t.workers| == 2 && t.workers[0].pc.Start? && t.workers[0].job == get
  {
    var s := GetStarted(get);
    Here(s);
    var v := GoAlone(s, s, Cmd(true, 1, 0));
    t := Serve(v, Recv, put, 5001, 4);
    AloneThen(s, v, t);
  }

  /** A get is answered with port 5000; a put arrives before the worker of the get has connected. Its
      setup_ftp creates another listening socket with port 5001: the first one stays open for ever, and
      nobody accepts on it. */
  lemma PutOrphansListener(get: Job, put: Job)
    returns (before: seq<Action>, s: State, acts: seq<Action>, t: State)
    ensures Reaches(before, s) && s.cmd == Reply(Send, get) && s.ftp.port == 5000 && s.ftp.listen == 3
    ensures Run(s, acts) == Some(t) && RaceFree(Init(), before) && RaceFree(s, acts)
    ensures t.kernel.listeners == map[3 := 5000, 4 := 5001] && t.ftp.listen == 4 && t.ftp.port == 5001
    ensures |t.workers| == 2 && t.workers[0].pc.Start? && t.workers[0].job == get
    ensures forall more, u :: Run(t, more) == Some(u) ==> 3 in u.kernel.listeners && u.ftp.listen != 3
  {
    GetStarts(get);
    s := GetStarted(get);
    before := AloneRun(Init(), s);
    t := PutServed(get, put);
    acts := AloneRun(s, t);
    StaysOrphan(before, s, acts, t, 3, 5000);
  }
}
