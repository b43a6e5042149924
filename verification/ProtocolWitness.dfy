/** Building runs of the transfer protocol, and runs that show where it falls short. */
module ProtocolWitness {
  import opened FtpState
  import opened Protocol
  import opened ProtocolTheorems

  // ---- Building runs ----

  ghost predicate Leads(s: State, t: State) {
    exists acts :: Run(s, acts) == Some(t)
  }

  lemma {:induction false} RunAppend(s: State, a: seq<Action>, b: seq<Action>)
    ensures Run(s, a + b) == if Run(s, a).Some? then Run(Run(s, a).value, b) else None
    decreases |a|
  {
    if a == [] {
      assert a + b == b;
    } else {
      assert (a + b)[0] == a[0] && (a + b)[1..] == a[1..] + b;
      if Enabled(s, a[0]) {
        RunAppend(Next(s, a[0]), a[1..], b);
      }
    }
  }

  lemma One(s: State, a: Action)
    requires Enabled(s, a)
    ensures Leads(s, Next(s, a))
  {
    assert Run(Next(s, a), []) == Some(Next(s, a));
    assert Run(s, [a]) == Some(Next(s, a));
  }

  lemma Then(s: State, t: State, u: State)
    requires Leads(s, t) && Leads(t, u)
    ensures Leads(s, u)
  {
    var a :| Run(s, a) == Some(t);
    var b :| Run(t, b) == Some(u);
    RunAppend(s, a, b);
    assert Run(s, a + b) == Some(u);
  }

  lemma Go(o: State, s: State, a: Action) returns (t: State)
    requires Leads(o, s) && Enabled(s, a)
    ensures t == Next(s, a) && Leads(o, t)
  {
    t := Next(s, a);
    One(s, a);
    Then(o, s, t);
  }

  predicate NoWorker(acts: seq<Action>) {
    forall k :: 0 <= k < |acts| ==> acts[k].Arrive? || acts[k].Cmd?
  }

  /** The command thread leads from s to t while no worker takes a step. */
  ghost predicate Alone(s: State, t: State) {
    exists acts :: Run(s, acts) == Some(t) && NoWorker(acts)
  }

  lemma Here(s: State)
    ensures Leads(s, s) && Alone(s, s)
  {
    assert Run(s, []) == Some(s) && NoWorker([]);
  }

  lemma AloneThen(s: State, t: State, u: State)
    requires Alone(s, t) && Alone(t, u)
    ensures Alone(s, u)
  {
    var a :| Run(s, a) == Some(t) && NoWorker(a);
    var b :| Run(t, b) == Some(u) && NoWorker(b);
    RunAppend(s, a, b);
    assert Run(s, a + b) == Some(u) && NoWorker(a + b);
  }

  lemma ThenAlone(o: State, s: State, t: State)
    requires Leads(o, s) && Alone(s, t)
    ensures Leads(o, t)
  {
    assert Leads(s, t);
    Then(o, s, t);
  }

  lemma GoAlone(o: State, s: State, a: Action) returns (t: State)
    requires Alone(o, s) && Enabled(s, a) && (a.Arrive? || a.Cmd?)
    ensures t == Next(s, a) && Alone(o, t)
  {
    t := Next(s, a);
    assert Run(t, []) == Some(t);
    assert Run(s, [a]) == Some(t) && NoWorker([a]);
    AloneThen(o, s, t);
  }

  // ---- A get or put as the command thread runs it when nobody interferes ----

  /** From the arrival of a command whose direction is idle to the point before setup_ftp. */
  lemma Prepare(s: State, d: Dir, job: Job) returns (t: State)
    requires s.cmd.Idle? && s.lock.Nobody? && !s.ftp.At(d).flag
    ensures t == s.(ftp := s.ftp.With(d, s.ftp.At(d).(path := job.path, size := job.size)), cmd := SetupTake(d, job))
    ensures Alone(s, t)
  {
    var c := Cmd(true, 1, 0);
    Here(s);
    t := GoAlone(s, s, Arrive(Begin(d, job)));
    t := GoAlone(s, t, c);
    t := GoAlone(s, t, c);
    t := GoAlone(s, t, c);
    assert t == s.(cmd := ErasePath(d, job));
    t := GoAlone(s, t, c);
    t := GoAlone(s, t, c);
    t := GoAlone(s, t, c);
  }

  /** A get whose file check_file_validity refuses leaves its path behind, and starts no worker. */
  lemma GetRefused(s: State, job: Job) returns (t: State)
    requires s.cmd.Idle? && s.lock.Nobody? && !s.ftp.send.flag
    ensures t == s.(ftp := s.ftp.(send := s.ftp.send.(path := job.path)))
    ensures Alone(s, t)
  {
    var c := Cmd(false, 0, 0);
    Here(s);
    t := GoAlone(s, s, Arrive(Begin(Send, job)));
    t := GoAlone(s, t, c);
    t := GoAlone(s, t, c);
    t := GoAlone(s, t, c);
    t := GoAlone(s, t, c);
    t := GoAlone(s, t, c);
    t := GoAlone(s, t, c);
  }

  /** The kernel after setup_ftp. */
  function WithListener(s: State, created: Option<(nat, int)>): Kernel {
    if s.ftp.portOpen || created.None? then s.kernel
    else s.kernel.(listeners := s.kernel.listeners[created.value.1 := created.value.0])
  }

  /** The steps of setup_ftp, run without interference, add up to Listening. */
  lemma Setup(s: State, d: Dir, job: Job, created: Option<(nat, int)>) returns (t: State)
    requires s.cmd == SetupTake(d, job) && s.lock.Nobody?
    requires !s.ftp.portOpen && created.Some? ==> NewPort(s.kernel, created.value.0) && NewFd(s.kernel, created.value.1)
    ensures t == s.(ftp := Listening(s.ftp, created), kernel := WithListener(s, created),
                    cmd := if s.ftp.portOpen || created.Some? then RaiseFlag(d, job) else Idle)
    ensures Alone(s, t)
  {
    var c := match created case Some(n) => Cmd(true, n.0, n.1) case None => Cmd(false, 0, 0);
    Here(s);
    t := GoAlone(s, s, c);
    t := GoAlone(s, t, c);
    if !s.ftp.portOpen {
      t := GoAlone(s, t, c);
    }
    t := GoAlone(s, t, c);
  }

  /** From raising the flag to the point before the reply. */
  lemma Launch(s: State, d: Dir, job: Job) returns (t: State)
    requires s.cmd == RaiseFlag(d, job)
    ensures t == s.(ftp := s.ftp.With(d, s.ftp.At(d).(flag := true, id := |s.workers|)).(user := Server),
                    workers := s.workers + [Worker(d, job, Start, false, 0, -1, None, None)], cmd := Reply(d, job))
    ensures Alone(s, t)
  {
    var c := Cmd(true, 1, 0);
    Here(s);
    t := GoAlone(s, s, c);
    t := GoAlone(s, t, c);
    t := GoAlone(s, t, c);
  }

  /** The whole command up to its reply, with a new listening socket. */
  lemma Serve(s: State, d: Dir, job: Job, port: nat, fd: int) returns (t: State)
    requires s.cmd.Idle? && s.lock.Nobody? && !s.ftp.At(d).flag && !s.ftp.portOpen
    requires NewPort(s.kernel, port) && NewFd(s.kernel, fd)
    ensures t.ftp == s.ftp.With(d, s.ftp.At(d).(flag := true, id := |s.workers|, path := job.path, size := job.size)).(
                       port := port, listen := fd, user := Server)
    ensures t == State(t.ftp, s.kernel.(listeners := s.kernel.listeners[fd := port]), Nobody, Reply(d, job),
                       s.workers + [Worker(d, job, Start, false, 0, -1, None, None)])
    ensures Alone(s, t)
  {
    var u := Prepare(s, d, job);
    var v := Setup(u, d, job, Some((port, fd)));
    AloneThen(s, u, v);
    t := Launch(v, d, job);
    AloneThen(s, v, t);
  }

  // ---- A worker connecting when nobody interferes ----

  /** The steps of connect_ftp_server, run without interference, add up to Connecting. */
  lemma Connect(o: State, s: State, i: nat, sock: int) returns (t: State)
    requires Leads(o, s) && i < |s.workers| && s.workers[i].pc.ConnLock? && s.lock.Nobody?
    requires !s.ftp.portOpen && sock >= 0 ==> NewFd(s.kernel, sock) && sock != s.ftp.listen
    ensures var f := Connecting(s.ftp, sock);
            var accepted := !s.ftp.portOpen && sock >= 0;
            t == s.(ftp := f,
                    kernel := if accepted then s.kernel.(transfer := s.kernel.transfer + {sock}) else s.kernel,
                    workers := s.workers[i := if f.portOpen then s.workers[i].(pc := Open, conn := f.sock)
                                              else s.workers[i].(pc := Report(ConnectFailed))])
    ensures Leads(o, t)
  {
    var w := Work(i, sock >= 0, sock);
    t := Go(o, s, w);
    t := Go(o, t, w);
    if !s.ftp.portOpen {
      t := Go(o, t, w);
      if sock >= 0 {
        t := Go(o, t, w);
        t := Go(o, t, w);
      }
    }
    t := Go(o, t, w);
  }

  // ---- The join deadlock happens ----

  function GetStarted(job: Job): State {
    State(Ftp(Lane(true, 0, None, job.path, job.size), Lane(false, 0, None, "", 0), false, 3, 5000, -1, Server),
          Kernel({}, map[3 := 5000], {}), Nobody, Reply(Send, job),
          [Worker(Send, job, Start, false, 0, -1, None, None)])
  }

  lemma GetStarts(job: Job)
    ensures Alone(Init(), GetStarted(job)) && Leads(Init(), GetStarted(job))
  {
    var s := Serve(Init(), Send, job, 5000, 3);
    assert s.kernel == Kernel({}, map[3 := 5000], {});
    assert s == GetStarted(job);
  }

  /** A second get before the first worker has locked for its accept: the deadlock is reachable. */
  lemma DeadlockIsReachable(job: Job, job2: Job)
    ensures exists s :: Leads(Init(), s) && JoinDeadlock(s)
  {
    GetStarts(job);
    var o, c := Init(), Cmd(true, 5000, 3);
    var s := Go(o, GetStarted(job), c);
    s := Go(o, s, Arrive(Begin(Send, job2)));
    s := Go(o, s, c);
    s := Go(o, s, c);
    s := Go(o, s, c);
    s := Go(o, s, Work(0, true, 0));
    assert JoinDeadlock(s);
  }

  // ---- ftp_clean without interference ----

  function WithClean(s: State, i: nat, why: Why, c: Clean, f: Ftp, k: Kernel): State
    requires i < |s.workers|
  {
    Move(s, i, Cleaning(why, c)).(ftp := f, kernel := k)
  }

  lemma CleanOne(o: State, s: State, i: nat, why: Why, c: Clean, f: Ftp, k: Kernel) returns (t: State)
    requires i < |s.workers| && Leads(o, WithClean(s, i, why, c, f, k)) && !c.Done?
    ensures var (f', k', c') := CleanStep(f, k, s.workers[i].dir, c);
            t == WithClean(s, i, why, c', f', k')
    ensures Leads(o, t)
  {
    var u := WithClean(s, i, why, c, f, k);
    var (f', k', c') := CleanStep(f, k, s.workers[i].dir, c);
    t := Go(o, u, Work(i, true, 0));
    assert t.workers == s.workers[i := s.workers[i].(pc := Cleaning(why, c'))];
  }

  /** All the instructions from c on, run by worker i without interference. */
  lemma {:induction false} CleanRest(o: State, s: State, i: nat, why: Why, c: Clean, f: Ftp, k: Kernel)
    requires i < |s.workers| && Leads(o, WithClean(s, i, why, c, f, k))
    ensures var (f', k') := Rest(f, k, s.workers[i].dir, c); Leads(o, WithClean(s, i, why, Done, f', k'))
    decreases Left(c)
  {
    if c.Done? {
    } else {
      var (f', k', c') := CleanStep(f, k, s.workers[i].dir, c);
      var t := CleanOne(o, s, i, why, c, f, k);
      CleanRest(o, s, i, why, c', f', k');
    }
  }

  /** The instructions of ftp_clean, run by a worker without interference, add up to Cleaned, and
      end with the lock free and the thread exiting. */
  lemma WorkerCleans(o: State, s: State, i: nat, why: Why) returns (t: State)
    requires Leads(o, s) && i < |s.workers| && s.workers[i].pc == Cleaning(why, Fclose)
    ensures t == Move(s, i, Exiting).(
                   lock := Nobody, ftp := Cleaned(s.ftp, s.workers[i].dir),
                   kernel := CleanedKernel(s.ftp, s.kernel, s.workers[i].dir))
    ensures Leads(o, t)
  {
    var d := s.workers[i].dir;
    assert WithClean(s, i, why, Fclose, s.ftp, s.kernel) == s;
    CleanRest(o, s, i, why, Fclose, s.ftp, s.kernel);
    RestIsCleaned(s.ftp, s.kernel, d);
    var u := WithClean(s, i, why, Done, Cleaned(s.ftp, d), CleanedKernel(s.ftp, s.kernel, d));
    t := Go(o, u, Work(i, true, 0));
    assert t.workers == s.workers[i := s.workers[i].(pc := Exiting)];
  }

  // ---- The reply to a get can announce size 0 ----

  /** ftp_connect on a listening socket whose accept fails, up to the clean-up. */
  lemma AcceptFails(o: State, s: State, i: nat) returns (t: State)
    requires Leads(o, s) && i < |s.workers| && s.workers[i].pc.Start?
    requires s.lock.Nobody? && s.ftp.user.Server? && !s.ftp.portOpen && s.ftp.At(s.workers[i].dir).flag
    ensures t == Move(s, i, Cleaning(ConnectFailed, Fclose)).(lock := ByWorker(i))
    ensures Leads(o, t)
  {
    var w := Work(i, false, 0);
    t := Go(o, s, w);
    t := Connect(o, t, i, -1);
    assert t == Move(s, i, Report(ConnectFailed));
    t := Go(o, t, w);
    t := Go(o, t, w);
    t := Go(o, t, w);
  }

  /** The size is read after the worker was spawned: if that worker has already given up, the reply
      announces 0 for a file that is not empty, and -1 for the port. */
  lemma ReplyCanBeWrong(job: Job)
    requires job.size > 0
    ensures exists s :: Leads(Init(), s) && s.cmd == Reply(Send, job) && s.ftp.send.size != job.size && s.ftp.port == -1
  {
    GetStarts(job);
    var o := Init();
    var s := AcceptFails(o, GetStarted(job), 0);
    s := WorkerCleans(o, s, 0, ConnectFailed);
    assert s.cmd == Reply(Send, job) && s.ftp.send.size == 0;
  }

  // ---- How a worker ends ----

  /** From the messages before check_ftp to the worker's exit, without interference: its direction is cleaned
      and the lock is free. */
  lemma WorkerEnds(o: State, s: State, i: nat) returns (t: State)
    requires Leads(o, s) && i < |s.workers| && s.workers[i].pc.Report? && s.lock.Nobody?
    requires s.ftp.At(s.workers[i].dir).flag
    ensures t == Move(s, i, Exited).(
                   ftp := Cleaned(s.ftp, s.workers[i].dir),
                   kernel := CleanedKernel(s.ftp, s.kernel, s.workers[i].dir))
    ensures Leads(o, t)
  {
    var w, why := Work(i, true, 0), s.workers[i].pc.why;
    t := Go(o, s, w);
    t := Go(o, t, w);
    t := Go(o, t, w);
    assert t == Move(s, i, Cleaning(why, Fclose)).(lock := ByWorker(i));
    t := WorkerCleans(o, t, i, why);
    t := Go(o, t, w);
    assert t.workers == s.workers[i := s.workers[i].(pc := Exited)];
  }

  /** The end of file_send or file_recv, whatever its result, is the end of the worker. */
  lemma TransferEnds(o: State, s: State, i: nat, result: int) returns (t: State)
    requires Leads(o, s) && i < |s.workers| && s.workers[i].pc.Transfer? && s.lock.Nobody?
    requires s.ftp.At(s.workers[i].dir).flag
    ensures t == Move(s, i, Exited).(
                   ftp := Cleaned(s.ftp, s.workers[i].dir),
                   kernel := CleanedKernel(s.ftp, s.kernel, s.workers[i].dir))
    ensures Leads(o, t)
  {
    t := Go(o, s, Work(i, result >= 0, result));
    t := WorkerEnds(o, t, i);
    assert t.workers == s.workers[i := s.workers[i].(pc := Exited)];
  }

  /** So is a failing fileno: nothing is transferred. */
  lemma FilenoFails(o: State, s: State, i: nat) returns (t: State)
    requires Leads(o, s) && i < |s.workers| && s.workers[i].pc.Fileno? && s.lock.Nobody?
    requires s.ftp.At(s.workers[i].dir).flag
    ensures t == Move(s, i, Exited).(
                   ftp := Cleaned(s.ftp, s.workers[i].dir),
                   kernel := CleanedKernel(s.ftp, s.kernel, s.workers[i].dir))
    ensures Leads(o, t)
  {
    t := Go(o, s, Work(i, false, 0));
    t := WorkerEnds(o, t, i);
    assert t.workers == s.workers[i := s.workers[i].(pc := Exited)];
  }
}
