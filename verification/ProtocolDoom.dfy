/** Which cancellations are fatal: the fate of the join is decided when the command thread has taken the
    lock and found the flag up, before it calls pthread_cancel. */
module ProtocolDoom {
  import opened FtpState
  import opened Protocol
  import opened ProtocolInvariant
  import opened ProtocolPreservation
  import opened ProtocolTheorems
  import opened ProtocolWitness
  import opened ProtocolListener

  /** The command thread holds the lock and is going to cancel and join a worker. */
  predicate Committed(s: State) {
    || (s.cmd.TestFlag? && s.ftp.At(s.cmd.p.d).flag)
    || s.cmd.CancelWorker? || s.cmd.JoinWorker?
  }

  /** The worker registered for that direction has no cancellation point before it next wants the lock. */
  predicate Doomed(s: State)
    requires Committed(s)
  {
    var id := s.ftp.At(s.cmd.p.d).id;
    id < |s.workers| && (s.workers[id].pc.Start? || WaitsForLock(s.workers[id].pc))
  }

  lemma DoomedStep(s: State, a: Action)
    requires InvLock(s) && InvWorkers(s) && Committed(s) && Doomed(s) && Enabled(s, a)
    ensures Committed(Next(s, a)) && Doomed(Next(s, a))
  {
    var id := s.ftp.At(s.cmd.p.d).id;
    assert WorkerOk(s, id);
    if a.Work? || a.Die? {
      assert WorkerOk(s, a.i);
    }
  }

  lemma {:induction false} DoomedRun(s: State, acts: seq<Action>, t: State)
    requires Inv(s) && Committed(s) && Doomed(s) && Run(s, acts) == Some(t)
    ensures Committed(t) && Doomed(t)
    decreases |acts|
  {
    if acts == [] {
    } else {
      StepKeeps(s, acts[0]);
      DoomedStep(s, acts[0]);
      DoomedRun(Next(s, acts[0]), acts[1..], t);
    }
  }

  // ---- Any other worker can still die ----

  /** The command thread is in pthread_join, and the worker has been cancelled. */
  predicate Joining(s: State, i: nat) {
    s.cmd.JoinWorker? && s.ftp.At(s.cmd.p.d).id == i && i < |s.workers| && s.workers[i].cancel
  }

  lemma Reap(o: State, s: State, i: nat) returns (t: State)
    requires Leads(o, s) && Joining(s, i) && (CancelPoint(s.workers[i].pc) || s.workers[i].pc.Cancelled?)
    ensures Leads(o, t) && t.cmd.Sweeping?
  {
    t := s;
    if !s.workers[i].pc.Cancelled? {
      t := Go(o, s, Die(i));
    }
    t := Go(o, t, Cmd(true, 1, 0));
  }

  /** A worker in the middle of its transfer reaches a cancellation point by itself. */
  lemma Drive(o: State, s: State, i: nat) returns (t: State)
    requires Leads(o, s) && Joining(s, i) && Body(s.workers[i].pc)
    ensures Leads(o, t) && t.cmd.Sweeping?
  {
    t := s;
    var w := Work(i, true, 0);
    if t.workers[i].pc.StoreFile? {
      t := Go(o, t, w);
    }
    if t.workers[i].pc.TestFile? {
      t := Go(o, t, w);
    }
    if t.workers[i].pc.Fileno? {
      t := Go(o, t, w);
    }
    t := Reap(o, t, i);
  }

  lemma Cancels(s: State) returns (t: State)
    requires Inv(s) && Committed(s) && !Doomed(s)
    ensures Leads(s, t) && Inv(t) && t.cmd.JoinWorker? && !Doomed(t)
  {
    Here(s);
    assert LaneOk(s, s.cmd.p.d);
    t := s;
    var c := Cmd(true, 1, 0);
    if t.cmd.TestFlag? {
      StepKeeps(t, c);
      t := Go(s, t, c);
    }
    if t.cmd.CancelWorker? {
      StepKeeps(t, c);
      t := Go(s, t, c);
    }
  }

  lemma Escapes(s: State)
    requires Inv(s) && Committed(s) && !Doomed(s)
    ensures exists t :: Leads(s, t) && t.cmd.Sweeping?
  {
    var u := Cancels(s);
    var i := u.ftp.At(u.cmd.p.d).id;
    assert LaneOk(u, u.cmd.p.d);
    assert Joining(u, i);
    assert WorkerOk(u, i);
    var t;
    if Body(u.workers[i].pc) {
      t := Drive(s, u, i);
    } else {
      t := Reap(s, u, i);
    }
  }

  /** Once the command thread has the lock and is going to cancel a worker, it can get past the join
      exactly if that worker is neither at its start nor waiting for the lock. Otherwise every
      continuation stays there. */
  lemma JoinReturnsIff(acts: seq<Action>, s: State)
    requires Reaches(acts, s) && Committed(s)
    ensures (exists t :: Leads(s, t) && t.cmd.Sweeping?) <==> !Doomed(s)
    ensures Doomed(s) ==> forall t :: Leads(s, t) ==> Committed(t) && Doomed(t)
  {
    ReachableInv(acts, s);
    if Doomed(s) {
      forall t | Leads(s, t) ensures Committed(t) && Doomed(t) {
        var more :| Run(s, more) == Some(t);
        DoomedRun(s, more, t);
      }
    } else {
      Escapes(s);
    }
  }

  // ---- When the join returns by itself ----

  predicate NoWork(acts: seq<Action>) {
    forall k :: 0 <= k < |acts| ==> acts[k].Cmd? || acts[k].Die?
  }

  /** From s to t no worker executes an instruction, and no command arrives: the command thread goes on, and
      cancellations take effect. */
  ghost predicate Unaided(s: State, t: State) {
    exists acts :: Run(s, acts) == Some(t) && NoWork(acts)
  }

  lemma GoUnaided(o: State, s: State, a: Action) returns (t: State)
    requires Unaided(o, s) && Enabled(s, a) && (a.Cmd? || a.Die?)
    ensures t == Next(s, a) && Unaided(o, t)
  {
    t := Next(s, a);
    var acts :| Run(o, acts) == Some(s) && NoWork(acts);
    assert Run(t, []) == Some(t);
    RunAppend(o, acts, [a]);
    assert Run(o, acts + [a]) == Some(t) && NoWork(acts + [a]);
  }

  /** The instruction the worker to be joined is at. */
  function JoinedPc(s: State): WPc
    requires Committed(s) && s.ftp.At(s.cmd.p.d).id < |s.workers|
  {
    s.workers[s.ftp.At(s.cmd.p.d).id].pc
  }

  lemma HeldStep(s: State, a: Action)
    requires InvLanes(s) && Committed(s) && Enabled(s, a) && (a.Cmd? || a.Die?)
    requires s.ftp.At(s.cmd.p.d).id < |s.workers|
    requires !CancelPoint(JoinedPc(s)) && !Ended(JoinedPc(s))
    ensures var t := Next(s, a);
            && Committed(t) && t.ftp == s.ftp && t.cmd.p == s.cmd.p && |t.workers| == |s.workers|
            && JoinedPc(t) == JoinedPc(s)
  {
    assert LaneOk(s, s.cmd.p.d);
  }

  lemma {:induction false} HeldRun(s: State, acts: seq<Action>, t: State)
    requires Inv(s) && Committed(s) && s.ftp.At(s.cmd.p.d).id < |s.workers|
    requires !CancelPoint(JoinedPc(s)) && !Ended(JoinedPc(s))
    requires Run(s, acts) == Some(t) && NoWork(acts)
    ensures Committed(t)
    decreases |acts|
  {
    if acts == [] {
    } else {
      StepKeeps(s, acts[0]);
      HeldStep(s, acts[0]);
      HeldRun(Next(s, acts[0]), acts[1..], t);
    }
  }

  lemma CancelTakesEffect(s: State) returns (t: State)
    requires Inv(s) && Committed(s) && s.ftp.At(s.cmd.p.d).id < |s.workers|
    requires CancelPoint(JoinedPc(s)) || JoinedPc(s).Cancelled?
    ensures Unaided(s, t) && t.cmd.Sweeping?
  {
    assert Run(s, []) == Some(s) && NoWork([]);
    assert LaneOk(s, s.cmd.p.d);
    t := s;
    var i, c := s.ftp.At(s.cmd.p.d).id, Cmd(true, 1, 0);
    if t.cmd.TestFlag? {
      t := GoUnaided(s, t, c);
    }
    if t.cmd.CancelWorker? {
      t := GoUnaided(s, t, c);
    }
    if !t.workers[i].pc.Cancelled? {
      t := GoUnaided(s, t, Die(i));
    }
    t := GoUnaided(s, t, c);
  }

  /** Which workers a cancellation ends by itself: the join returns without any further instruction of a
      worker exactly if the worker is dead already, or in fopen, in its transfer (or about to start it), or in
      the messages after it. In particular a worker that is blocked in sendfile or recv is ended there. */
  lemma JoinReturnsUnaided(acts: seq<Action>, s: State)
    requires Reaches(acts, s) && Committed(s)
    ensures s.ftp.At(s.cmd.p.d).id < |s.workers|
    ensures (exists t :: Unaided(s, t) && t.cmd.Sweeping?) <==>
              var pc := JoinedPc(s);
              pc.Cancelled? || pc.Open? || pc.Load? || pc.Transfer? || pc.Report?
  {
    ReachableInv(acts, s);
    assert LaneOk(s, s.cmd.p.d);
    assert WorkerOk(s, s.ftp.At(s.cmd.p.d).id);
    var pc := JoinedPc(s);
    if CancelPoint(pc) || pc.Cancelled? {
      var t := CancelTakesEffect(s);
    } else if t :| Unaided(s, t) && t.cmd.Sweeping? {
      var more :| Run(s, more) == Some(t) && NoWork(more);
      HeldRun(s, more, t);
    }
  }

  // ---- The connection can end ----

  lemma {:induction false} CmdCleanRest(o: State, s: State, p: Purpose, c: Clean, f: Ftp, k: Kernel)
    requires Leads(o, s.(cmd := Sweeping(p, c), ftp := f, kernel := k))
    ensures var (f', k') := Rest(f, k, p.d, c); Leads(o, s.(cmd := Sweeping(p, Done), ftp := f', kernel := k'))
    decreases Left(c)
  {
    if c.Done? {
    } else {
      var (f', k', c') := CleanStep(f, k, p.d, c);
      var u := s.(cmd := Sweeping(p, c), ftp := f, kernel := k);
      var t := Go(o, u, Cmd(true, 1, 0));
      assert t == s.(cmd := Sweeping(p, c'), ftp := f', kernel := k');
      CmdCleanRest(o, s, p, c', f', k');
    }
  }

  /** The instructions of ftp_clean, run by the command thread without interference, add up to Cleaned. */
  lemma CmdCleans(o: State, s: State, p: Purpose) returns (t: State)
    requires Leads(o, s) && s.cmd == Sweeping(p, Fclose)
    ensures t == s.(cmd := DropLock(p), ftp := Cleaned(s.ftp, p.d), kernel := CleanedKernel(s.ftp, s.kernel, p.d))
    ensures Leads(o, t)
  {
    assert s.(cmd := Sweeping(p, Fclose), ftp := s.ftp, kernel := s.kernel) == s;
    CmdCleanRest(o, s, p, Fclose, s.ftp, s.kernel);
    RestIsCleaned(s.ftp, s.kernel, p.d);
    var u := s.(cmd := Sweeping(p, Done), ftp := Cleaned(s.ftp, p.d), kernel := CleanedKernel(s.ftp, s.kernel, p.d));
    t := Go(o, u, Cmd(true, 1, 0));
  }

  /** check_ftp(ftp, p.d, true, false) in the middle of a transfer: the worker is cancelled and joined. */
  lemma StopsTransfer(o: State, s: State, p: Purpose) returns (t: State)
    requires Leads(o, s) && s.cmd == TakeLock(p) && s.lock.Nobody? && s.ftp.At(p.d).flag
    requires var i := s.ftp.At(p.d).id; i < |s.workers| && s.workers[i].pc.Transfer? && s.workers[i].joins == 0
    ensures var i := s.ftp.At(p.d).id;
            t == s.(lock := ByCmd, cmd := DropLock(p), ftp := Cleaned(s.ftp, p.d),
                    kernel := CleanedKernel(s.ftp, s.kernel, p.d),
                    workers := s.workers[i := s.workers[i].(pc := Cancelled, cancel := true, joins := 1)])
    ensures Leads(o, t)
  {
    var i, c := s.ftp.At(p.d).id, Cmd(true, 1, 0);
    t := Go(o, s, c);
    t := Go(o, t, c);
    t := Go(o, t, c);
    t := Go(o, t, Die(i));
    t := Go(o, t, c);
    t := CmdCleans(o, t, p);
  }

  /** The worker of a get reaches its transfer. */
  lemma GetTransfers(get: Job) returns (t: State)
    ensures Leads(Init(), t) && t.cmd.Idle? && t.lock.Nobody? && |t.workers| == 1
    ensures t.workers[0].pc.Transfer? && t.workers[0].joins == 0 && t.ftp.send.flag && t.ftp.send.id == 0
    ensures !t.ftp.recv.flag && t.workers[0].job == get
  {
    var o := Init();
    GetConnects(get);
    t := Go(o, Connected(get), Work(0, true, 7));
    t := Go(o, t, Work(0, true, 0));
    t := Go(o, t, Work(0, true, 0));
    t := Go(o, t, Work(0, true, 0));
    t := Go(o, t, Work(0, true, 0));
  }

  /** From the end of the first check_ftp of thread_cleanup to its return, when no put is flagged. */
  lemma Leaves(o: State, s: State) returns (t: State)
    requires Leads(o, s) && s.cmd == DropLock(Shut(Send)) && !s.ftp.recv.flag
    ensures t == s.(lock := Nobody, cmd := Finished) && Leads(o, t)
  {
    var c := Cmd(true, 1, 0);
    t := Go(o, s, c);
    t := Go(o, t, c);
    t := Go(o, t, c);
    t := Go(o, t, c);
    t := Go(o, t, c);
    t := Go(o, t, c);
  }

  /** The connection may end in the middle of a transfer: thread_cleanup cancels and joins the worker, and
      frees the connection. */
  lemma ConnectionEnds(get: Job)
    ensures exists s :: Leads(Init(), s) && s.cmd.Finished? && |s.workers| == 1
                        && s.workers[0].pc.Cancelled? && s.workers[0].joins == 1 && s.workers[0].job == get
  {
    var o := Init();
    var s := GetTransfers(get);
    s := Go(o, s, Arrive(Shut(Send)));
    s := StopsTransfer(o, s, Shut(Send));
    s := Leaves(o, s);
  }
}
