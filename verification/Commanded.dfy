/** The command session and the transfer protocol together: every worker thread goes back to a get or put
    line of an authenticated user. */
module Commanded {
  import opened FtpState
  import P = Protocol
  import T = ProtocolTheorems
  import opened Numbers
  import opened ReplyText
  import opened SessionModel
  import opened LineEffects
  import opened SessionTheorems

  /** A line that begins the transfer x, processed in s: an authenticated get of a file at the relative
      directory, or put of a file to the working directory with the size given. */
  ghost predicate Begins(s: Session, input: Input, x: (Dir, Job))
    requires input.line != ""
  {
    && s.auth
    && match x.0
       case Send =>
         && IsCommand(input.line, "get", 1) && |Said(input.line)[1]| <= 32
         && x.1 == Job("root" + s.relativePwd + "/" + Said(input.line)[1], input.env.fileSize.Or(0))
       case Recv =>
         && IsCommand(input.line, "put", 2)
         && x.1.size == ToSize(Atoi(Said(input.line)[2]).Or(input.env.wild))
         && (|s.pwd| + 1 + |Said(input.line)[1]| <= 384 ==> x.1.path == s.pwd + "/" + Said(input.line)[1])
  }

  lemma OthersBeginNothing(s: Session, input: Input)
    requires s.root != "" && input.line != ""
    requires !s.auth || (!IsCommand(input.line, "get", 1) && !IsCommand(input.line, "put", 2))
    ensures Turn(s, input).begun == s.begun
  {
    var o := Dispatch(s.auth, input.line);
    if o.Runs? {
      RunsCommand(s.auth, input.line);
      RunsTurn(s, input, o.id, o.args);
      HandleFrame(s.(out := ""), o.id, o.args, input.env);
    } else {
      NoHandlerTurn(s, input);
    }
  }

  /** A line begins one transfer if it is such a get or put, and none otherwise. */
  lemma TurnBegins(s: Session, input: Input)
    requires s.root != "" && input.line != ""
    ensures var t, line := Turn(s, input), input.line;
            if s.auth && ((IsCommand(line, "get", 1) && |Said(line)[1]| <= 32) || IsCommand(line, "put", 2))
            then |t.begun| == |s.begun| + 1 && s.begun <= t.begun && Begins(s, input, t.begun[|s.begun|])
            else t.begun == s.begun
  {
    var line := input.line;
    if s.auth && IsCommand(line, "get", 1) {
      CommandSays(line, "get", 1);
      GetLine(s, input, Said(line)[1]);
    } else if s.auth && IsCommand(line, "put", 2) {
      CommandSays(line, "put", 2);
      PutLine(s, input, Said(line)[1], Said(line)[2]);
    } else {
      OthersBeginNothing(s, input);
    }
  }

  /** The n-th line of the session is reached and begins x. */
  ghost predicate BegunBy(s: Session, inputs: seq<Input>, n: nat, x: (Dir, Job))
    requires s.root != "" && Lines(inputs)
  {
    && n < |inputs|
    && !RunLines(s, inputs[..n]).exit && !HungUp(inputs[..n]) && Begins(RunLines(s, inputs[..n]), inputs[n], x)
  }

  /** The transfers begun by the first n lines. */
  ghost function BegunAfter(s: Session, inputs: seq<Input>, n: nat): seq<(Dir, Job)>
    requires s.root != "" && Lines(inputs) && n <= |inputs|
  {
    RunLines(s, inputs[..n]).begun
  }

  /** The n-th line begins at most one transfer. */
  lemma LineBegins(s: Session, inputs: seq<Input>, n: nat)
    requires s.root != "" && Lines(inputs) && n < |inputs|
    ensures var was, now := BegunAfter(s, inputs, n), BegunAfter(s, inputs, n + 1);
            now == was || (|now| == |was| + 1 && was <= now && BegunBy(s, inputs, n, now[|was|]))
  {
    var before := inputs[..n];
    assert inputs[..n + 1][..n] == before;
    var u := RunLines(s, before);
    if !u.exit && !HungUp(before) {
      TurnBegins(u, inputs[n]);
    }
  }

  /** In a list that grows by at most one element at a time, every element beyond the first list was added
      at some time. */
  lemma {:induction false} AddedAt(lists: seq<seq<(Dir, Job)>>, k: nat) returns (n: nat)
    requires lists != [] && |lists[0]| <= k < |lists[|lists| - 1]|
    requires forall i :: 0 <= i < |lists| - 1 ==>
               lists[i + 1] == lists[i] || (|lists[i + 1]| == |lists[i]| + 1 && lists[i] <= lists[i + 1])
    ensures n < |lists| - 1 && |lists[n]| < |lists[n + 1]| && lists[n + 1][|lists[n]|] == lists[|lists| - 1][k]
    decreases |lists|
  {
    var last := |lists| - 1;
    if k < |lists[last - 1]| {
      n := AddedAt(lists[..last], k);
    } else {
      n := last - 1;
    }
  }

  /** Every transfer a session has begun was begun by one of its lines. */
  lemma EveryTransferHasItsLine(s: Session, inputs: seq<Input>, k: nat)
    requires s.root != "" && Lines(inputs) && |s.begun| <= k < |BegunAfter(s, inputs, |inputs|)|
    ensures exists n: nat :: BegunBy(s, inputs, n, BegunAfter(s, inputs, |inputs|)[k])
  {
    var lists := seq(|inputs| + 1, i requires 0 <= i < |inputs| + 1 => BegunAfter(s, inputs, i));
    forall i | 0 <= i < |inputs|
      ensures lists[i + 1] == lists[i] || (|lists[i + 1]| == |lists[i]| + 1 && lists[i] <= lists[i + 1])
    {
      LineBegins(s, inputs, i);
    }
    assert lists[0] == s.begun;
    var n := AddedAt(lists, k);
    LineBegins(s, inputs, n);
  }

  /** If the commands that reach the transfer protocol are those of a session, in their order, then every
      worker thread was begun by a line of that session: a get or put that an authenticated user entered,
      with the worker's direction, path and size. */
  lemma WorkersWereCommanded(acts: seq<P.Action>, p: P.State, s: Session, inputs: seq<Input>, i: nat)
    requires s.root != "" && Lines(inputs) && s.begun == []
    requires T.Reaches(acts, p) && T.Requests(acts) <= BegunAfter(s, inputs, |inputs|) && i < |p.workers|
    ensures exists n: nat :: BegunBy(s, inputs, n, (p.workers[i].dir, p.workers[i].job))
  {
    T.WorkersWereAskedFor(acts, p);
    var x := (p.workers[i].dir, p.workers[i].job);
    assert T.Spawned(p)[i] == x;
    assert x in multiset(T.Spawned(p));
    assert x in multiset(T.Requests(acts));
    assert x in T.Requests(acts);
    var k :| 0 <= k < |T.Requests(acts)| && T.Requests(acts)[k] == x;
    EveryTransferHasItsLine(s, inputs, k);
  }

  /** The n-th line comes after a credential check that succeeded, with no logout since. */
  ghost predicate LoggedIn(s: Session, inputs: seq<Input>, n: nat)
    requires s.root != "" && Lines(inputs)
  {
    n <= |inputs| && PassedSinceLogout(Events(s, inputs[..n]))
  }

  lemma TransferNeedsLogin(s: Session, inputs: seq<Input>, n: nat, x: (Dir, Job))
    requires s.root != "" && Lines(inputs) && !s.auth && BegunBy(s, inputs, n, x)
    ensures LoggedIn(s, inputs, n)
  {
    AuthHistory(s, inputs[..n]);
  }

  /** So no worker thread exists without a credential check that succeeded before its command. */
  lemma WorkersNeedLogin(acts: seq<P.Action>, p: P.State, s: Session, inputs: seq<Input>, i: nat)
    requires s.root != "" && Lines(inputs) && s.begun == [] && !s.auth
    requires T.Reaches(acts, p) && T.Requests(acts) <= BegunAfter(s, inputs, |inputs|) && i < |p.workers|
    ensures exists n: nat :: LoggedIn(s, inputs, n) && BegunBy(s, inputs, n, (p.workers[i].dir, p.workers[i].job))
  {
    WorkersWereCommanded(acts, p, s, inputs, i);
    var x := (p.workers[i].dir, p.workers[i].job);
    var n: nat :| BegunBy(s, inputs, n, x);
    TransferNeedsLogin(s, inputs, n, x);
  }
}
