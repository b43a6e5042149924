/** Properties of every run of command lines. */
module SessionTheorems {
  import opened FtpState
  import opened Numbers
  import opened Tokens
  import opened Replace
  import opened SessionModel
  import opened LineEffects

  // ---- The account over a run ----

  /** What a line does to the user's account. */
  datatype Event = Nothing | LoginRun | CheckFailed | CheckPassed | LoggedOut

  /** The event of a line, when the name supplied by the last login is name. */
  ghost function EventOf(s: Session, name: string, line: string): Event
    requires line != ""
  {
    if IsCommand(line, "login", 1) then LoginRun
    else if IsCommand(line, "logout", 0) && s.auth then LoggedOut
    else if IsCommand(line, "pass", 1) && |Said(line)[1]| <= 32 && !s.auth && s.readyForCheck then
      if Known(s.users, First(name, 32), Said(line)[1]) then CheckPassed else CheckFailed
    else Nothing
  }

  /** The argument of the last login line that was processed. */
  ghost function NameSaid(s: Session, inputs: seq<Input>): string
    requires s.root != "" && Lines(inputs)
    decreases |inputs|
  {
    if inputs == [] then s.tmpUsername
    else
      var before, last := inputs[..|inputs| - 1], inputs[|inputs| - 1].line;
      if !RunLines(s, before).exit && !HungUp(before) && IsCommand(last, "login", 1) then Said(last)[1]
      else NameSaid(s, before)
  }

  ghost function Events(s: Session, inputs: seq<Input>): seq<Event>
    requires s.root != "" && Lines(inputs)
    decreases |inputs|
  {
    if inputs == [] then []
    else
      var before := inputs[..|inputs| - 1];
      var t := RunLines(s, before);
      Events(s, before) + [if t.exit || HungUp(before) then Nothing
                           else EventOf(t, NameSaid(s, before), inputs[|inputs| - 1].line)]
  }

  predicate SameAccount(s: Session, t: Session) {
    && t.auth == s.auth && t.readyForCheck == s.readyForCheck && t.exit == s.exit
    && t.tmpUsername == s.tmpUsername && t.username == s.username
  }

  lemma MkdirKeepsAccount(s: Session, arg: string, e: Env)
    ensures SameAccount(s, DoMkdir(s, arg, e).0)
  {
  }

  lemma CdKeepsAccount(s: Session, arg: string, e: Env)
    requires s.root != ""
    ensures SameAccount(s, DoCd(s, arg, e).0)
  {
  }

  lemma TransferKeepsAccount(s: Session, arg: string, size: string, e: Env)
    ensures SameAccount(s, DoGet(s, arg, e).0) && SameAccount(s, DoPut(s, arg, size, e).0)
  {
  }

  lemma OthersKeepAccount(s: Session, id: CmdId, args: seq<string>, e: Env)
    requires s.root != "" && |args| == Params(id) && !id.Login? && !id.Pass? && !id.Logout? && !id.Exit?
    ensures SameAccount(s, Handle(s, id, args, e).0)
  {
    match id
    case Mkdir => MkdirKeepsAccount(s, args[0], e);
    case Cd => CdKeepsAccount(s, args[0], e);
    case Get => TransferKeepsAccount(s, args[0], "", e);
    case Put => TransferKeepsAccount(s, args[0], args[1], e);
    case _ =>
  }

  /** Only login, pass, logout and exit lines change the account. */
  lemma OtherLinesKeepAccount(s: Session, input: Input)
    requires s.root != "" && input.line != ""
    requires !IsCommand(input.line, "login", 1) && !IsCommand(input.line, "pass", 1)
    requires !IsCommand(input.line, "logout", 0) && !IsCommand(input.line, "exit", 0)
    ensures SameAccount(s, Turn(s, input))
  {
    var o := Dispatch(s.auth, input.line);
    if o.Runs? {
      RunsCommand(s.auth, input.line);
      RunsTurn(s, input, o.id, o.args);
      OthersKeepAccount(s.(out := ""), o.id, o.args, input.env);
    } else {
      NoHandlerTurn(s, input);
    }
  }

  /** What an event does to the account, when the name supplied is name. */
  predicate AuthStep(s: Session, name: string, t: Session, ev: Event) {
    && t.auth == (if ev.CheckPassed? then true else if ev.LoggedOut? then false else s.auth)
    && t.readyForCheck == (if ev.LoginRun? then true
                           else if ev.CheckPassed? || ev.CheckFailed? then false
                           else s.readyForCheck)
    && t.username == (if ev.CheckPassed? then First(name, 32) else s.username)
    && (ev.CheckPassed? || ev.CheckFailed? ==> s.readyForCheck)
  }

  lemma TurnAuth(s: Session, name: string, input: Input)
    requires s.root != "" && input.line != "" && First(s.tmpUsername, 32) == First(name, 32)
    ensures AuthStep(s, name, Turn(s, input), EventOf(s, name, input.line))
  {
    var line := input.line;
    if IsCommand(line, "login", 1) {
      CommandSays(line, "login", 1);
      LoginLine(s, input, Said(line)[1]);
    } else if IsCommand(line, "pass", 1) {
      CommandSays(line, "pass", 1);
      PassLine(s, input, Said(line)[1]);
    } else if IsCommand(line, "logout", 0) {
      CommandSays(line, "logout", 0);
      if s.auth { LogoutLine(s, input); } else { RefusedCommand(s, input); }
    } else if IsCommand(line, "exit", 0) {
      CommandSays(line, "exit", 0);
      ExitLine(s, input);
    } else {
      OtherLinesKeepAccount(s, input);
    }
  }

  /** What a line does to the name kept for the check, and to exit. */
  lemma TurnName(s: Session, input: Input)
    requires s.root != "" && input.line != ""
    ensures Turn(s, input).tmpUsername ==
              if IsCommand(input.line, "login", 1) then First(Said(input.line)[1], 33) else s.tmpUsername
    ensures Turn(s, input).exit <==> s.exit || IsCommand(input.line, "exit", 0)
  {
    var line := input.line;
    if IsCommand(line, "login", 1) {
      CommandSays(line, "login", 1);
      LoginLine(s, input, Said(line)[1]);
    } else if IsCommand(line, "pass", 1) {
      CommandSays(line, "pass", 1);
      PassLine(s, input, Said(line)[1]);
    } else if IsCommand(line, "logout", 0) {
      CommandSays(line, "logout", 0);
      if s.auth { LogoutLine(s, input); } else { RefusedCommand(s, input); }
    } else if IsCommand(line, "exit", 0) {
      CommandSays(line, "exit", 0);
      ExitLine(s, input);
    } else {
      OtherLinesKeepAccount(s, input);
    }
  }

  /** The session keeps the beginning of the name that the last login line supplied. */
  lemma {:induction false} RunName(s: Session, inputs: seq<Input>)
    requires s.root != "" && Lines(inputs)
    ensures First(RunLines(s, inputs).tmpUsername, 32) == First(NameSaid(s, inputs), 32)
    decreases |inputs|
  {
    if inputs == [] {
    } else {
      var before, last := inputs[..|inputs| - 1], inputs[|inputs| - 1];
      RunName(s, before);
      var t := RunLines(s, before);
      if !t.exit && !HungUp(before) {
        TurnName(t, last);
      }
    }
  }

  /** The last event that matters is a passed check. */
  ghost predicate PassedSinceLogout(events: seq<Event>) {
    exists k :: 0 <= k < |events| && events[k].CheckPassed? && forall j :: k < j < |events| ==> !events[j].LoggedOut?
  }

  lemma PassedAppend(events: seq<Event>, ev: Event)
    ensures PassedSinceLogout(events + [ev]) <==>
              ev.CheckPassed? || (!ev.LoggedOut? && PassedSinceLogout(events))
  {
    var all := events + [ev];
    if PassedSinceLogout(events) && !ev.LoggedOut? {
      var k :| 0 <= k < |events| && events[k].CheckPassed? && forall j :: k < j < |events| ==> !events[j].LoggedOut?;
      assert all[k].CheckPassed?;
    }
    if ev.CheckPassed? {
      assert all[|events|].CheckPassed?;
    }
    if PassedSinceLogout(all) && !ev.CheckPassed? {
      var k :| 0 <= k < |all| && all[k].CheckPassed? && forall j :: k < j < |all| ==> !all[j].LoggedOut?;
      assert events[k].CheckPassed?;
      assert all[|events|] == ev;
      assert forall j :: 0 <= j < |events| ==> events[j] == all[j];
    }
  }

  /** A login has not been followed by a check. */
  ghost predicate LoginPending(events: seq<Event>) {
    exists k :: 0 <= k < |events| && events[k].LoginRun? &&
      forall j :: k < j < |events| ==> !events[j].CheckPassed? && !events[j].CheckFailed?
  }

  lemma PendingAppend(events: seq<Event>, ev: Event)
    ensures LoginPending(events + [ev]) <==>
              ev.LoginRun? || (!ev.CheckPassed? && !ev.CheckFailed? && LoginPending(events))
  {
    var all := events + [ev];
    assert all[|events|] == ev && forall j :: 0 <= j < |events| ==> all[j] == events[j];
    if LoginPending(events) && !ev.CheckPassed? && !ev.CheckFailed? {
      var k :| 0 <= k < |events| && events[k].LoginRun? &&
        forall j :: k < j < |events| ==> !events[j].CheckPassed? && !events[j].CheckFailed?;
      assert all[k].LoginRun?;
    }
    if LoginPending(all) && !ev.LoginRun? {
      var k :| 0 <= k < |all| && all[k].LoginRun? &&
        forall j :: k < j < |all| ==> !all[j].CheckPassed? && !all[j].CheckFailed?;
      assert events[k].LoginRun?;
    }
  }

  /** One more line: its event, and what it does to the account. */
  lemma RunAuth(s: Session, inputs: seq<Input>) returns (u: Session, events: seq<Event>, ev: Event)
    requires s.root != "" && Lines(inputs) && inputs != []
    ensures u == RunLines(s, inputs[..|inputs| - 1]) && events == Events(s, inputs[..|inputs| - 1])
    ensures Events(s, inputs) == events + [ev]
    ensures AuthStep(u, NameSaid(s, inputs[..|inputs| - 1]), RunLines(s, inputs), ev)
  {
    var before, last := inputs[..|inputs| - 1], inputs[|inputs| - 1];
    u := RunLines(s, before);
    events := Events(s, before);
    ev := if u.exit || HungUp(before) then Nothing else EventOf(u, NameSaid(s, before), last.line);
    if !u.exit && !HungUp(before) {
      RunName(s, before);
      TurnAuth(u, NameSaid(s, before), last);
      assert RunLines(s, inputs) == Turn(u, last);
    }
  }

  /** auth holds exactly if a credential check has succeeded since the last executed logout: some configured
      name begins the first 32 characters of the argument of the last login line, and that user's password
      begins the argument of the pass line. */
  lemma {:induction false} AuthHistory(s: Session, inputs: seq<Input>)
    requires s.root != "" && Lines(inputs) && !s.auth
    ensures RunLines(s, inputs).auth <==> PassedSinceLogout(Events(s, inputs))
    decreases |inputs|
  {
    if inputs == [] {
    } else {
      AuthHistory(s, inputs[..|inputs| - 1]);
      var u, events, ev := RunAuth(s, inputs);
      PassedAppend(events, ev);
    }
  }

  /** A check is made only while a login is pending. */
  lemma {:induction false} ReadyHistory(s: Session, inputs: seq<Input>)
    requires s.root != "" && Lines(inputs) && !s.readyForCheck
    ensures RunLines(s, inputs).readyForCheck <==> LoginPending(Events(s, inputs))
    decreases |inputs|
  {
    if inputs == [] {
    } else {
      ReadyHistory(s, inputs[..|inputs| - 1]);
      var u, events, ev := RunAuth(s, inputs);
      PendingAppend(events, ev);
    }
  }

  /** The user name is what the last check that passed was made with. */
  ghost function UserChecked(s: Session, inputs: seq<Input>): string
    requires s.root != "" && Lines(inputs)
    decreases |inputs|
  {
    if inputs == [] then s.username
    else
      var before := inputs[..|inputs| - 1];
      var events := Events(s, inputs);
      if events != [] && events[|events| - 1].CheckPassed? then First(NameSaid(s, before), 32)
      else UserChecked(s, before)
  }

  lemma {:induction false} UserHistory(s: Session, inputs: seq<Input>)
    requires s.root != "" && Lines(inputs)
    ensures RunLines(s, inputs).username == UserChecked(s, inputs)
    decreases |inputs|
  {
    if inputs == [] {
    } else {
      UserHistory(s, inputs[..|inputs| - 1]);
      var u, events, ev := RunAuth(s, inputs);
    }
  }

  /** An exit line has been reached. */
  ghost predicate ExitSaid(inputs: seq<Input>)
    requires Lines(inputs)
  {
    exists n :: 0 <= n < |inputs| && IsCommand(inputs[n].line, "exit", 0) && !HungUp(inputs[..n])
  }

  lemma ExitAppend(inputs: seq<Input>)
    requires Lines(inputs) && inputs != []
    ensures var last := |inputs| - 1;
            ExitSaid(inputs) <==>
              ExitSaid(inputs[..last]) || (IsCommand(inputs[last].line, "exit", 0) && !HungUp(inputs[..last]))
  {
    var last := |inputs| - 1;
    var before := inputs[..last];
    assert forall n :: 0 <= n < last ==> before[..n] == inputs[..n] && before[n] == inputs[n];
  }

  /** The session ends exactly when an exit line has been reached. */
  lemma {:induction false} ExitHistory(s: Session, inputs: seq<Input>)
    requires s.root != "" && Lines(inputs) && !s.exit
    ensures RunLines(s, inputs).exit <==> ExitSaid(inputs)
    decreases |inputs|
  {
    if inputs == [] {
    } else {
      var before, last := inputs[..|inputs| - 1], inputs[|inputs| - 1];
      ExitHistory(s, before);
      ExitAppend(inputs);
      var t := RunLines(s, before);
      if !t.exit && !HungUp(before) {
        TurnName(t, last);
      }
    }
  }

  /** Every configured user can log in: the two lines in a row authenticate any session that is not. */
  lemma UserCanLogIn(s: Session, user: User, first: Input, second: Input)
    requires s.root != "" && user in s.users && !s.auth && |user.uname| <= 32 && |user.pass| <= 32
    requires Says(first.line, ["login", user.uname]) && Says(second.line, ["pass", user.pass])
    ensures var t := Turn(Turn(s, first), second);
            t.auth && t.username == user.uname && t.out == "Authentication successful"
  {
    LoginLine(s, first, user.uname);
    PassLine(Turn(s, first), second, user.pass);
  }

  function CountChecks(events: seq<Event>): nat {
    if events == [] then 0
    else CountChecks(events[..|events| - 1])
         + (if events[|events| - 1].CheckPassed? || events[|events| - 1].CheckFailed? then 1 else 0)
  }

  function CountLogins(events: seq<Event>): nat {
    if events == [] then 0
    else CountLogins(events[..|events| - 1]) + (if events[|events| - 1].LoginRun? then 1 else 0)
  }

  /** Credential checks never outnumber executed logins: each needs a login of its own. */
  lemma {:induction false} ChecksNeedLogins(s: Session, inputs: seq<Input>)
    requires s.root != "" && Lines(inputs) && !s.readyForCheck
    ensures CountChecks(Events(s, inputs)) + (if RunLines(s, inputs).readyForCheck then 1 else 0)
         <= CountLogins(Events(s, inputs))
    decreases |inputs|
  {
    if inputs == [] {
    } else {
      ChecksNeedLogins(s, inputs[..|inputs| - 1]);
      var u, events, ev := RunAuth(s, inputs);
      assert (events + [ev])[..|events|] == events;
    }
  }

  lemma CdFrame(s: Session, arg: string, e: Env)
    requires s.root != ""
    ensures DoCd(s, arg, e).0.made == s.made && DoCd(s, arg, e).0.begun == s.begun
  {
  }

  /** The directories are the same, and what was made and begun. */
  predicate SameFiles(s: Session, t: Session) {
    t.pwd == s.pwd && t.relativePwd == s.relativePwd && t.made == s.made && t.begun == s.begun
  }

  lemma AccountFrame(s: Session, arg: string, e: Env)
    ensures SameFiles(s, DoLogin(s, arg).0) && SameFiles(s, DoPass(s, arg).0)
    ensures SameFiles(s, DoExit(s).0) && SameFiles(s, DoOther(s, e).0)
  {
  }

  lemma TransferFrame(s: Session, arg: string, size: string, e: Env)
    ensures SameFiles(s, DoGet(s, arg, e).0.(begun := s.begun))
    ensures SameFiles(s, DoPut(s, arg, size, e).0.(begun := s.begun))
  {
  }

  lemma MkdirFrame(s: Session, arg: string, e: Env)
    ensures SameFiles(s, DoMkdir(s, arg, e).0.(made := s.made))
  {
  }

  /** Which fields a handler leaves alone. */
  lemma HandleFrame(s: Session, id: CmdId, args: seq<string>, e: Env)
    requires s.root != "" && |args| == Params(id)
    ensures var t := Handle(s, id, args, e).0;
            && (!id.Cd? && !id.Logout? ==> t.pwd == s.pwd)
            && (!id.Cd? ==> t.relativePwd == s.relativePwd)
            && (!id.Mkdir? ==> t.made == s.made)
            && (!id.Get? && !id.Put? ==> t.begun == s.begun)
  {
    match id
    case Cd => CdFrame(s, args[0], e);
    case Mkdir => MkdirFrame(s, args[0], e);
    case Get => TransferFrame(s, args[0], "", e);
    case Put => TransferFrame(s, args[0], args[1], e);
    case Logout =>
    case Login => AccountFrame(s, args[0], e);
    case Pass => AccountFrame(s, args[0], e);
    case _ => AccountFrame(s, "", e);
  }

  /** Without an authenticated user a line changes no directory, creates none and begins no transfer. */
  lemma AuthGuards(s: Session, line: string, e: Env)
    requires s.root != "" && line != "" && !s.auth
    ensures var t := StepLine(s, line, e).0;
            t.pwd == s.pwd && t.relativePwd == s.relativePwd && t.made == s.made && t.begun == s.begun
  {
    match Dispatch(s.auth, line)
    case Runs(id, args) => HandleFrame(s, id, args, e);
    case _ =>
  }

  // ---- The working directory over a run ----

  /** The shell never answers with a path below root that is longer than the path it was given. */
  ghost predicate ShortensPaths(e: Env, root: string) {
    forall p: string :: root <= e.resolve(p) ==> |e.resolve(p)| <= |p|
  }

  ghost predicate PathsOk(s: Session) {
    && s.root <= s.pwd && |s.pwd| <= |s.root| + MAX_PATH_SIZE
    && (forall i :: 0 <= i < |s.made| ==> s.root <= s.made[i] && |s.made[i]| <= |s.root| + MAX_PATH_SIZE)
    && (forall i :: 0 <= i < |s.begun| && s.begun[i].0.Recv? ==>
          s.root <= s.begun[i].1.path && |s.begun[i].1.path| <= MAX_ROOT_PATH + MAX_PATH_SIZE)
  }

  /** A new connection meets what the theorems about runs ask of a session. */
  lemma NewSession(users: seq<User>, root: string, guest: string, garbage: string)
    ensures var s := InitSession(users, root, guest, garbage);
            && s.users == users && s.root == root && s.pwd == root && s.relativePwd == garbage
            && s.username == guest && s.tmpUsername == "Default"
            && !s.auth && !s.readyForCheck && !s.exit && s.begun == [] && s.made == [] && PathsOk(s)
  {
  }

  lemma NoWrap(s: Session, arg: string)
    requires |s.root| <= |s.pwd| && |s.pwd| + |arg| < SIZE_LIMIT
    ensures RelativeLength(s, arg) == |s.pwd| + |arg| - |s.root|
  {
  }

  lemma CdKeepsPaths(s: Session, arg: string, e: Env)
    requires PathsOk(s) && 0 < |s.root| < MAX_PATH_SIZE && ShortensPaths(e, s.root)
    ensures PathsOk(DoCd(s, arg, e).0)
  {
    if |arg| <= MAX_PATH_SIZE {
      NoWrap(s, arg);
      var found := CdFinds(s, arg, e);
      assert s.root <= found ==> |found| <= |NewPath(s, arg)|;
    }
  }

  lemma MadePathOk(s: Session, arg: string)
    requires PathsOk(s) && |s.root| < MAX_PATH_SIZE && |arg| < MAX_FOLDER_NAME_SIZE
    requires RelativeLength(s, arg) < MAX_PATH_SIZE
    ensures s.root <= s.pwd + "/" + arg && |s.pwd + "/" + arg| <= |s.root| + MAX_PATH_SIZE
  {
    NoWrap(s, arg);
    assert s.pwd <= s.pwd + "/" + arg;
  }

  lemma OneMorePath(s: Session, path: string, out: string)
    requires PathsOk(s) && s.root <= path && |path| <= |s.root| + MAX_PATH_SIZE
    ensures PathsOk(s.(made := s.made + [path], out := out))
  {
  }

  lemma MkdirKeepsPaths(s: Session, arg: string, e: Env)
    requires PathsOk(s) && |s.root| < MAX_PATH_SIZE
    ensures PathsOk(DoMkdir(s, arg, e).0)
  {
    if |arg| < MAX_FOLDER_NAME_SIZE && RelativeLength(s, arg) < MAX_PATH_SIZE {
      MadePathOk(s, arg);
      OneMorePath(s, s.pwd + "/" + arg, DoMkdir(s, arg, e).0.out);
    }
  }

  lemma PutKeepsPaths(s: Session, arg: string, size: string, e: Env)
    requires PathsOk(s) && |s.root| < MAX_PATH_SIZE
    ensures PathsOk(DoPut(s, arg, size, e).0)
    ensures |arg| <= MAX_ARG_SIZE ==> PutPath(s, arg) == s.pwd + "/" + arg
  {
    assert s.root <= PutPath(s, arg);
  }

  lemma GetKeepsPaths(s: Session, arg: string, e: Env)
    requires PathsOk(s)
    ensures PathsOk(DoGet(s, arg, e).0)
  {
  }

  lemma HandleKeepsPaths(s: Session, id: CmdId, args: seq<string>, e: Env)
    requires PathsOk(s) && 0 < |s.root| < MAX_PATH_SIZE && ShortensPaths(e, s.root) && |args| == Params(id)
    ensures PathsOk(Handle(s, id, args, e).0)
  {
    match id
    case Cd => CdKeepsPaths(s, args[0], e);
    case Mkdir => MkdirKeepsPaths(s, args[0], e);
    case Put => PutKeepsPaths(s, args[0], args[1], e);
    case Get => GetKeepsPaths(s, args[0], e);
    case Logout =>
    case _ => HandleFrame(s, id, args, e);
  }

  lemma ReplyKeepsPaths(s: Session, out: string)
    requires PathsOk(s)
    ensures PathsOk(s.(out := out))
  {
  }

  lemma StepKeepsPaths(s: Session, line: string, e: Env)
    requires PathsOk(s) && 0 < |s.root| < MAX_PATH_SIZE && ShortensPaths(e, s.root) && line != ""
    ensures PathsOk(StepLine(s, line, e).0)
  {
    match Dispatch(s.auth, line)
    case Runs(id, args) => HandleKeepsPaths(s, id, args, e);
    case _ => ReplyKeepsPaths(s, StepLine(s, line, e).0.out);
  }

  /** Over every run the working directory begins with root and is at most 128 characters longer; the
      same holds of every directory mkdir is asked for, and the path of every put begins with root. What
      the prefix means to the file system is another matter: "/r2" and "/r/.." begin with "/r". */
  lemma {:induction false} PathsBeginWithRoot(s: Session, inputs: seq<Input>)
    requires 0 < |s.root| < MAX_PATH_SIZE && Lines(inputs) && PathsOk(s)
    requires forall i :: 0 <= i < |inputs| ==> ShortensPaths(inputs[i].env, s.root)
    ensures PathsOk(RunLines(s, inputs))
    decreases |inputs|
  {
    if inputs == [] {
    } else {
      var before, last := inputs[..|inputs| - 1], inputs[|inputs| - 1];
      PathsBeginWithRoot(s, before);
      var t := RunLines(s, before);
      if !t.exit && !HungUp(before) {
        StepKeepsPaths(t.(out := ""), last.line, last.env);
      }
    }
  }

  /** Hence the length checks of cd and mkdir, computed in size_t, never wrap around in any run. */
  lemma LengthChecksNeverWrap(s: Session, inputs: seq<Input>, arg: string)
    requires 0 < |s.root| < MAX_PATH_SIZE && Lines(inputs) && PathsOk(s) && |arg| <= MAX_ARG_SIZE
    requires forall i :: 0 <= i < |inputs| ==> ShortensPaths(inputs[i].env, s.root)
    ensures var t := RunLines(s, inputs); RelativeLength(t, arg) == |t.pwd| + |arg| - |t.root|
  {
    PathsBeginWithRoot(s, inputs);
    NoWrap(RunLines(s, inputs), arg);
  }

  // ---- The two working directories ----

  /** The absolute and the relative working directory agree. */
  predicate Agree(s: Session) {
    s.pwd == s.root + s.relativePwd
  }

  /** The shell's answer to a cd. */
  function Answer(s: Session, arg: string, e: Env): string {
    e.resolve(Asked(s, arg))
  }

  /** A cd passes all its checks, and the shell's answer begins with root. */
  ghost predicate CdSucceeds(s: Session, arg: string, e: Env) {
    && |arg| <= 128 && !Forbidden(arg) && ToSize(|s.pwd| + |arg| - |s.root|) < 128
    && Answer(s, arg, e) != "" && s.root <= Answer(s, arg, e)
  }

  /** The path begins with root, and behind that root occurs once more. */
  ghost predicate OccursAgain(path: string, root: string) {
    root <= path && Occurs(path[|root|..], root)
  }

  lemma SameTail(a: string, b: string, c: string)
    ensures a + b == a + c <==> b == c
  {
    assert (a + b)[|a|..] == b && (a + c)[|a|..] == c;
  }

  lemma FoundAgrees(root: string, found: string)
    requires root != "" && root <= found
    ensures found == root + Replaced(found, root, "") <==> !OccursAgain(found, root)
  {
    var rest := found[|root|..];
    assert found == root + rest;
    RemovePrefix(root, rest);
    RemovalChangesNothing(rest, root);
    SameTail(root, rest, Replaced(rest, root, ""));
  }

  lemma AfterCdAgrees(s: Session, arg: string, e: Env)
    requires s.root != ""
    ensures var t := AfterCd(s, arg, e);
            if CdSucceeds(s, arg, e)
            then t.pwd == Answer(s, arg, e) && (Agree(t) <==> !OccursAgain(Answer(s, arg, e), s.root))
            else t.pwd == s.pwd && t.relativePwd == s.relativePwd
  {
    if CdSucceeds(s, arg, e) {
      FoundAgrees(s.root, Answer(s, arg, e));
    }
  }

  /** A cd changes the directories exactly then, to the answer for pwd/arg, or root/arg if the argument
      begins with a slash. It removes every occurrence of root from that path: the two directories agree
      afterwards exactly if root does not occur again in it. */
  lemma CdAgreesIff(s: Session, input: Input, arg: string)
    requires s.root != "" && Says(input.line, ["cd", arg]) && s.auth
    ensures var t, e := Turn(s, input), input.env;
            if CdSucceeds(s, arg, e)
            then t.pwd == Answer(s, arg, e) && (Agree(t) <==> !OccursAgain(Answer(s, arg, e), s.root))
            else t.pwd == s.pwd && t.relativePwd == s.relativePwd
    ensures (arg == "" || arg[0] != '/') ==> Answer(s, arg, input.env) == input.env.resolve(s.pwd + "/" + arg)
    ensures (arg != "" && arg[0] == '/') ==> Answer(s, arg, input.env) == input.env.resolve(s.root + "/" + arg)
  {
    CdLine(s, input, arg);
    AfterCdAgrees(s, arg, input.env);
  }

  /** logout resets only the absolute directory: the two agree afterwards exactly if the relative one
      was empty. */
  lemma LogoutAgreesIff(s: Session, input: Input)
    requires s.root != "" && Says(input.line, ["logout"]) && s.auth
    ensures Agree(Turn(s, input)) <==> s.relativePwd == ""
  {
    LogoutLine(s, input);
    SameTail(s.root, "", s.relativePwd);
    assert s.root + "" == s.root;
  }

  /** Any other line keeps both directories. */
  lemma OthersKeepDirectories(s: Session, input: Input)
    requires s.root != "" && input.line != ""
    requires !IsCommand(input.line, "cd", 1) && !IsCommand(input.line, "logout", 0)
    ensures Turn(s, input).pwd == s.pwd && Turn(s, input).relativePwd == s.relativePwd
  {
    var o := Dispatch(s.auth, input.line);
    if o.Runs? {
      RunsCommand(s.auth, input.line);
      RunsTurn(s, input, o.id, o.args);
      HandleFrame(s.(out := ""), o.id, o.args, input.env);
    } else {
      NoHandlerTurn(s, input);
    }
  }

  // ---- The two working directories over a run ----

  /** A change of directory: a cd that succeeded, with the path found, or a logout. */
  datatype DirMove = Entered(path: string) | BackToRoot

  ghost function MoveOf(s: Session, input: Input): seq<DirMove>
    requires input.line != ""
  {
    if !s.auth then []
    else if IsCommand(input.line, "logout", 0) then [BackToRoot]
    else if IsCommand(input.line, "cd", 1) && CdSucceeds(s, Said(input.line)[1], input.env) then
      [Entered(Answer(s, Said(input.line)[1], input.env))]
    else []
  }

  ghost function Moves(s: Session, inputs: seq<Input>): seq<DirMove>
    requires s.root != "" && Lines(inputs)
    decreases |inputs|
  {
    if inputs == [] then []
    else
      var before := inputs[..|inputs| - 1];
      var t := RunLines(s, before);
      Moves(s, before) + (if t.exit || HungUp(before) then [] else MoveOf(t, inputs[|inputs| - 1]))
  }

  /** The path of the last successful cd. */
  function LastEntered(moves: seq<DirMove>): Option<string> {
    if moves == [] then None
    else
      match moves[|moves| - 1]
      case Entered(path) => Some(path)
      case BackToRoot => LastEntered(moves[..|moves| - 1])
  }

  /** Where a session that began in s is after some moves. */
  ghost predicate At(s: Session, moves: seq<DirMove>, t: Session)
    requires s.root != ""
  {
    && t.root == s.root
    && (forall i :: 0 <= i < |moves| && moves[i].Entered? ==> s.root <= moves[i].path)
    && t.pwd == (if moves == [] then s.pwd
                 else match moves[|moves| - 1] case Entered(path) => path case BackToRoot => s.root)
    && t.relativePwd == (match LastEntered(moves)
                         case None => s.relativePwd
                         case Some(path) => Replaced(path, s.root, ""))
  }

  lemma AppendMove(s: Session, moves: seq<DirMove>, t: Session, m: DirMove, u: Session)
    requires s.root != "" && At(s, moves, t) && u.root == t.root
    requires match m
             case BackToRoot => u.pwd == s.root && u.relativePwd == t.relativePwd
             case Entered(path) => s.root <= path && u.pwd == path && u.relativePwd == Replaced(path, s.root, "")
    ensures At(s, moves + [m], u)
  {
    var all := moves + [m];
    assert all[..|all| - 1] == moves && all[|all| - 1] == m;
  }

  /** From t to u the directories have changed as m says. */
  ghost predicate Moved(t: Session, m: seq<DirMove>, u: Session) {
    && t.root != "" && u.root == t.root
    && if m == [] then u.pwd == t.pwd && u.relativePwd == t.relativePwd
       else if m == [BackToRoot] then u.pwd == t.root && u.relativePwd == t.relativePwd
       else
         && |m| == 1 && m[0].Entered? && t.root <= m[0].path
         && u.pwd == m[0].path && u.relativePwd == Replaced(m[0].path, t.root, "")
  }

  lemma AppendMoves(s: Session, moves: seq<DirMove>, t: Session, m: seq<DirMove>, u: Session)
    requires s.root != "" && At(s, moves, t) && Moved(t, m, u)
    ensures At(s, moves + m, u)
  {
    if m == [] {
      assert moves + m == moves;
    } else {
      assert m == [m[0]];
      AppendMove(s, moves, t, m[0], u);
    }
  }

  /** What a line does to the two directories. */
  lemma LineMoves(t: Session, input: Input)
    requires t.root != "" && input.line != ""
    ensures Moved(t, MoveOf(t, input), Turn(t, input))
  {
    var line := input.line;
    if IsCommand(line, "logout", 0) {
      CommandSays(line, "logout", 0);
      if t.auth { LogoutLine(t, input); } else { RefusedCommand(t, input); }
    } else if IsCommand(line, "cd", 1) {
      CommandSays(line, "cd", 1);
      if t.auth { CdLine(t, input, Said(line)[1]); } else { RefusedCommand(t, input); }
    } else {
      OthersKeepDirectories(t, input);
    }
  }

  lemma TurnMoves(s: Session, moves: seq<DirMove>, t: Session, input: Input)
    requires s.root != "" && At(s, moves, t) && input.line != ""
    ensures At(s, moves + MoveOf(t, input), Turn(t, input))
  {
    LineMoves(t, input);
    AppendMoves(s, moves, t, MoveOf(t, input), Turn(t, input));
  }

  lemma {:induction false} RunMoves(s: Session, inputs: seq<Input>)
    requires s.root != "" && Lines(inputs)
    ensures At(s, Moves(s, inputs), RunLines(s, inputs))
    decreases |inputs|
  {
    if inputs == [] {
    } else {
      var before, last := inputs[..|inputs| - 1], inputs[|inputs| - 1];
      RunMoves(s, before);
      var t := RunLines(s, before);
      if t.exit || HungUp(before) {
        assert Moves(s, inputs) == Moves(s, before);
      } else {
        TurnMoves(s, Moves(s, before), t, last);
      }
    }
  }

  /** If no cd succeeded and nobody logged out, the directories agree when they did at the beginning; if the
      last such line was a cd, when root occurs only once in the path found; and if it was a logout, when the
      last cd before it led to root itself (or a path that only repeats it), or there was none and the
      relative directory was empty. */
  ghost predicate AgreesAfter(s: Session, moves: seq<DirMove>) {
    if moves == [] then Agree(s)
    else match moves[|moves| - 1]
         case Entered(path) => !OccursAgain(path, s.root)
         case BackToRoot =>
           match LastEntered(moves)
           case None => s.relativePwd == ""
           case Some(path) => IsCopies(path, s.root)
  }

  lemma AtAgrees(s: Session, moves: seq<DirMove>, t: Session)
    requires s.root != "" && At(s, moves, t)
    ensures Agree(t) <==> AgreesAfter(s, moves)
  {
    if moves != [] {
      match moves[|moves| - 1]
      case Entered(path) =>
        FoundAgrees(s.root, path);
      case BackToRoot =>
        SameTail(s.root, "", t.relativePwd);
        assert s.root + "" == s.root;
        match LastEntered(moves)
        case None =>
        case Some(path) => RemovalLeavesNothing(path, s.root);
    }
  }

  /** Exactly when the two directories agree after a run. */
  lemma AgreementAfterRun(s: Session, inputs: seq<Input>)
    requires s.root != "" && Lines(inputs)
    ensures Agree(RunLines(s, inputs)) <==> AgreesAfter(s, Moves(s, inputs))
  {
    RunMoves(s, inputs);
    AtAgrees(s, Moves(s, inputs), RunLines(s, inputs));
  }

  // ---- They do disagree ----

  /** Root is "/r", where the session is, and the shell answers a cd with the path it was given. */
  predicate Example(s: Session, e: Env) {
    && s.root == "/r" && s.pwd == "/r" && s.relativePwd == "" && s.auth
    && e.resolve("/r/r") == "/r/r" && e.resolve("/r/a") == "/r/a"
  }

  /** A cd to the directory r below root: pwd is "/r/r", and the relative directory is lost. */
  lemma CdMayDisagree(s: Session, input: Input)
    requires Example(s, input.env) && Says(input.line, ["cd", "r"])
    ensures Agree(s)
    ensures var t := Turn(s, input); t.pwd == "/r/r" && t.relativePwd == "" && !Agree(t)
  {
    assert Asked(s, "r") == "/r/r" && "/r/r"[2..] == "/r" && "/r"[2..] == "";
    CdLine(s, input, "r");
  }

  /** A cd to a directory and a logout: pwd is root again, but the relative directory is not. */
  lemma LogoutMayDisagree(s: Session, input: Input, next: Input)
    requires Example(s, input.env) && Says(input.line, ["cd", "a"]) && Says(next.line, ["logout"])
    ensures var t := Turn(s, input); Agree(t) && t.pwd == "/r/a" && !Agree(Turn(t, next))
  {
    assert Asked(s, "a") == "/r/a" && "/r/a"[2..] == "/a";
    forall i: nat ensures !OccursAt("/a", "/r", i) {
      if i == 0 { assert "/a"[0..][1] == 'a'; }
    }
    CdAgreesIff(s, input, "a");
    CdLine(s, input, "a");
    LogoutAgreesIff(Turn(s, input), next);
  }
}
