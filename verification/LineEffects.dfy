/** What each command line does, in terms of its words alone: the names, the handlers behind them, the
    session they leave and the replies, written out. */
module LineEffects {
  import opened FtpState
  import opened Numbers
  import opened Tokens
  import opened Replace
  import opened ReplyText
  import opened SessionModel
  import opened CommandTable

  // ---- Words of a line ----

  /** The words of a line without its last character, each without a newline at its end. */
  ghost function Said(line: string): seq<string>
    requires line != ""
  {
    StripAll(Words(line[..|line| - 1]))
  }

  /** The line is not too long, and neither is one of its first six words. */
  ghost predicate Clean(line: string) {
    && line != "" && |line| <= 256
    && var w := Words(line[..|line| - 1]); forall i :: 0 <= i < 6 && i < |w| ==> |w[i]| <= 128
  }

  lemma CleanIffShort(line: string)
    requires line != "" && |line| <= 256
    ensures Clean(line) <==> AllShort(Capped(Words(line[..|line| - 1])))
  {
    var w := Words(line[..|line| - 1]);
    var c := Capped(w);
    assert forall i :: 0 <= i < |c| ==> c[i] == w[i];
    assert |c| == if |w| <= 6 then |w| else 6;
  }

  /** The line consists of these words. */
  ghost predicate Says(line: string, words: seq<string>) {
    Clean(line) && Said(line) == words
  }

  /** The line consists of the name and n arguments. */
  ghost predicate IsCommand(line: string, name: string, n: nat) {
    Clean(line) && |Said(line)| == n + 1 && Said(line)[0] == name
  }

  lemma CommandSays(line: string, name: string, n: nat)
    requires IsCommand(line, name, n)
    ensures n == 0 ==> Says(line, [name])
    ensures n == 1 ==> Says(line, [name, Said(line)[1]])
    ensures n == 2 ==> Says(line, [name, Said(line)[1], Said(line)[2]])
  {
  }

  lemma StripTail(w: seq<string>)
    requires w != []
    ensures StripAll(w)[0] == Strip(w[0]) && StripAll(w)[1..] == StripAll(w[1..])
  {
  }

  /** Words that fit their slots. */
  predicate Words128(words: seq<string>) {
    forall i :: 0 <= i < |words| ==>
      IsWord(words[i]) && |words[i]| <= 128 && words[i][|words[i]| - 1] != '\n'
  }

  /** Any words, laid out with spaces between them and a newline at the end, are said by that line. */
  lemma LaidOutSays(words: seq<string>, gaps: seq<nat>)
    requires |gaps| == |words| + 1 && Words128(words) && forall i :: 0 < i < |words| ==> gaps[i] > 0
    requires |Layout(words, gaps)| < 256
    ensures Says(Layout(words, gaps) + "\n", words)
  {
    var text := Layout(words, gaps);
    assert (text + "\n")[..|text|] == text;
    WordsOfLayout(words, gaps);
    assert StripAll(words) == words;
  }

  // ---- The names ----

  /** What becomes of a line whose first word is name. */
  ghost predicate Dispatches(auth: bool, line: string, name: string, params: nat, guarded: bool, id: CmdId)
    requires Clean(line) && Said(line) != []
  {
    Said(line)[0] == name ==>
      Dispatch(auth, line) ==
        if |Said(line)| != params + 1 then WrongArity
        else if guarded && !auth then NeedAuth
        else Runs(id, Said(line)[1..])
  }

  lemma OneName(auth: bool, line: string, i: nat)
    requires Clean(line) && Said(line) != [] && i < |CMDS|
    ensures Dispatches(auth, line, CMDS[i].name, CMDS[i].params, CMDS[i].authent, CMDS[i].id)
  {
    var w := Words(line[..|line| - 1]);
    StripTail(w);
    CleanIffShort(line);
    if Strip(w[0]) == CMDS[i].name {
      NamedLine(auth, line, i);
    }
  }

  /** The fifteen names, with the number of arguments, whether a user must be authenticated, and the handler
      that runs. */
  lemma EveryNameDispatches(auth: bool, line: string)
    requires Clean(line) && Said(line) != []
    ensures Dispatches(auth, line, "login", 1, false, Login)
    ensures Dispatches(auth, line, "pass", 1, false, Pass)
    ensures Dispatches(auth, line, "ping", 1, false, Ping)
    ensures Dispatches(auth, line, "date", 0, true, Date)
    ensures Dispatches(auth, line, "whoami", 0, true, Whoami)
    ensures Dispatches(auth, line, "w", 0, true, W)
    ensures Dispatches(auth, line, "logout", 0, true, Logout)
    ensures Dispatches(auth, line, "exit", 0, false, Exit)
    ensures Dispatches(auth, line, "ls", 0, true, Ls)
    ensures Dispatches(auth, line, "mkdir", 1, true, Mkdir)
    ensures Dispatches(auth, line, "cd", 1, true, Cd)
    ensures Dispatches(auth, line, "rm", 1, true, Rm)
    ensures Dispatches(auth, line, "get", 1, true, Get)
    ensures Dispatches(auth, line, "put", 2, true, Put)
    ensures Dispatches(auth, line, "grep", 1, true, Grep)
  {
    OneName(auth, line, 0);
    OneName(auth, line, 1);
    OneName(auth, line, 2);
    OneName(auth, line, 3);
    OneName(auth, line, 4);
    OneName(auth, line, 5);
    OneName(auth, line, 6);
    OneName(auth, line, 7);
    OneName(auth, line, 8);
    OneName(auth, line, 9);
    OneName(auth, line, 10);
    OneName(auth, line, 11);
    OneName(auth, line, 12);
    OneName(auth, line, 13);
    OneName(auth, line, 14);
  }

  predicate IsName(name: string) {
    || name == "login" || name == "pass" || name == "ping" || name == "date" || name == "whoami"
    || name == "w" || name == "logout" || name == "exit" || name == "ls" || name == "mkdir"
    || name == "cd" || name == "rm" || name == "get" || name == "put" || name == "grep"
  }

  lemma NamesOfTable(i: nat)
    requires i < |CMDS|
    ensures IsName(CMDS[i].name)
  {
  }

  /** A line whose first word is none of them is answered as unknown. */
  lemma OtherNames(auth: bool, line: string)
    requires Clean(line) && Said(line) != [] && !IsName(Said(line)[0])
    ensures Dispatch(auth, line).Unknown?
  {
    var w := Words(line[..|line| - 1]);
    StripTail(w);
    CleanIffShort(line);
    forall i | 0 <= i < |CMDS| ensures CMDS[i].name != Strip(w[0]) {
      NamesOfTable(i);
    }
  }

  /** A handler's result is never confused with another line's: the line behind a handler is known by its
      words. */
  lemma RunsSaid(auth: bool, line: string)
    requires line != "" && Dispatch(auth, line).Runs?
    ensures Clean(line) && Said(line) != [] && IsName(Said(line)[0])
    ensures Dispatch(auth, line).args == Said(line)[1..]
  {
    var w := Words(line[..|line| - 1]);
    CleanIffShort(line);
    StripTail(w);
    if !IsName(Said(line)[0]) {
      OtherNames(auth, line);
    }
    EveryNameDispatches(auth, line);
  }

  /** Which line is behind a handler. */
  lemma RunsCommand(auth: bool, line: string)
    requires line != "" && Dispatch(auth, line).Runs?
    ensures var o := Dispatch(auth, line);
            && Clean(line) && Said(line) != [] && o.args == Said(line)[1..]
            && (o.id.Login? ==> IsCommand(line, "login", 1)) && (o.id.Pass? ==> IsCommand(line, "pass", 1))
            && (o.id.Logout? ==> auth && IsCommand(line, "logout", 0)) && (o.id.Exit? ==> IsCommand(line, "exit", 0))
            && (o.id.Mkdir? ==> auth && IsCommand(line, "mkdir", 1)) && (o.id.Cd? ==> auth && IsCommand(line, "cd", 1))
            && (o.id.Get? ==> auth && IsCommand(line, "get", 1)) && (o.id.Put? ==> auth && IsCommand(line, "put", 2))
  {
    RunsSaid(auth, line);
    EveryNameDispatches(auth, line);
  }

  // ---- Replies to errors ----

  /** The session after a line that was refused with an error code and changed nothing else. */
  function Refused(s: Session, code: int): (t: Session)
    ensures t == s.(out := t.out)
  {
    Answered((s.(out := ""), code))
  }

  /** What the client reads for each code. */
  lemma SizeErrorTexts(s: Session)
    ensures Refused(s, -119).out == "ERROR : File size is too long"
    ensures Refused(s, -117).out == "ERROR : File/folder length too long"
    ensures Refused(s, -114).out == "ERROR : command does not support paths longer than 128"
    ensures Refused(s, -111).out == "ERROR : Argument is too long"
  {
  }

  lemma PathErrorTexts(s: Session)
    ensures Refused(s, -115).out == "ERROR : Access denied"
    ensures Refused(s, -113).out == "ERROR : File not found"
    ensures Refused(s, -108).out == "ERROR : command does not support paths"
    ensures Refused(s, -107).out == "ERROR : Arguments contain invalid characters"
  {
  }

  lemma UserErrorTexts(s: Session)
    ensures Refused(s, -110).out == "ERROR : Invalid username"
    ensures Refused(s, -109).out == "ERROR : Invalid password"
  {
  }

  /** Any other code is answered with nothing, but for the two that no modelled command returns. */
  lemma OtherErrorTexts(s: Session, code: int)
    requires code > -107 || code < -119 || code == -118
    ensures Refused(s, code).out == ""
  {
  }

  // ---- Lines that run no handler ----

  /** The replies of the dispatcher. */
  lemma RefusedLine(s: Session, input: Input)
    requires s.root != "" && input.line != ""
    ensures |input.line| > 256 ==> Turn(s, input) == s.(out := "")
    ensures |input.line| <= 256 && !Clean(input.line) ==> Turn(s, input) == Refused(s, -111)
    ensures Says(input.line, []) ==> Turn(s, input) == s.(out := "")
    ensures Clean(input.line) && Said(input.line) != [] && !IsName(Said(input.line)[0]) ==>
              Turn(s, input) == s.(out := "Please provide a valid command")
  {
    var line := input.line;
    if |line| <= 256 { CleanIffShort(line); }
    if Clean(line) && Said(line) != [] && !IsName(Said(line)[0]) {
      OtherNames(s.auth, line);
    }
  }

  lemma WrongArityLine(s: Session, input: Input)
    requires s.root != "" && input.line != "" && Dispatch(s.auth, input.line).WrongArity?
    ensures Turn(s, input) == s.(out := "Invalid number of arguments")
  {
  }

  lemma NeedAuthLine(s: Session, input: Input)
    requires s.root != "" && input.line != "" && Dispatch(s.auth, input.line).NeedAuth?
    ensures Turn(s, input) == s.(out := "Authentication required")
  {
  }

  lemma UnknownLine(s: Session, input: Input)
    requires s.root != "" && input.line != "" && Dispatch(s.auth, input.line).Unknown?
    ensures Turn(s, input) == s.(out := "Please provide a valid command")
  {
  }

  lemma SilentLine(s: Session, input: Input)
    requires s.root != "" && input.line != "" && Dispatch(s.auth, input.line).Silent?
    ensures Turn(s, input) == Refused(s, Dispatch(s.auth, input.line).err)
  {
  }

  /** The number of arguments of each command. */
  function Arity(name: string): nat {
    if name == "put" then 2
    else if name == "login" || name == "pass" || name == "ping" || name == "mkdir" || name == "cd" then 1
    else if name == "rm" || name == "get" || name == "grep" then 1
    else 0
  }

  /** A command with a wrong number of words, or without the authentication it needs, changes nothing. */
  lemma RefusedCommand(s: Session, input: Input)
    requires s.root != "" && Clean(input.line) && Said(input.line) != [] && IsName(Said(input.line)[0])
    ensures var name, n := Said(input.line)[0], |Said(input.line)| - 1;
            && (n != Arity(name) ==> Turn(s, input) == s.(out := "Invalid number of arguments"))
            && (n == Arity(name) && !s.auth
                && name != "login" && name != "pass" && name != "ping" && name != "exit" ==>
                  Turn(s, input) == s.(out := "Authentication required"))
  {
    EveryNameDispatches(s.auth, input.line);
    match Dispatch(s.auth, input.line)
    case WrongArity => WrongArityLine(s, input);
    case NeedAuth => NeedAuthLine(s, input);
    case _ =>
  }

  /** Without a handler only the reply changes. */
  lemma NoHandlerTurn(s: Session, input: Input)
    requires s.root != "" && input.line != "" && !Dispatch(s.auth, input.line).Runs?
    ensures Turn(s, input) == s.(out := Turn(s, input).out)
  {
    match Dispatch(s.auth, input.line)
    case WrongArity => WrongArityLine(s, input);
    case NeedAuth => NeedAuthLine(s, input);
    case Unknown => UnknownLine(s, input);
    case Silent(err) => SilentLine(s, input);
  }

  // ---- Lines that run a handler ----

  lemma RunsTurn(s: Session, input: Input, id: CmdId, args: seq<string>)
    requires s.root != "" && input.line != "" && Dispatch(s.auth, input.line) == Runs(id, args)
    ensures |args| == Params(id) && Turn(s, input) == Answered(Handle(s.(out := ""), id, args, input.env))
  {
  }

  /** The first n characters. */
  function First(text: string, n: nat): string {
    if |text| <= n then text else text[..n]
  }

  /** login name: the name is kept for the check, whatever its length. */
  lemma LoginLine(s: Session, input: Input, name: string)
    requires s.root != "" && Says(input.line, ["login", name])
    ensures Turn(s, input) ==
            var t := s.(readyForCheck := true, tmpUsername := First(name, 33));
            if |name| > 32 then Refused(t, -110) else t.(out := "Please provide your password")
  {
    EveryNameDispatches(s.auth, input.line);
    RunsTurn(s, input, Login, [name]);
  }

  /** Some configured name and password begin those supplied. */
  ghost predicate Known(users: seq<User>, name: string, password: string) {
    exists i :: 0 <= i < |users| && users[i].uname <= name && users[i].pass <= password
  }

  /** pass password: the check, with the first 32 characters of the name kept by login. */
  lemma PassLine(s: Session, input: Input, password: string)
    requires s.root != "" && Says(input.line, ["pass", password])
    ensures var name := First(s.tmpUsername, 32);
            Turn(s, input) ==
              if |password| > 32 then Refused(s, -109)
              else if s.auth then s.(out := "User already authentified")
              else if !s.readyForCheck then s.(out := "Please provide a username first")
              else if Known(s.users, name, password) then
                s.(auth := true, username := name, readyForCheck := false, out := "Authentication successful")
              else s.(readyForCheck := false, out := name + " : Invalid Credentials")
  {
    EveryNameDispatches(s.auth, input.line);
    RunsTurn(s, input, Pass, [password]);
  }

  lemma LogoutLine(s: Session, input: Input)
    requires s.root != "" && Says(input.line, ["logout"]) && s.auth
    ensures Turn(s, input) == s.(auth := false, pwd := s.root, out := "User is logged out")
  {
    EveryNameDispatches(s.auth, input.line);
    RunsTurn(s, input, Logout, []);
  }

  lemma ExitLine(s: Session, input: Input)
    requires s.root != "" && Says(input.line, ["exit"])
    ensures Turn(s, input) == s.(exit := true, out := "")
  {
    EveryNameDispatches(s.auth, input.line);
    RunsTurn(s, input, Exit, []);
  }

  /** The characters a cd refuses in its argument; mkdir refuses the back quote as well. */
  predicate Forbidden(text: string) {
    '&' in text || '|' in text || ';' in text || '$' in text || '>' in text || '<' in text || '!' in text
  }

  lemma ForbiddenIff(text: string)
    ensures HasForbidden(text, 7) <==> Forbidden(text)
    ensures HasForbidden(text, 8) <==> Forbidden(text) || '`' in text
  {
    assert DICT[0] == '&' && DICT[1] == '|' && DICT[2] == ';' && DICT[3] == '$' && DICT[4] == '>';
    assert DICT[5] == '<' && DICT[6] == '!' && DICT[7] == '`';
  }

  /** mkdir name: refused for a slash, a forbidden character, 32 characters or more, or a path that gets too
      long; otherwise the system is asked for a directory of that name in the working directory. */
  ghost function AfterMkdir(s: Session, name: string, e: Env): Session {
    if '/' in name then Refused(s, -108)
    else if Forbidden(name) || '`' in name then Refused(s, -107)
    else if |name| >= 32 then Refused(s, -117)
    else if ToSize(|s.pwd| + |name| - |s.root|) >= 128 then Refused(s, -114)
    else
      s.(made := s.made + [s.pwd + "/" + name],
         out := if e.mkdirFails then "Mkdir failed to create directory" else "Creation successful")
  }

  lemma MkdirHandled(s: Session, name: string, e: Env)
    ensures Answered(DoMkdir(s.(out := ""), name, e)) == AfterMkdir(s, name, e)
  {
    ForbiddenIff(name);
    var u := s.(out := "");
    if '/' in name {
      assert DoMkdir(u, name, e) == (u, -108);
    } else if HasForbidden(name, 8) {
      assert DoMkdir(u, name, e) == (u, -107);
    } else if |name| >= 32 {
      assert DoMkdir(u, name, e) == (u, -117);
    } else if RelativeLength(u, name) >= 128 {
      assert DoMkdir(u, name, e) == (u, -114);
    }
  }

  lemma MkdirLine(s: Session, input: Input, name: string)
    requires s.root != "" && Says(input.line, ["mkdir", name]) && s.auth
    ensures Turn(s, input) == AfterMkdir(s, name, input.env)
  {
    EveryNameDispatches(s.auth, input.line);
    RunsTurn(s, input, Mkdir, [name]);
    MkdirHandled(s, name, input.env);
  }

  /** The path a cd asks the shell for: below root if the argument begins with a slash, else below the working
      directory. */
  function Asked(s: Session, arg: string): string {
    if arg != "" && arg[0] == '/' then s.root + "/" + arg else s.pwd + "/" + arg
  }

  /** cd arg: refused for a forbidden character or a path that gets too long; otherwise the shell's answer, if
      it begins with root, becomes the working directory. */
  ghost function AfterCd(s: Session, arg: string, e: Env): Session
    requires s.root != ""
  {
    var found := e.resolve(Asked(s, arg));
    if |arg| > 128 then Refused(s, -114)
    else if Forbidden(arg) then Refused(s, -107)
    else if ToSize(|s.pwd| + |arg| - |s.root|) >= 128 then Refused(s, -114)
    else if found == "" then s.(out := "Invalid path")
    else if !(s.root <= found) then Refused(s, -115)
    else
      var relative := Replaced(found, s.root, "");
      s.(pwd := found, relativePwd := relative, out := if relative == "" then "/" else relative)
  }

  lemma CdHandled(s: Session, arg: string, e: Env)
    requires s.root != ""
    ensures Answered(DoCd(s.(out := ""), arg, e)) == AfterCd(s, arg, e)
  {
    ForbiddenIff(arg);
  }

  lemma CdLine(s: Session, input: Input, arg: string)
    requires s.root != "" && Says(input.line, ["cd", arg]) && s.auth
    ensures Turn(s, input) == AfterCd(s, arg, input.env)
  {
    EveryNameDispatches(s.auth, input.line);
    RunsTurn(s, input, Cd, [arg]);
    CdHandled(s, arg, input.env);
  }

  /** get name: the file is looked for below the directory "root", at the relative working directory. */
  lemma GetLine(s: Session, input: Input, name: string)
    requires s.root != "" && Says(input.line, ["get", name]) && s.auth
    ensures var e := input.env;
            var job := Job("root" + s.relativePwd + "/" + name, e.fileSize.Or(0));
            var t := s.(begun := s.begun + [(Send, job)]);
            Turn(s, input) ==
              if |name| > 32 then Refused(s, -119)
              else if e.fileSize.None? then Refused(t, -113)
              else if e.setupError != 0 then Refused(t, e.setupError)
              else t.(out := GetReply(e.port, e.sizeRead))
  {
    EveryNameDispatches(s.auth, input.line);
    RunsTurn(s, input, Get, [name]);
  }

  lemma WholePutPath(s: Session, name: string)
    ensures |s.pwd| + 1 + |name| <= 384 ==> PutPath(s, name) == s.pwd + "/" + name
  {
  }

  /** put name size: the file goes to the working directory, and its size is the number given. */
  lemma PutLine(s: Session, input: Input, name: string, size: string)
    requires s.root != "" && Says(input.line, ["put", name, size]) && s.auth
    ensures |s.pwd| + 1 + |name| <= 384 ==> PutPath(s, name) == s.pwd + "/" + name
    ensures var e := input.env;
            var job := Job(PutPath(s, name), ToSize(Atoi(size).Or(e.wild)));
            var t := s.(begun := s.begun + [(Recv, job)]);
            Turn(s, input) ==
              if e.setupError != 0 then Refused(t, e.setupError) else t.(out := PutReply(e.port))
  {
    EveryNameDispatches(s.auth, input.line);
    RunsTurn(s, input, Put, [name, size]);
    WholePutPath(s, name);
  }

  lemma OutputHandled(s: Session, id: CmdId, args: seq<string>, e: Env)
    requires s.root != "" && |args| == Params(id)
    requires id.Ping? || id.Date? || id.Whoami? || id.W? || id.Ls? || id.Rm? || id.Grep?
    ensures Answered(Handle(s.(out := ""), id, args, e)) == Answered((s.(out := e.sysOut), e.sysErr))
  {
  }

  /** These names only produce output. */
  predicate IsOutput(name: string) {
    || name == "date" || name == "whoami" || name == "w" || name == "ls"
    || name == "rm" || name == "grep"
  }

  lemma OutputRuns(line: string)
    requires Clean(line) && Said(line) != [] && IsOutput(Said(line)[0])
    requires |Said(line)| - 1 == Arity(Said(line)[0])
    ensures var o := Dispatch(true, line);
            o.Runs? && (o.id.Date? || o.id.Whoami? || o.id.W? || o.id.Ls? || o.id.Rm? || o.id.Grep?)
  {
    EveryNameDispatches(true, line);
  }

  lemma OutputLine(s: Session, input: Input)
    requires s.root != "" && Clean(input.line) && s.auth
    requires Said(input.line) != [] && IsOutput(Said(input.line)[0])
    requires |Said(input.line)| - 1 == Arity(Said(input.line)[0])
    ensures Turn(s, input) == Answered((s.(out := input.env.sysOut), input.env.sysErr))
  {
    OutputRuns(input.line);
    var o := Dispatch(s.auth, input.line);
    RunsTurn(s, input, o.id, o.args);
    OutputHandled(s, o.id, o.args, input.env);
  }

  /** ping needs no authentication. */
  lemma PingLine(s: Session, input: Input, host: string)
    requires s.root != "" && Says(input.line, ["ping", host])
    ensures Turn(s, input) == Answered((s.(out := input.env.sysOut), input.env.sysErr))
  {
    EveryNameDispatches(s.auth, input.line);
    RunsTurn(s, input, Ping, [host]);
    OutputHandled(s, Ping, [host], input.env);
  }
}
