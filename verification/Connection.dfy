/** The command handlers of src/cmd.cpp and the client loop of src/server.cpp as they update a
    connection, proved against the session model. */
module ConnectionClass {
  import opened Errors
  import opened FtpState
  import opened Numbers
  import opened Tokens
  import opened Replace
  import opened ReplyText
  import opened SessionModel
  import opened CommandTable

  /** checkInvalidChars: none of the first dictSize forbidden characters occurs. */
  method CheckInvalidChars(input: string, dictSize: nat) returns (clean: bool)
    requires dictSize <= |DICT|
    ensures clean <==> !HasForbidden(input, dictSize)
  {
    var i := 0;
    while i < dictSize
      invariant 0 <= i <= dictSize && forall j :: 0 <= j < i ==> DICT[j] !in input
    {
      if DICT[i] in input {
        return false;
      }
      i := i + 1;
    }
    return true;
  }

  /** Lines after an exit, or after a reply that could not be written, change nothing. */
  lemma {:induction false} ExitIsFinal(s: Session, inputs: seq<Input>, i: nat)
    requires s.root != "" && Lines(inputs) && i <= |inputs|
    requires i < |inputs| ==> RunLines(s, inputs[..i]).exit || HungUp(inputs[..i])
    ensures RunLines(s, inputs) == RunLines(s, inputs[..i])
    decreases |inputs| - i
  {
    if i == |inputs| {
      assert inputs[..i] == inputs;
    } else {
      assert inputs[..i + 1][..i] == inputs[..i];
      if HungUp(inputs[..i]) {
        var j :| 0 <= j < i && inputs[..i][j].env.writeFails;
        assert inputs[..i + 1][j].env.writeFails;
      }
      ExitIsFinal(s, inputs, i + 1);
    }
  }

  lemma LastOfMore(before: seq<Input>, last: Input, more: seq<Input>)
    requires more == before + [last]
    ensures more != [] && more[..|more| - 1] == before && more[|more| - 1] == last
    ensures HungUp(more) <==> HungUp(before) || last.env.writeFails
  {
    assert more[|before|] == last;
    assert forall j :: 0 <= j < |before| ==> more[j] == before[j];
  }

  /** One more line of a session that is still going on. */
  lemma NextLine(s: Session, before: seq<Input>, last: Input, more: seq<Input>)
    requires s.root != "" && Lines(before) && Lines(more) && last.line != "" && more == before + [last]
    requires !RunLines(s, before).exit && !HungUp(before)
    ensures RunLines(s, more) == Turn(RunLines(s, before), last)
    ensures HungUp(more) <==> last.env.writeFails
  {
    LastOfMore(before, last, more);
  }

  /** The first lines of a session, and one more. */
  lemma FirstLines(inputs: seq<Input>, i: nat)
    requires Lines(inputs) && i <= |inputs|
    ensures Lines(inputs[..i]) && (i == 0 ==> inputs[..i] == [])
    ensures i < |inputs| ==> inputs[i].line != "" && Lines(inputs[..i + 1])
    ensures i < |inputs| ==> inputs[..i + 1] == inputs[..i] + [inputs[i]]
  {
  }

  class Connection {
    const users: seq<User>
    const root: string
    var auth: bool
    var readyForCheck: bool
    var exit: bool
    var tmpUsername: string
    var username: string
    var pwd: string
    var relativePwd: string
    var currOut: string
    var made: seq<string>
    var begun: seq<(Dir, Job)>

    function View(): Session
      reads this
    {
      Session(users, root, auth, readyForCheck, exit, tmpUsername, username, pwd, relativePwd, currOut, made, begun)
    }

    /** init_connection. */
    constructor (users: seq<User>, rootPath: string, guest: string, garbage: string)
      ensures View() == InitSession(users, rootPath, guest, garbage)
    {
      this.users := users;
      root := rootPath;
      auth, readyForCheck, exit := false, false, false;
      tmpUsername, username := "Default", guest;
      pwd, relativePwd, currOut := rootPath, garbage, "";
      made, begun := [], [];
    }

    method CmdLogin(arg: string) returns (err: int)
      modifies this
      ensures (View(), err) == DoLogin(old(View()), arg)
    {
      readyForCheck := true;
      tmpUsername := Prefix(arg, MAX_USERNAME_SIZE + 1);
      if |arg| > MAX_USERNAME_SIZE {
        return ERROR_USERNAME_SIZE;
      }
      currOut := "Please provide your password";
      return 0;
    }

    method CmdPass(arg: string) returns (err: int)
      modifies this
      ensures (View(), err) == DoPass(old(View()), arg)
    {
      if |arg| > MAX_PASSWORD_SIZE {
        return ERROR_PASSWORD_SIZE;
      }
      if auth {
        currOut := "User already authentified";
        return 0;
      }
      if !readyForCheck {
        currOut := "Please provide a username first";
        return 0;
      }
      var found := false;
      var name := Prefix(tmpUsername, MAX_USERNAME_SIZE);
      var i := 0;
      while i < |users| && !found
        invariant 0 <= i <= |users|
        invariant found ==> Accepts(users, name, arg)
        invariant found ==>
                    View() == old(View()).(auth := true, username := name, out := "Authentication successful")
        invariant !found ==> View() == old(View())
        invariant !found ==> forall j :: 0 <= j < i ==> !(users[j].uname <= name && users[j].pass <= arg)
      {
        if users[i].uname <= name {
          if users[i].pass <= arg {
            auth := true;
            username := name;
            currOut := "Authentication successful";
            found := true;
          }
        }
        i := i + 1;
      }
      if !found {
        currOut := name + " : Invalid Credentials";
      }
      readyForCheck := false;
      return 0;
    }

    method CmdLogout() returns (err: int)
      modifies this
      ensures (View(), err) == DoLogout(old(View()))
    {
      auth := false;
      pwd := root;
      currOut := "User is logged out";
      return 0;
    }

    method CmdExit() returns (err: int)
      modifies this
      ensures (View(), err) == DoExit(old(View()))
    {
      exit := true;
      currOut := "";
      return 0;
    }

    method CmdMkdir(arg: string, e: Env) returns (err: int)
      modifies this
      ensures (View(), err) == DoMkdir(old(View()), arg, e)
    {
      if '/' in arg {
        return ERROR_PATH_NOT_SUPPORTED;
      }
      var clean := CheckInvalidChars(arg, DICT_SIZE);
      if !clean {
        return ERROR_INVALID_CHARS;
      }
      if |arg| >= MAX_FOLDER_NAME_SIZE {
        return ERROR_FOLDER_NAME_SIZE;
      }
      if ToSize(|pwd| + |arg| - |root|) >= MAX_PATH_SIZE {
        return ERROR_MAX_PATH_SIZE;
      }
      made := made + [pwd + "/" + arg];
      if e.mkdirFails {
        currOut := "Mkdir failed to create directory";
        return -1;
      }
      currOut := "Creation successful";
      return 0;
    }

    method CmdCd(arg: string, e: Env) returns (err: int)
      requires root != ""
      modifies this
      ensures (View(), err) == DoCd(old(View()), arg, e)
    {
      if |arg| > MAX_PATH_SIZE {
        return ERROR_MAX_PATH_SIZE;
      }
      var clean := CheckInvalidChars(arg, DICT_SIZE - 1);
      if !clean {
        return ERROR_INVALID_CHARS;
      }
      var newPath := (if "/" <= arg then root else pwd) + "/" + arg;
      if ToSize(|pwd| + |arg| - |root|) >= MAX_PATH_SIZE {
        return ERROR_MAX_PATH_SIZE;
      }
      var found := e.resolve(newPath);
      if found == "" {
        currOut := "Invalid path";
        return 0;
      }
      if !(root <= found) {
        return ERROR_ACCESS_DENIED;
      }
      var relative := FindAndReplaceAll(found, root, "");
      relativePwd := relative;
      pwd := found;
      currOut := if relative == "" then "/" else relative;
      return 0;
    }

    method CmdGet(arg: string, e: Env) returns (err: int)
      modifies this
      ensures (View(), err) == DoGet(old(View()), arg, e)
    {
      if |arg| > MAX_FILENAME_SIZE {
        return ERROR_FILESIZE;
      }
      begun := begun + [(Send, Job("root" + relativePwd + "/" + arg, e.fileSize.Or(0)))];
      if e.fileSize.None? {
        return ERROR_FILE_NOT_FOUND;
      }
      if e.setupError != 0 {
        return e.setupError;
      }
      currOut := GetReply(e.port, e.sizeRead);
      return 0;
    }

    method CmdPut(arg: string, size: string, e: Env) returns (err: int)
      modifies this
      ensures (View(), err) == DoPut(old(View()), arg, size, e)
    {
      var path := PutPath(View(), arg);
      begun := begun + [(Recv, Job(path, ToSize(Atoi(size).Or(e.wild))))];
      if e.setupError != 0 {
        return e.setupError;
      }
      currOut := PutReply(e.port);
      return 0;
    }

    /** The handler behind a table entry. */
    method Call(id: CmdId, args: seq<string>, e: Env) returns (err: int)
      requires root != "" && |args| == Params(id)
      modifies this
      ensures (View(), err) == Handle(old(View()), id, args, e)
    {
      match id {
        case Login => err := CmdLogin(args[0]);
        case Pass => err := CmdPass(args[0]);
        case Logout => err := CmdLogout();
        case Exit => err := CmdExit();
        case Mkdir => err := CmdMkdir(args[0], e);
        case Cd => err := CmdCd(args[0], e);
        case Get => err := CmdGet(args[0], e);
        case Put => err := CmdPut(args[0], args[1], e);
        case _ =>
          currOut := e.sysOut;
          err := e.sysErr;
      }
    }

    /** process_cmd: scans the table for the first word. */
    method ProcessCmd(line: string, e: Env) returns (err: int)
      requires root != "" && line != ""
      modifies this
      ensures (View(), err) == StepLine(old(View()), line, e)
    {
      if |line| > MAX_INPUT_SIZE {
        return ERROR_NULL;
      }
      var splitted := new string[MAX_TOKENS](i => "");
      var numTokens := TokenizeCmd(line[..|line| - 1], splitted);
      ghost var w := Capped(Words(line[..|line| - 1]));
      if numTokens == 0 {
        return 0;
      }
      if numTokens < 0 {
        return numTokens;
      }
      assert Readable(line, w) && |w| == numTokens && splitted[0] == Strip(w[0]);
      ghost var s := View();
      var name := splitted[0];
      var args := splitted[1..numTokens];
      assert args == StripAll(w[1..]);
      var i := 0;
      err := 0;
      var found := false;
      while i < |CMDS| && !found
        invariant 0 <= i <= |CMDS|
        invariant !found ==> err == 0 && View() == s && forall j :: 0 <= j < i ==> CMDS[j].name != name
        invariant found ==> (View(), err) == StepLine(s, line, e)
      {
        if name == CMDS[i].name {
          found := true;
          StepNamed(s, line, w, e, i);
          if numTokens - 1 != CMDS[i].params {
            currOut := "Invalid number of arguments";
            return err;
          }
          if CMDS[i].authent {
            if auth {
              err := Call(CMDS[i].id, args, e);
            } else {
              currOut := "Authentication required";
            }
          } else {
            err := Call(CMDS[i].id, args, e);
          }
        }
        i := i + 1;
      }
      if !found {
        StepUnknown(s, line, w, e);
        currOut := "Please provide a valid command";
        return err;
      }
      return err;
    }

    /** One turn of the loop of handle_client: error_handler answers an error. */
    method OneTurn(input: Input)
      requires root != "" && input.line != ""
      modifies this
      ensures View() == Turn(old(View()), input)
    {
      currOut := "";
      var err := ProcessCmd(input.line, input.env);
      if err < 0 {
        currOut := ErrorReply(err, currOut);
      }
    }

    /** The turn after the lines before of a session that began in s. */
    method NextTurn(input: Input, ghost s: Session, ghost before: seq<Input>, ghost more: seq<Input>)
      requires s.root != "" && Lines(before) && Lines(more) && input.line != "" && more == before + [input]
      requires View() == RunLines(s, before) && !exit && !HungUp(before)
      modifies this
      ensures View() == RunLines(s, more)
      ensures HungUp(more) <==> input.env.writeFails
    {
      NextLine(s, before, input, more);
      OneTurn(input);
    }

    /** handle_client: until exit is set, the peer closes the connection, or a reply cannot be written. */
    method HandleClient(inputs: seq<Input>)
      requires root != "" && Lines(inputs)
      modifies this
      ensures View() == RunLines(old(View()), inputs)
    {
      ghost var s := View();
      var i := 0;
      FirstLines(inputs, 0);
      while true
        invariant 0 <= i <= |inputs| && Lines(inputs[..i])
        invariant View() == RunLines(s, inputs[..i]) && !HungUp(inputs[..i])
        decreases |inputs| - i
      {
        if exit {
          break;
        }
        if i == |inputs| {
          break; // read returned 0
        }
        var input := inputs[i];
        FirstLines(inputs, i);
        NextTurn(input, s, inputs[..i], inputs[..i + 1]);
        i := i + 1;
        if input.env.writeFails {
          break;
        }
      }
      ExitIsFinal(s, inputs, i);
    }
  }
}
