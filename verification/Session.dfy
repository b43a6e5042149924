/** One connection's command session as values: what each line of input does to it. */
module SessionModel {
  import opened Errors
  import opened FtpState
  import opened Numbers
  import opened Tokens
  import opened Replace
  import opened ReplyText

  const MAX_USERNAME_SIZE: nat := 32
  const MAX_PASSWORD_SIZE: nat := 32
  const MAX_PATH_SIZE: nat := 128
  const MAX_ROOT_PATH: nat := 256
  const MAX_FILENAME_SIZE: nat := 32
  const MAX_FOLDER_NAME_SIZE: nat := 32
  const DICT_SIZE: nat := 8

  datatype User = User(uname: string, pass: string)

  /** The fields of connection_t, with the paths handed to mkdir and the transfers begun so far. */
  datatype Session = Session(
    users: seq<User>, root: string, auth: bool, readyForCheck: bool, exit: bool,
    tmpUsername: string, username: string, pwd: string, relativePwd: string, out: string,
    made: seq<string>, begun: seq<(Dir, Job)>)

  /** init_connection; the relative path is not initialised there. */
  function InitSession(users: seq<User>, root: string, guest: string, garbage: string): Session {
    Session(users, root, false, false, false, "Default", guest, root, garbage, "", [], [])
  }

  /** What the system does while one line is processed: the output of "cd p && pwd", mkdir, the file
      of a get, the transfer port, the other commands' output, and whether the reply can be written. wild
      stands for an undefined atoi. */
  datatype Env = Env(
    resolve: string -> string, mkdirFails: bool, fileSize: Option<nat>, setupError: int,
    port: int, sizeRead: nat, sysOut: string, sysErr: int, wild: int, writeFails: bool)

  // ---- The command table ----

  datatype CmdId = Login | Pass | Ping | Date | Whoami | W | Logout | Exit | Ls | Mkdir | Cd | Rm | Get | Put | Grep

  datatype Command = Command(name: string, params: nat, authent: bool, id: CmdId)

  const CMDS: seq<Command> := [
    Command("login", 1, false, Login),
    Command("pass", 1, false, Pass),
    Command("ping", 1, false, Ping),
    Command("date", 0, true, Date),
    Command("whoami", 0, true, Whoami),
    Command("w", 0, true, W),
    Command("logout", 0, true, Logout),
    Command("exit", 0, false, Exit),
    Command("ls", 0, true, Ls),
    Command("mkdir", 1, true, Mkdir),
    Command("cd", 1, true, Cd),
    Command("rm", 1, true, Rm),
    Command("get", 1, true, Get),
    Command("put", 2, true, Put),
    Command("grep", 1, true, Grep)
  ]

  /** The number of parameters of a command. */
  function Params(id: CmdId): nat {
    match id
    case Date => 0 case Whoami => 0 case W => 0 case Logout => 0 case Exit => 0 case Ls => 0
    case Put => 2
    case _ => 1
  }

  /** Everything but login, pass, ping and exit needs an authenticated user. */
  predicate NeedsAuth(id: CmdId) {
    !id.Login? && !id.Pass? && !id.Ping? && !id.Exit?
  }

  /** The command of that name. */
  ghost function Lookup(name: string): (r: Option<Command>)
    ensures r.Some? ==> r.value.name == name && r.value.params == Params(r.value.id)
    ensures r.Some? ==> (r.value.authent <==> NeedsAuth(r.value.id))
  {
    if exists i :: 0 <= i < |CMDS| && CMDS[i].name == name then
      var i :| 0 <= i < |CMDS| && CMDS[i].name == name;
      Some(CMDS[i])
    else None
  }

  /** What becomes of a line: an error code without a handler, a message, or one handler. */
  datatype Outcome =
    | Silent(err: int) | Unknown | WrongArity | NeedAuth
    | Runs(id: CmdId, args: seq<string>)

  function StripAll(tokens: seq<string>): (r: seq<string>)
    ensures |r| == |tokens| && forall i :: 0 <= i < |r| ==> r[i] == Strip(tokens[i])
  {
    seq(|tokens|, i requires 0 <= i < |tokens| => Strip(tokens[i]))
  }

  ghost function Dispatch(auth: bool, line: string): (o: Outcome)
    requires line != ""
    ensures o.Runs? ==> |o.args| == Params(o.id) && (NeedsAuth(o.id) ==> auth)
  {
    if |line| > MAX_INPUT_SIZE then Silent(ERROR_NULL)
    else
      var w := Capped(Words(line[..|line| - 1]));
      if !AllShort(w) then Silent(ERROR_ARGUMENT_SIZE)
      else if w == [] then Silent(0)
      else
        match Lookup(Strip(w[0]))
        case None => Unknown
        case Some(c) =>
          if |w| - 1 != c.params then WrongArity
          else if c.authent && !auth then NeedAuth
          else Runs(c.id, StripAll(w[1..]))
  }

  // ---- The handlers ----

  function Prefix(s: string, n: nat): string {
    if |s| <= n then s else s[..n]
  }

  function DoLogin(s: Session, arg: string): (Session, int) {
    var t := s.(readyForCheck := true, tmpUsername := Prefix(arg, MAX_USERNAME_SIZE + 1));
    if |arg| > MAX_USERNAME_SIZE then (t, ERROR_USERNAME_SIZE)
    else (t.(out := "Please provide your password"), 0)
  }

  /** The name and password of some user begin the supplied ones. */
  ghost predicate Accepts(users: seq<User>, name: string, pass: string) {
    exists i :: 0 <= i < |users| && users[i].uname <= name && users[i].pass <= pass
  }

  predicate ChecksPassword(s: Session, arg: string) {
    |arg| <= MAX_PASSWORD_SIZE && !s.auth && s.readyForCheck
  }

  ghost function DoPass(s: Session, arg: string): (Session, int) {
    if |arg| > MAX_PASSWORD_SIZE then (s, ERROR_PASSWORD_SIZE)
    else if s.auth then (s.(out := "User already authentified"), 0)
    else if !s.readyForCheck then (s.(out := "Please provide a username first"), 0)
    else
      var name := Prefix(s.tmpUsername, MAX_USERNAME_SIZE);
      var t := s.(readyForCheck := false);
      if Accepts(s.users, name, arg) then (t.(auth := true, username := name, out := "Authentication successful"), 0)
      else (t.(out := name + " : Invalid Credentials"), 0)
  }

  function DoLogout(s: Session): (Session, int) {
    (s.(auth := false, pwd := s.root, out := "User is logged out"), 0)
  }

  function DoExit(s: Session): (Session, int) {
    (s.(exit := true, out := ""), 0)
  }

  const DICT: string := "&|;$><!`"

  /** One of the first n forbidden characters occurs. */
  ghost predicate HasForbidden(s: string, n: nat)
    requires n <= |DICT|
  {
    exists i :: 0 <= i < n && DICT[i] in s
  }

  /** strlen(pwd) + strlen(arg) - strlen(root), computed in size_t. */
  function RelativeLength(s: Session, arg: string): nat {
    ToSize(|s.pwd| + |arg| - |s.root|)
  }

  ghost function DoMkdir(s: Session, arg: string, e: Env): (Session, int) {
    if '/' in arg then (s, ERROR_PATH_NOT_SUPPORTED)
    else if HasForbidden(arg, DICT_SIZE) then (s, ERROR_INVALID_CHARS)
    else if |arg| >= MAX_FOLDER_NAME_SIZE then (s, ERROR_FOLDER_NAME_SIZE)
    else if RelativeLength(s, arg) >= MAX_PATH_SIZE then (s, ERROR_MAX_PATH_SIZE)
    else
      var t := s.(made := s.made + [s.pwd + "/" + arg]);
      if e.mkdirFails then (t.(out := "Mkdir failed to create directory"), -1)
      else (t.(out := "Creation successful"), 0)
  }

  function NewPath(s: Session, arg: string): string {
    (if "/" <= arg then s.root else s.pwd) + "/" + arg
  }

  /** What the shell answers to a cd. */
  function CdFinds(s: Session, arg: string, e: Env): string {
    e.resolve(NewPath(s, arg))
  }

  ghost function DoCd(s: Session, arg: string, e: Env): (Session, int)
    requires s.root != ""
  {
    if |arg| > MAX_PATH_SIZE then (s, ERROR_MAX_PATH_SIZE)
    else if HasForbidden(arg, DICT_SIZE - 1) then (s, ERROR_INVALID_CHARS)
    else if RelativeLength(s, arg) >= MAX_PATH_SIZE then (s, ERROR_MAX_PATH_SIZE)
    else
      var found := CdFinds(s, arg, e);
      if found == "" then (s.(out := "Invalid path"), 0)
      else if !(s.root <= found) then (s, ERROR_ACCESS_DENIED)
      else
        var relative := Replaced(found, s.root, "");
        (s.(relativePwd := relative, pwd := found, out := if relative == "" then "/" else relative), 0)
  }

  function DoGet(s: Session, arg: string, e: Env): (Session, int) {
    if |arg| > MAX_FILENAME_SIZE then (s, ERROR_FILESIZE)
    else
      var t := s.(begun := s.begun + [(Send, Job("root" + s.relativePwd + "/" + arg, e.fileSize.Or(0)))]);
      if e.fileSize.None? then (t, ERROR_FILE_NOT_FOUND)
      else if e.setupError != 0 then (t, e.setupError)
      else (t.(out := GetReply(e.port, e.sizeRead)), 0)
  }

  /** pwd/arg in a buffer of MAX_ROOT_PATH + MAX_PATH_SIZE characters. */
  function PutPath(s: Session, arg: string): string {
    var dir := Prefix(s.pwd, MAX_ROOT_PATH + MAX_PATH_SIZE) + "/";
    dir + Prefix(arg, if |dir| > MAX_ROOT_PATH + MAX_PATH_SIZE then 0 else MAX_ROOT_PATH + MAX_PATH_SIZE - |dir|)
  }

  function DoPut(s: Session, arg: string, size: string, e: Env): (Session, int) {
    var bytes := ToSize(Atoi(size).Or(e.wild));
    var t := s.(begun := s.begun + [(Recv, Job(PutPath(s, arg), bytes))]);
    if e.setupError != 0 then (t, e.setupError) else (t.(out := PutReply(e.port)), 0)
  }

  /** ping, date, whoami, w, ls, rm, grep: they only produce output. */
  function DoOther(s: Session, e: Env): (Session, int) {
    (s.(out := e.sysOut), e.sysErr)
  }

  ghost function Handle(s: Session, id: CmdId, args: seq<string>, e: Env): (r: (Session, int))
    requires s.root != "" && |args| == Params(id)
    ensures r.0.root == s.root && r.0.users == s.users
  {
    match id
    case Login => DoLogin(s, args[0])
    case Pass => DoPass(s, args[0])
    case Logout => DoLogout(s)
    case Exit => DoExit(s)
    case Mkdir => DoMkdir(s, args[0], e)
    case Cd => DoCd(s, args[0], e)
    case Get => DoGet(s, args[0], e)
    case Put => DoPut(s, args[0], args[1], e)
    case _ => DoOther(s, e)
  }

  /** process_cmd. */
  ghost function StepLine(s: Session, line: string, e: Env): (r: (Session, int))
    requires s.root != "" && line != ""
    ensures r.0.root == s.root && r.0.users == s.users
  {
    match Dispatch(s.auth, line)
    case Silent(err) => (s, err)
    case Unknown => (s.(out := "Please provide a valid command"), 0)
    case WrongArity => (s.(out := "Invalid number of arguments"), 0)
    case NeedAuth => (s.(out := "Authentication required"), 0)
    case Runs(id, args) => Handle(s, id, args, e)
  }

  // ---- Whole runs ----

  datatype Input = Input(line: string, env: Env)

  predicate Lines(inputs: seq<Input>) {
    forall i :: 0 <= i < |inputs| ==> inputs[i].line != ""
  }

  /** error_handler: the reply to a line that was processed with an error. */
  function ErrorReply(err: int, out: string): string {
    if err == ERROR_FOLDER_NAME_SIZE then "ERROR : File/folder length too long"
    else if err == ERROR_INVALID_CHARS then "ERROR : Arguments contain invalid characters"
    else if err == ERROR_INVALID_PATH then "ERROR : Invalid path"
    else if err == ERROR_ACCESS_DENIED then "ERROR : Access denied"
    else if err == ERROR_FILE_NOT_FOUND then "ERROR : File not found"
    else if err == ERROR_ARGUMENT_SIZE then "ERROR : Argument is too long"
    else if err == ERROR_DIRECTORY then "ERROR : It is a directory"
    else if err == ERROR_USERNAME_SIZE then "ERROR : Invalid username"
    else if err == ERROR_PASSWORD_SIZE then "ERROR : Invalid password"
    else if err == ERROR_PATH_NOT_SUPPORTED then "ERROR : command does not support paths"
    else if err == ERROR_MAX_PATH_SIZE then "ERROR : command does not support paths longer than 128"
    else if err == ERROR_FILESIZE then "ERROR : File size is too long"
    else out
  }

  /** The session after a line that ended with an error code, if that is negative. */
  function Answered(r: (Session, int)): (t: Session)
    ensures t == r.0.(out := t.out)
  {
    if r.1 < 0 then r.0.(out := ErrorReply(r.1, r.0.out)) else r.0
  }

  /** One turn of handle_client: the line is processed with a cleared output, and an error answered. */
  ghost function Turn(s: Session, input: Input): (t: Session)
    requires s.root != "" && input.line != ""
    ensures t.root == s.root && t.users == s.users
  {
    Answered(StepLine(s.(out := ""), input.line, input.env))
  }

  /** The reply to one of the lines could not be written. */
  predicate HungUp(inputs: seq<Input>) {
    exists i :: 0 <= i < |inputs| && inputs[i].env.writeFails
  }

  /** handle_client: lines are processed until exit is set or a reply cannot be written. */
  ghost function RunLines(s: Session, inputs: seq<Input>): (t: Session)
    requires s.root != "" && Lines(inputs)
    ensures t.root == s.root && t.users == s.users
    decreases |inputs|
  {
    if inputs == [] then s
    else
      var t := RunLines(s, inputs[..|inputs| - 1]);
      if t.exit || HungUp(inputs[..|inputs| - 1]) then t else Turn(t, inputs[|inputs| - 1])
  }
}
