/** The command table and the dispatcher's choice. */
module CommandTable {
  import opened FtpState
  import opened Tokens
  import opened SessionModel

  /** No two commands share a name: the scan of the table finds what a map from names would, so at
      most one handler fits a line. */
  lemma NamesAreDistinct(i: nat, j: nat)
    requires i < j < |CMDS|
    ensures CMDS[i].name != CMDS[j].name
  {
  }

  lemma LookupFindsEntry(i: nat)
    requires i < |CMDS|
    ensures Lookup(CMDS[i].name) == Some(CMDS[i])
  {
    forall j | 0 <= j < |CMDS| && CMDS[j].name == CMDS[i].name ensures j == i {
      if i < j { NamesAreDistinct(i, j); }
      if j < i { NamesAreDistinct(j, i); }
    }
  }

  /** What becomes of a line that begins with a command's name, counting all of its words: the cap of
      six never makes a wrong number of words look right. */
  lemma NamedLine(auth: bool, line: string, i: nat)
    requires line != "" && |line| <= MAX_INPUT_SIZE && i < |CMDS|
    requires var w := Words(line[..|line| - 1]); w != [] && AllShort(Capped(w)) && Strip(w[0]) == CMDS[i].name
    ensures var w := Words(line[..|line| - 1]);
            Dispatch(auth, line) ==
              if |w| - 1 != CMDS[i].params then WrongArity
              else if CMDS[i].authent && !auth then NeedAuth
              else Runs(CMDS[i].id, StripAll(w[1..]))
  {
    var w := Words(line[..|line| - 1]);
    LookupFindsEntry(i);
    assert CMDS[i].params <= 2;
    if |w| <= MAX_TOKENS {
      assert Capped(w) == w;
    }
  }

  /** A handler runs exactly if the line names a command, has its number of words, and a user is
      authenticated where that is needed. */
  lemma RunsIff(auth: bool, line: string)
    requires line != "" && |line| <= MAX_INPUT_SIZE
    ensures var w := Words(line[..|line| - 1]);
            Dispatch(auth, line).Runs? <==>
              && AllShort(Capped(w)) && w != []
              && exists i :: 0 <= i < |CMDS| && CMDS[i].name == Strip(w[0]) && |w| - 1 == CMDS[i].params
                             && (CMDS[i].authent ==> auth)
  {
    var w := Words(line[..|line| - 1]);
    if AllShort(Capped(w)) && w != [] {
      if i :| 0 <= i < |CMDS| && CMDS[i].name == Strip(w[0]) {
        NamedLine(auth, line, i);
        forall j | 0 <= j < |CMDS| && CMDS[j].name == Strip(w[0]) ensures j == i {
          if i < j { NamesAreDistinct(i, j); }
          if j < i { NamesAreDistinct(j, i); }
        }
      }
    }
  }

  /** The line's first six words, if all of them fit their slots. */
  ghost predicate Readable(line: string, w: seq<string>) {
    line != "" && |line| <= MAX_INPUT_SIZE && w == Capped(Words(line[..|line| - 1])) && AllShort(w) && w != []
  }

  lemma StepUnknown(s: Session, line: string, w: seq<string>, e: Env)
    requires s.root != "" && Readable(line, w) && forall j :: 0 <= j < |CMDS| ==> CMDS[j].name != Strip(w[0])
    ensures StepLine(s, line, e) == (s.(out := "Please provide a valid command"), 0)
  {
  }

  /** The table's numbers of parameters and authentication marks are those of the handlers. */
  lemma TableParams(i: nat)
    requires i < |CMDS|
    ensures CMDS[i].params == Params(CMDS[i].id) && (CMDS[i].authent <==> NeedsAuth(CMDS[i].id))
  {
  }

  lemma StepNamed(s: Session, line: string, w: seq<string>, e: Env, i: nat)
    requires s.root != "" && Readable(line, w) && i < |CMDS| && CMDS[i].name == Strip(w[0])
    ensures |w| - 1 != CMDS[i].params ==> StepLine(s, line, e) == (s.(out := "Invalid number of arguments"), 0)
    ensures |w| - 1 == CMDS[i].params && CMDS[i].authent && !s.auth ==>
              StepLine(s, line, e) == (s.(out := "Authentication required"), 0)
    ensures |w| - 1 == CMDS[i].params && (CMDS[i].authent ==> s.auth) ==>
              && CMDS[i].params == Params(CMDS[i].id)
              && StepLine(s, line, e) == Handle(s, CMDS[i].id, StripAll(w[1..]), e)
  {
    LookupFindsEntry(i);
    TableParams(i);
    var o := Dispatch(s.auth, line);
    assert o == if |w| - 1 != CMDS[i].params then WrongArity
                else if CMDS[i].authent && !s.auth then NeedAuth
                else Runs(CMDS[i].id, StripAll(w[1..]));
  }
}
