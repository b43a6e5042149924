/** tokenize_cmd (src/utils.cpp): cutting a line into at most six words. */
module Tokens {
  import opened Errors

  const MAX_ARG_SIZE: nat := 128
  const MAX_TOKENS: nat := 6
  const MAX_INPUT_SIZE: nat := 256

  /** The length of the word at the beginning of s. */
  function WordLength(s: string): (n: nat)
    ensures n <= |s| && (n < |s| ==> s[n] == ' ') && forall i :: 0 <= i < n ==> s[i] != ' '
  {
    if s == "" || s[0] == ' ' then 0 else 1 + WordLength(s[1..])
  }

  lemma WordLengthIs(s: string, n: nat)
    requires n <= |s| && (n < |s| ==> s[n] == ' ') && forall i :: 0 <= i < n ==> s[i] != ' '
    ensures WordLength(s) == n
  {
  }

  /** The words of s, separated by runs of spaces: what repeated strtok calls deliver. */
  function Words(s: string): seq<string>
    decreases |s|
  {
    if s == "" then []
    else if s[0] == ' ' then Words(s[1..])
    else
      var n := WordLength(s);
      [s[..n]] + Words(s[n..])
  }

  lemma SkipSpace(s: string, b: nat)
    requires b < |s| && s[b] == ' '
    ensures Words(s[b..]) == Words(s[b + 1..])
  {
    assert s[b..][1..] == s[b + 1..];
  }

  lemma WordAt(s: string, b: nat, e: nat)
    requires b < e <= |s| && (e < |s| ==> s[e] == ' ') && forall i :: b <= i < e ==> s[i] != ' '
    ensures Words(s[b..]) == [s[b..e]] + Words(s[e..])
  {
    WordLengthIs(s[b..], e - b);
    assert s[b..][..e - b] == s[b..e] && s[b..][e - b..] == s[e..];
  }

  /** strtok: the next word at or after pos, and where to go on. */
  method StrTok(s: string, pos: nat) returns (token: string, next: nat)
    requires pos <= |s|
    ensures pos <= next <= |s|
    ensures token == "" <==> Words(s[pos..]) == []
    ensures token != "" ==> pos < next && Words(s[pos..]) == [token] + Words(s[next..])
  {
    var b := pos;
    while b < |s| && s[b] == ' '
      invariant pos <= b <= |s|
      invariant Words(s[b..]) == Words(s[pos..])
    {
      SkipSpace(s, b);
      b := b + 1;
    }
    var e := b;
    while e < |s| && s[e] != ' '
      invariant b <= e <= |s|
      invariant forall i :: b <= i < e ==> s[i] != ' '
    {
      e := e + 1;
    }
    token := s[b..e];
    next := e;
    if b < |s| {
      WordAt(s, b, e);
    }
  }

  /** Drops one newline at the end. */
  function Strip(token: string): string {
    if token != "" && token[|token| - 1] == '\n' then token[..|token| - 1] else token
  }

  /** A newline at the end goes, and nothing else. */
  lemma Stripped(token: string)
    ensures Strip(token + "\n") == token
    ensures token == "" || token[|token| - 1] != '\n' ==> Strip(token) == token
  {
    assert (token + "\n")[..|token|] == token;
  }

  function Capped(words: seq<string>): seq<string> {
    if |words| <= MAX_TOKENS then words else words[..MAX_TOKENS]
  }

  predicate AllShort(words: seq<string>) {
    forall i :: 0 <= i < |words| ==> |words[i]| <= MAX_ARG_SIZE
  }

  /** The first k slots of out hold the first k words, and the others are as before. */
  ghost predicate Filled(out: seq<string>, before: seq<string>, w: seq<string>, k: nat) {
    && |out| == |before| && k <= |w| && k <= |out|
    && (forall j :: 0 <= j < k ==> |w[j]| <= MAX_ARG_SIZE && out[j] == Strip(w[j]))
    && (forall j :: k <= j < |out| ==> out[j] == before[j])
  }

  /** Fills out with the first six words and returns their number; the first word among them that is
      too long ends the call with an error. A line of MAX_INPUT_SIZE characters or more has no
      terminated copy in the source. */
  method TokenizeCmd(input: string, out: array<string>) returns (n: int)
    requires |input| < MAX_INPUT_SIZE && out.Length == MAX_TOKENS
    modifies out
    ensures var w := Capped(Words(input));
            if AllShort(w) then n == |w| && Filled(out[..], old(out[..]), w, |w|)
            else n == ERROR_ARGUMENT_SIZE
                 && exists k: nat :: k < |w| && |w[k]| > MAX_ARG_SIZE && Filled(out[..], old(out[..]), w, k)
  {
    var i := 0;
    var tokenNum := 0;
    ghost var w := Words(input);
    var token, pos := StrTok(input, 0);
    assert input[0..] == input;
    while token != "" && i < MAX_TOKENS
      invariant 0 <= i <= MAX_TOKENS && tokenNum == i && pos <= |input|
      invariant Filled(out[..], old(out[..]), w, i)
      invariant if token == "" then w[i..] == [] else w[i..] == [token] + Words(input[pos..])
      decreases MAX_TOKENS - i
    {
      assert w[i] == w[i..][0] == token;
      if |token| > MAX_ARG_SIZE {
        assert Capped(w)[i] == token;
        assert Filled(out[..], old(out[..]), Capped(w), i);
        return ERROR_ARGUMENT_SIZE;
      }
      tokenNum := tokenNum + 1;
      if token[|token| - 1] == '\n' {
        token := token[..|token| - 1];
      }
      assert w[i + 1..] == w[i..][1..] == Words(input[pos..]);
      out[i] := token;
      token, pos := StrTok(input, pos);
      i := i + 1;
    }
    assert |w[i..]| == |w| - i;
    assert |Capped(w)| == i && Filled(out[..], old(out[..]), Capped(w), i);
    return tokenNum;
  }

  // ---- Tokenizing undoes laying out ----

  function Spaces(n: nat): string {
    if n == 0 then "" else " " + Spaces(n - 1)
  }

  predicate IsWord(t: string) {
    t != "" && forall i :: 0 <= i < |t| ==> t[i] != ' '
  }

  /** The words with gaps[i] spaces before the i-th and the last gap behind them. */
  function Layout(words: seq<string>, gaps: seq<nat>): string
    requires |gaps| == |words| + 1
  {
    if words == [] then Spaces(gaps[0])
    else Spaces(gaps[0]) + words[0] + Layout(words[1..], gaps[1..])
  }

  lemma {:induction false} SkipSpaces(n: nat, s: string)
    ensures Words(Spaces(n) + s) == Words(s)
    decreases n
  {
    if n == 0 {
      assert "" + s == s;
    } else {
      assert (Spaces(n) + s)[1..] == Spaces(n - 1) + s;
      SkipSpaces(n - 1, s);
    }
  }

  lemma FirstWord(t: string, rest: string)
    requires IsWord(t) && (rest == "" || rest[0] == ' ')
    ensures Words(t + rest) == [t] + Words(rest)
  {
    var s := t + rest;
    WordLengthIs(s, |t|);
    assert s[..|t|] == t && s[|t|..] == rest;
  }

  lemma StartOfLayout(words: seq<string>, gaps: seq<nat>)
    requires |gaps| == |words| + 1 && (words == [] || gaps[0] > 0)
    ensures Layout(words, gaps) == "" || Layout(words, gaps)[0] == ' '
  {
    if gaps[0] > 0 {
      assert Spaces(gaps[0])[0] == ' ';
    }
  }

  /** Any words laid out with at least one space between neighbours are found again. */
  lemma {:induction false} WordsOfLayout(words: seq<string>, gaps: seq<nat>)
    requires |gaps| == |words| + 1
    requires forall i :: 0 <= i < |words| ==> IsWord(words[i])
    requires forall i :: 0 < i < |words| ==> gaps[i] > 0
    ensures Words(Layout(words, gaps)) == words
    decreases |words|
  {
    if words == [] {
      SkipSpaces(gaps[0], "");
      assert Spaces(gaps[0]) + "" == Spaces(gaps[0]);
    } else {
      var rest := Layout(words[1..], gaps[1..]);
      WordsOfLayout(words[1..], gaps[1..]);
      assert Layout(words, gaps) == Spaces(gaps[0]) + (words[0] + rest);
      SkipSpaces(gaps[0], words[0] + rest);
      StartOfLayout(words[1..], gaps[1..]);
      FirstWord(words[0], rest);
    }
  }

  /** Every word strtok delivers is nonempty and free of spaces. */
  lemma {:induction false} WordsAreWords(s: string)
    ensures forall w :: w in Words(s) ==> IsWord(w)
    decreases |s|
  {
    if s == "" {
    } else {
      if s[0] == ' ' {
        WordsAreWords(s[1..]);
      } else {
        WordsAreWords(s[WordLength(s)..]);
      }
    }
  }
}
