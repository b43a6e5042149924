/** findAndReplaceAll (src/utils.cpp) and what it does to a string. */
module Replace {

  /** Where a search found the pattern; Npos if nowhere. */
  datatype Found = Pos(i: nat) | Npos

  /** The first position at which pat occurs in s. */
  function FirstIn(s: string, pat: string): (r: Found)
    ensures r.Pos? ==> r.i + |pat| <= |s|
  {
    if pat <= s then Pos(0)
    else if s == "" then Npos
    else match FirstIn(s[1..], pat) case Npos => Npos case Pos(i) => Pos(i + 1)
  }

  /** std::string::find(pat, from). */
  function Find(s: string, pat: string, from: nat): (r: Found)
    ensures r.Pos? ==> from <= r.i && r.i + |pat| <= |s|
  {
    if from > |s| then Npos
    else match FirstIn(s[from..], pat) case Npos => Npos case Pos(i) => Pos(from + i)
  }

  ghost predicate OccursAt(s: string, pat: string, i: nat) {
    i <= |s| && pat <= s[i..]
  }

  ghost predicate Occurs(s: string, pat: string) {
    exists i: nat :: OccursAt(s, pat, i)
  }

  lemma OccursLater(s: string, pat: string, i: nat)
    requires 0 < i <= |s|
    ensures OccursAt(s, pat, i) <==> OccursAt(s[1..], pat, i - 1)
  {
    assert s[1..][i - 1..] == s[i..];
  }

  /** What a search finds is an occurrence, and there is none before it. */
  lemma {:induction false} FirstInIsFirst(s: string, pat: string, j: nat)
    ensures OccursAt(s, pat, j) ==> FirstIn(s, pat).Pos? && FirstIn(s, pat).i <= j
    ensures FirstIn(s, pat).Pos? ==> OccursAt(s, pat, FirstIn(s, pat).i)
    decreases |s|
  {
    assert s[0..] == s;
    if pat <= s || s == "" {
    } else {
      FirstInIsFirst(s[1..], pat, if j == 0 then 0 else j - 1);
      if 0 < j <= |s| { OccursLater(s, pat, j); }
      var r := FirstIn(s[1..], pat);
      if r.Pos? { OccursLater(s, pat, r.i + 1); }
    }
  }

  /** The reference: from left to right, a copy of pat becomes rep and is passed over as a whole, and any
      other character stays. */
  function Replaced(s: string, pat: string, rep: string): string
    requires |pat| > 0
    decreases |s|
  {
    if pat <= s then rep + Replaced(s[|pat|..], pat, rep)
    else if s == "" then ""
    else s[..1] + Replaced(s[1..], pat, rep)
  }

  /** How many copies are replaced. */
  function Replacements(s: string, pat: string): nat
    requires |pat| > 0
    decreases |s|
  {
    if pat <= s then 1 + Replacements(s[|pat|..], pat)
    else if s == "" then 0
    else Replacements(s[1..], pat)
  }

  // ---- The loop ----

  /** data.replace(pos, |pat|, rep). */
  function ReplaceAt(data: string, pos: nat, pat: string, rep: string): string
    requires pos + |pat| <= |data|
  {
    data[..pos] + rep + data[pos + |pat|..]
  }

  /** s up to i, then rep, then the result for s from j on. */
  function Spliced(s: string, i: nat, j: nat, rep: string, pat: string): string
    requires i <= j <= |s| && |pat| > 0
  {
    s[..i] + rep + Replaced(s[j..], pat, rep)
  }

  lemma SplicedAtStart(s: string, j: nat, rep: string, pat: string)
    requires j <= |s| && |pat| > 0
    ensures Spliced(s, 0, j, rep, pat) == rep + Replaced(s[j..], pat, rep)
  {
    assert s[..0] + rep == rep;
  }

  lemma SliceOneOn(s: string, i: nat, j: nat)
    requires i < |s| && j < |s|
    ensures s[..1] + s[1..][..i] == s[..i + 1] && s[1..][j..] == s[j + 1..]
  {
  }

  lemma Regroup(done: string, mid: string, rep: string, tail: string)
    ensures done + (mid + rep + tail) == (done + mid) + rep + tail
  {
  }

  lemma SplicedOneOn(s: string, i: nat, j: nat, rep: string, pat: string)
    requires i <= j < |s| && |pat| > 0
    ensures s[..1] + Spliced(s[1..], i, j, rep, pat) == Spliced(s, i + 1, j + 1, rep, pat)
  {
    SliceOneOn(s, i, j);
    Regroup(s[..1], s[1..][..i], rep, Replaced(s[j + 1..], pat, rep));
  }

  /** A character that begins no copy of the pattern stays in front of what comes of the rest. */
  lemma OneOn(s: string, pat: string, rep: string, r: Found)
    requires |pat| > 0 && !(pat <= s) && s != "" && (r.Pos? ==> r.i + |pat| < |s|)
    requires match r
             case Npos => Replaced(s[1..], pat, rep) == s[1..]
             case Pos(i) => Replaced(s[1..], pat, rep) == Spliced(s[1..], i, i + |pat|, rep, pat)
    ensures match r
            case Npos => Replaced(s, pat, rep) == s
            case Pos(i) => Replaced(s, pat, rep) == Spliced(s, i + 1, i + 1 + |pat|, rep, pat)
  {
    match r
    case Npos => assert s[..1] + s[1..] == s;
    case Pos(i) => SplicedOneOn(s, i, i + |pat|, rep, pat);
  }

  /** Up to the first copy of the pattern nothing changes. */
  lemma {:induction false} ReplacedAtFirst(s: string, pat: string, rep: string)
    requires |pat| > 0
    ensures match FirstIn(s, pat)
            case Npos => Replaced(s, pat, rep) == s
            case Pos(i) => Replaced(s, pat, rep) == Spliced(s, i, i + |pat|, rep, pat)
    decreases |s|
  {
    if pat <= s {
      SplicedAtStart(s, |pat|, rep, pat);
    } else if s == "" {
    } else {
      ReplacedAtFirst(s[1..], pat, rep);
      OneOn(s, pat, rep, FirstIn(s[1..], pat));
    }
  }

  /** Behind the part that is done, the search sees only the rest. */
  lemma FindBehind(done: string, rest: string, pat: string)
    ensures Find(done + rest, pat, |done|) ==
            match FirstIn(rest, pat) case Npos => Npos case Pos(i) => Pos(|done| + i)
  {
    assert (done + rest)[|done|..] == rest;
  }

  lemma ReplaceBehind(done: string, rest: string, i: nat, pat: string, rep: string)
    requires i + |pat| <= |rest|
    ensures ReplaceAt(done + rest, |done| + i, pat, rep) == done + rest[..i] + rep + rest[i + |pat|..]
  {
    var r := done + rest;
    assert r[..|done| + i] == done + rest[..i];
    assert r[|done| + i + |pat|..] == rest[i + |pat|..];
  }

  /** One turn: a part of the rest moves to what is done, and the result stays the same. */
  lemma OneTurn(done: string, rest: string, pos: nat, pat: string, rep: string) returns (done': string, rest': string)
    requires |pat| > 0 && Find(done + rest, pat, |done|) == Pos(pos)
    ensures |rest'| < |rest| && |done'| == pos + |rep|
    ensures ReplaceAt(done + rest, pos, pat, rep) == done' + rest'
    ensures done' + Replaced(rest', pat, rep) == done + Replaced(rest, pat, rep)
  {
    FindBehind(done, rest, pat);
    var i := pos - |done|;
    ReplaceBehind(done, rest, i, pat, rep);
    ReplacedAtFirst(rest, pat, rep);
    done', rest' := done + rest[..i] + rep, rest[i + |pat|..];
    Regroup(done, rest[..i], rep, Replaced(rest', pat, rep));
  }

  lemma Finished(done: string, rest: string, pat: string, rep: string)
    requires |pat| > 0 && Find(done + rest, pat, |done|).Npos?
    ensures Replaced(rest, pat, rep) == rest
  {
    FindBehind(done, rest, pat);
    ReplacedAtFirst(rest, pat, rep);
  }

  /** Replaces every occurrence, searching on behind each replacement, even if that contains the
      pattern. */
  method FindAndReplaceAll(data: string, toSearch: string, replaceStr: string) returns (r: string)
    requires |toSearch| > 0
    ensures r == Replaced(data, toSearch, replaceStr)
  {
    r := data;
    var pos := Find(r, toSearch, 0);
    // rest is still to be searched
    ghost var done, rest := "", data;
    while pos.Pos?
      invariant r == done + rest
      invariant pos == Find(r, toSearch, |done|)
      invariant done + Replaced(rest, toSearch, replaceStr) == Replaced(data, toSearch, replaceStr)
      decreases |rest|
    {
      done, rest := OneTurn(done, rest, pos.i, toSearch, replaceStr);
      r := ReplaceAt(r, pos.i, toSearch, replaceStr);
      pos := Find(r, toSearch, pos.i + |replaceStr|);
    }
    Finished(done, rest, toSearch, replaceStr);
  }

  // ---- What the result is ----

  /** The pieces with sep between neighbours. */
  function Join(pieces: seq<string>, sep: string): string {
    if pieces == [] then ""
    else if |pieces| == 1 then pieces[0]
    else pieces[0] + sep + Join(pieces[1..], sep)
  }

  /** The pieces between the copies of pat that are met from left to right. */
  ghost predicate LeftToRight(pieces: seq<string>, pat: string) {
    && pieces != []
    && (forall k :: 0 <= k < |pieces| - 1 ==> FirstIn(Join(pieces[k..], pat), pat) == Pos(|pieces[k]|))
    && FirstIn(pieces[|pieces| - 1], pat).Npos?
  }

  lemma {:induction false} CountAtFirst(s: string, pat: string)
    requires |pat| > 0
    ensures match FirstIn(s, pat)
            case Npos => Replacements(s, pat) == 0
            case Pos(i) => Replacements(s, pat) == 1 + Replacements(s[i + |pat|..], pat)
    decreases |s|
  {
    if pat <= s || s == "" {
    } else {
      CountAtFirst(s[1..], pat);
      var r := FirstIn(s[1..], pat);
      if r.Pos? { SliceOneOn(s, r.i, r.i + |pat|); }
    }
  }

  lemma OnlyPiece(s: string, pat: string, rep: string)
    requires |pat| > 0 && FirstIn(s, pat).Npos?
    ensures Replaced(s, pat, rep) == s && Replacements(s, pat) == 0
  {
    ReplacedAtFirst(s, pat, rep);
    CountAtFirst(s, pat);
  }

  lemma FirstPiece(p: string, pat: string, rest: string, rep: string)
    requires |pat| > 0 && FirstIn(p + pat + rest, pat) == Pos(|p|)
    ensures Replaced(p + pat + rest, pat, rep) == p + rep + Replaced(rest, pat, rep)
    ensures Replacements(p + pat + rest, pat) == 1 + Replacements(rest, pat)
  {
    var s := p + pat + rest;
    assert s[..|p|] == p && s[|p| + |pat|..] == rest;
    ReplacedAtFirst(s, pat, rep);
    CountAtFirst(s, pat);
  }

  lemma TailIsLeftToRight(pieces: seq<string>, pat: string)
    requires |pieces| > 1 && LeftToRight(pieces, pat)
    ensures LeftToRight(pieces[1..], pat)
  {
    forall k | 0 <= k < |pieces[1..]| - 1
      ensures FirstIn(Join(pieces[1..][k..], pat), pat) == Pos(|pieces[1..][k]|)
    {
      assert pieces[1..][k..] == pieces[k + 1..];
    }
  }

  /** Cut at the copies of pat, with rep put in between: wherever a string is cut from left to right, its
      result is the same pieces joined by the replacement, and their number tells that of the
      replacements. */
  lemma {:induction false} ReplacedJoins(pieces: seq<string>, pat: string, rep: string)
    requires |pat| > 0 && LeftToRight(pieces, pat)
    ensures Replaced(Join(pieces, pat), pat, rep) == Join(pieces, rep)
    ensures Replacements(Join(pieces, pat), pat) == |pieces| - 1
    decreases |pieces|
  {
    if |pieces| == 1 {
      OnlyPiece(pieces[0], pat, rep);
    } else {
      assert pieces[0..] == pieces;
      FirstPiece(pieces[0], pat, Join(pieces[1..], pat), rep);
      TailIsLeftToRight(pieces, pat);
      ReplacedJoins(pieces[1..], pat, rep);
    }
  }

  lemma CutAt(s: string, pat: string, i: nat)
    requires OccursAt(s, pat, i)
    ensures s == s[..i] + pat + s[i + |pat|..]
  {
    var t := s[i..];
    assert t == pat + t[|pat|..];
    assert t[|pat|..] == s[i + |pat|..];
    assert s == s[..i] + t;
  }

  /** Every string can be cut that way. */
  lemma {:induction false} CanBeCut(s: string, pat: string) returns (pieces: seq<string>)
    requires |pat| > 0
    ensures Join(pieces, pat) == s && LeftToRight(pieces, pat)
    decreases |s|
  {
    var r := FirstIn(s, pat);
    if r.Npos? {
      pieces := [s];
    } else {
      FirstInIsFirst(s, pat, 0);
      var rest := CanBeCut(s[r.i + |pat|..], pat);
      pieces := [s[..r.i]] + rest;
      assert pieces[1..] == rest;
      CutAt(s, pat, r.i);
      forall k | 0 <= k < |pieces| - 1 ensures FirstIn(Join(pieces[k..], pat), pat) == Pos(|pieces[k]|) {
        if k > 0 { assert pieces[k..] == rest[k - 1..]; } else { assert pieces[0..] == pieces; }
      }
    }
  }

  /** Replacing the pattern by itself gives the string back. */
  lemma {:induction false} ReplacedByItself(s: string, pat: string)
    requires |pat| > 0
    ensures Replaced(s, pat, pat) == s
    decreases |s|
  {
    if pat <= s {
      ReplacedByItself(s[|pat|..], pat);
    } else if s == "" {
    } else {
      ReplacedByItself(s[1..], pat);
    }
  }

  lemma OneTimesMore(n: int, d: int)
    ensures (1 + n) * d == d + n * d
  {
  }

  /** The length changes by the number of replacements times the difference of the lengths. */
  lemma {:induction false} ReplacedLength(s: string, pat: string, rep: string)
    requires |pat| > 0
    ensures |Replaced(s, pat, rep)| == |s| + Replacements(s, pat) * (|rep| - |pat|)
    decreases |s|
  {
    if pat <= s {
      ReplacedLength(s[|pat|..], pat, rep);
      OneTimesMore(Replacements(s[|pat|..], pat), |rep| - |pat|);
    } else if s == "" {
    } else {
      ReplacedLength(s[1..], pat, rep);
    }
  }

  lemma OccursIfFound(s: string, pat: string)
    ensures Occurs(s, pat) <==> FirstIn(s, pat).Pos?
  {
    FirstInIsFirst(s, pat, 0);
    if Occurs(s, pat) {
      var j: nat :| OccursAt(s, pat, j);
      FirstInIsFirst(s, pat, j);
    }
  }

  lemma OccursIfCounted(s: string, pat: string)
    requires |pat| > 0
    ensures Occurs(s, pat) <==> Replacements(s, pat) > 0
  {
    OccursIfFound(s, pat);
    CountAtFirst(s, pat);
  }

  lemma {:induction false} NothingCounted(s: string, pat: string, rep: string)
    requires |pat| > 0 && Replacements(s, pat) == 0
    ensures Replaced(s, pat, rep) == s
    decreases |s|
  {
    if s == "" {
    } else {
      NothingCounted(s[1..], pat, rep);
    }
  }

  lemma Shrinks(n: nat, d: nat)
    requires n > 0 && d > 0
    ensures n * (0 - d) < 0
  {
  }

  /** Removing the pattern changes nothing exactly if it does not occur. */
  lemma RemovalChangesNothing(s: string, pat: string)
    requires |pat| > 0
    ensures Replaced(s, pat, "") == s <==> !Occurs(s, pat)
  {
    OccursIfCounted(s, pat);
    if Replacements(s, pat) == 0 {
      NothingCounted(s, pat, "");
    } else {
      ReplacedLength(s, pat, "");
      Shrinks(Replacements(s, pat), |pat|);
    }
  }

  /** Removing the pattern from a string that starts with it drops that start and goes on. */
  lemma RemovePrefix(pat: string, rest: string)
    requires |pat| > 0
    ensures Replaced(pat + rest, pat, "") == Replaced(rest, pat, "")
  {
    assert (pat + rest)[|pat|..] == rest;
  }

  /** n copies of pat. */
  function Copies(pat: string, n: nat): string {
    if n == 0 then "" else pat + Copies(pat, n - 1)
  }

  ghost predicate IsCopies(s: string, pat: string) {
    exists n: nat :: s == Copies(pat, n)
  }

  lemma {:induction false} CopiesVanish(pat: string, n: nat)
    requires |pat| > 0
    ensures Replaced(Copies(pat, n), pat, "") == ""
    decreases n
  {
    if n == 0 {
    } else {
      CopiesVanish(pat, n - 1);
      RemovePrefix(pat, Copies(pat, n - 1));
    }
  }

  lemma {:induction false} VanishedWasCopies(s: string, pat: string)
    requires |pat| > 0 && Replaced(s, pat, "") == ""
    ensures s == Copies(pat, Replacements(s, pat))
    decreases |s|
  {
    if s == "" {
    } else {
      VanishedWasCopies(s[|pat|..], pat);
      assert s == pat + s[|pat|..];
    }
  }

  /** Removing the pattern leaves nothing exactly of a row of copies of it. */
  lemma RemovalLeavesNothing(s: string, pat: string)
    requires |pat| > 0
    ensures Replaced(s, pat, "") == "" <==> IsCopies(s, pat)
  {
    if Replaced(s, pat, "") == "" {
      VanishedWasCopies(s, pat);
    }
    if n: nat :| s == Copies(pat, n) {
      CopiesVanish(pat, n);
    }
  }

  // ---- The empty pattern ----

  /** The loop's variables after n turns, unless it has ended. */
  function Turns(data: string, pat: string, rep: string, pos: Found, n: nat): (string, Found)
    requires pos.Pos? ==> pos.i + |pat| <= |data|
    decreases n
  {
    if n == 0 || pos.Npos? then (data, pos)
    else
      var data' := ReplaceAt(data, pos.i, pat, rep);
      Turns(data', pat, rep, Find(data', pat, pos.i + |rep|), n - 1)
  }

  /** With an empty pattern the loop never ends: after any number of turns there is a next one. */
  lemma {:induction false} EmptyPatternRunsForever(data: string, rep: string, pos: nat, n: nat)
    requires pos <= |data|
    ensures Turns(data, "", rep, Pos(pos), n).1.Pos?
    decreases n
  {
    if n == 0 {
    } else {
      var data' := ReplaceAt(data, pos, "", rep);
      assert Find(data', "", pos + |rep|) == Pos(pos + |rep|);
      EmptyPatternRunsForever(data', rep, pos + |rep|, n - 1);
    }
  }
}
