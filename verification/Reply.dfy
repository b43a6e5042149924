/** The replies to get and put: printed by the server (cmd_get, cmd_put), parsed by the client's
    check_response. */
module ReplyText {
  import opened Numbers
  import opened Tokens
  import opened FtpState

  function Digit(d: nat): char
    requires d < 10
  {
    "0123456789"[d]
  }

  predicate IsDigit(c: char) {
    '0' <= c <= '9'
  }

  /** The printf conversions %d and %zu. */
  function Dec(n: nat): (s: string)
    ensures |s| > 0 && forall i :: 0 <= i < |s| ==> IsDigit(s[i])
  {
    if n < 10 then [Digit(n)] else Dec(n / 10) + [Digit(n % 10)]
  }

  function PrintInt(x: int): string {
    if x < 0 then "-" + Dec(-x) else Dec(x)
  }

  predicate IsSpace(c: char) {
    c == ' ' || ('\t' <= c <= '\r')
  }

  /** The digits at the beginning of s, read behind those that made acc. */
  function ReadDigits(s: string, acc: nat): nat {
    if s == "" || !IsDigit(s[0]) then acc
    else ReadDigits(s[1..], 10 * acc + (s[0] as int - '0' as int))
  }

  /** atoi: white space, a sign, digits; undefined (None) if the value is no int. */
  function Atoi(s: string): Option<int> {
    if s != "" && IsSpace(s[0]) then Atoi(s[1..])
    else
      var negative := s != "" && s[0] == '-';
      var digits := if s != "" && (s[0] == '-' || s[0] == '+') then s[1..] else s;
      var v := if negative then -(ReadDigits(digits, 0) as int) else ReadDigits(digits, 0);
      if IsInt(v) then Some(v) else None
  }

  function Pow10(k: nat): (p: nat)
    ensures p > 0
  {
    if k == 0 then 1 else 10 * Pow10(k - 1)
  }

  lemma {:induction false} ReadAppended(s: string, t: string, acc: nat)
    requires forall i :: 0 <= i < |s| ==> IsDigit(s[i])
    ensures ReadDigits(s + t, acc) == ReadDigits(t, ReadDigits(s, acc))
    decreases |s|
  {
    if s == "" {
      assert s + t == t;
    } else {
      assert (s + t)[1..] == s[1..] + t;
      ReadAppended(s[1..], t, 10 * acc + (s[0] as int - '0' as int));
    }
  }

  lemma {:induction false} ReadDec(n: nat)
    ensures ReadDigits(Dec(n), 0) == n
    decreases n
  {
    if n < 10 {
    } else {
      ReadDec(n / 10);
      ReadAppended(Dec(n / 10), [Digit(n % 10)], 0);
    }
  }

  /** atoi skips white space and a plus sign, and stops at the first character that is no digit. */
  lemma AtoiReads(c: char, s: string, n: nat, tail: string)
    requires n <= INT_MAX && (tail == "" || !IsDigit(tail[0]))
    ensures IsSpace(c) ==> Atoi([c] + s) == Atoi(s)
    ensures Atoi(Dec(n) + tail) == Some(n as int) && Atoi("+" + Dec(n)) == Some(n as int)
    ensures Atoi("-" + Dec(n) + tail) == Some(-(n as int))
    ensures tail == "" || (!IsSpace(tail[0]) && tail[0] != '-' && tail[0] != '+') ==> Atoi(tail) == Some(0)
  {
    if IsSpace(c) { assert ([c] + s)[1..] == s; }
    ReadDec(n);
    ReadAppended(Dec(n), tail, 0);
    assert ("+" + Dec(n))[1..] == Dec(n);
    assert ("-" + Dec(n) + tail)[1..] == Dec(n) + tail;
  }

  /** atoi recovers exactly the printed numbers that are an int. */
  lemma AtoiPrinted(x: int)
    ensures Atoi(PrintInt(x)) == if IsInt(x) then Some(x) else None
  {
    if x < 0 {
      ReadDec(-x);
      assert PrintInt(x)[1..] == Dec(-x);
    } else {
      ReadDec(x);
    }
  }

  lemma {:induction false} DecShort(n: nat, k: nat)
    requires n < Pow10(k) && k > 0
    ensures |Dec(n)| <= k
    decreases k
  {
    if n < 10 {
    } else {
      assert n / 10 < Pow10(k - 1);
      DecShort(n / 10, k - 1);
    }
  }

  lemma TenDigits()
    ensures Pow10(10) == 10_000_000_000
  {
    assert Pow10(5) == 100_000;
    assert Pow10(9) == 10 * Pow10(8) && Pow10(8) == 10 * Pow10(7);
  }

  // ---- The two replies ----

  function GetReply(port: int, size: nat): string {
    "get port:  " + PrintInt(port) + " size:  " + Dec(size)
  }

  function PutReply(port: int): string {
    "put port:    " + PrintInt(port)
  }

  lemma NumberIsWord(x: int)
    requires IsInt(x)
    ensures IsWord(PrintInt(x)) && |PrintInt(x)| <= 11
  {
    TenDigits();
    DecShort(if x < 0 then -x else x, 10);
  }

  /** One word of a layout. */
  lemma LayoutFrom(words: seq<string>, gaps: seq<nat>, i: nat)
    requires |gaps| == |words| + 1 && i < |words|
    ensures Layout(words[i..], gaps[i..]) == Spaces(gaps[i]) + words[i] + Layout(words[i + 1..], gaps[i + 1..])
  {
    assert words[i..][1..] == words[i + 1..] && gaps[i..][1..] == gaps[i + 1..];
  }

  lemma SpacesUpToFour()
    ensures Spaces(0) == "" && Spaces(1) == " " && Spaces(2) == "  " && Spaces(4) == "    "
  {
    assert Spaces(3) == "   ";
  }

  /** The layout of a get reply from its third word on. */
  lemma SizePart(words: seq<string>, gaps: seq<nat>)
    requires |words| == 5 && words[3] == "size:" && gaps == [0, 1, 2, 1, 2, 0]
    ensures Layout(words[2..], gaps[2..]) == "  " + (words[2] + " size:  " + words[4])
  {
    SpacesUpToFour();
    LayoutFrom(words, gaps, 4);
    assert Layout(words[4..], gaps[4..]) == "  " + words[4];
    LayoutFrom(words, gaps, 3);
    assert Layout(words[3..], gaps[3..]) == " size:  " + words[4];
    LayoutFrom(words, gaps, 2);
  }

  /** The first two words of a reply. */
  lemma PortPart(words: seq<string>, gaps: seq<nat>, tail: string)
    requires |gaps| == |words| + 1 && |words| >= 3 && |words[0]| == 3 && words[1] == "port:"
    requires gaps[0] == 0 && gaps[1] == 1
    requires Layout(words[2..], gaps[2..]) == tail
    ensures Layout(words, gaps) == words[0] + " port:" + tail
  {
    SpacesUpToFour();
    LayoutFrom(words, gaps, 1);
    assert Layout(words[1..], gaps[1..]) == " port:" + tail;
    LayoutFrom(words, gaps, 0);
    assert words[0..] == words && gaps[0..] == gaps;
  }

  lemma RegroupReply(a: string, b: string)
    ensures "get" + " port:" + ("  " + (a + " size:  " + b)) == "get port:  " + a + " size:  " + b
    ensures "put" + " port:" + ("    " + a) == "put port:    " + a
  {
    assert "get" + " port:" + "  " == "get port:  ";
    assert "put" + " port:" + "    " == "put port:    ";
  }

  lemma GetReplyWords(port: int, size: nat)
    requires IsInt(port) && size <= INT_MAX
    ensures Words(GetReply(port, size)) == ["get", "port:", PrintInt(port), "size:", PrintInt(size)]
  {
    var words := ["get", "port:", PrintInt(port), "size:", PrintInt(size)];
    var gaps := [0, 1, 2, 1, 2, 0];
    NumberIsWord(port);
    NumberIsWord(size);
    assert forall i :: 0 <= i < |words| ==> IsWord(words[i]);
    WordsOfLayout(words, gaps);
    SizePart(words, gaps);
    PortPart(words, gaps, "  " + (words[2] + " size:  " + words[4]));
    RegroupReply(words[2], words[4]);
  }

  lemma PutReplyWords(port: int)
    requires IsInt(port)
    ensures Words(PutReply(port)) == ["put", "port:", PrintInt(port)]
  {
    var words := ["put", "port:", PrintInt(port)];
    var gaps := [0, 1, 4, 0];
    NumberIsWord(port);
    WordsOfLayout(words, gaps);
    SpacesUpToFour();
    LayoutFrom(words, gaps, 2);
    assert Layout(words[2..], gaps[2..]) == "    " + PrintInt(port);
    PortPart(words, gaps, "    " + PrintInt(port));
    RegroupReply(words[2], "");
  }

  // ---- check_response ----

  /** The fields of the client's transfer data that check_response touches. */
  class ClientFtp {
    var portOpen: bool
    var ftpPort: int
    var fileSizeRecv: nat
    var sending: bool
    var receiving: bool

    constructor ()
      ensures !portOpen && !sending && !receiving && ftpPort == -1 && fileSizeRecv == 0
    {
      portOpen, sending, receiving, ftpPort, fileSizeRecv := false, false, false, -1, 0;
    }

    /** Parses a reply of the server: spawn is the direction of the worker thread it starts.
        wild is what atoi delivers where it is undefined. */
    method CheckResponse(response: string, wild: int) returns (numTokens: int, spawn: Option<Dir>)
      requires |response| < MAX_INPUT_SIZE
      modifies this
      ensures portOpen == old(portOpen)
      ensures var w := Capped(Words(response));
              if AllShort(w) && |w| > 2 && Strip(w[0]) == "put" then
                && spawn == Some(Send) && sending && receiving == old(receiving) && fileSizeRecv == old(fileSizeRecv)
                && ftpPort == if portOpen then old(ftpPort) else Atoi(Strip(w[2])).Or(wild)
              else if AllShort(w) && |w| > 4 && Strip(w[0]) == "get" then
                && spawn == Some(Recv) && receiving && sending == old(sending)
                && fileSizeRecv == ToSize(Atoi(Strip(w[4])).Or(wild))
                && ftpPort == if portOpen then old(ftpPort) else Atoi(Strip(w[2])).Or(wild)
              else spawn == None && unchanged(this)
      ensures AllShort(Capped(Words(response))) ==> numTokens == |Capped(Words(response))|
    {
      var splitted := new string[MAX_TOKENS](i => "");
      numTokens := TokenizeCmd(response, splitted);
      spawn := None;
      if numTokens > 1 {
        assert numTokens == |Capped(Words(response))|;
        if splitted[0] == "put" {
          if numTokens > 2 {
            if !portOpen {
              ftpPort := Atoi(splitted[2]).Or(wild);
            }
            sending := true;
            spawn := Some(Send);
          }
        }
        if splitted[0] == "get" {
          if numTokens > 4 {
            if !portOpen {
              ftpPort := Atoi(splitted[2]).Or(wild);
            }
            fileSizeRecv := ToSize(Atoi(splitted[4]).Or(wild));
            receiving := true;
            spawn := Some(Recv);
          }
        }
      }
    }
  }

  lemma StripNumber(x: int)
    requires IsInt(x)
    ensures Strip(PrintInt(x)) == PrintInt(x)
  {
  }

  /** Round trip: whatever port and size (up to 2^31 - 1) the server prints, the client's tokens 2 and
      4 parse back to exactly these numbers. */
  lemma GetReplyRoundTrip(port: int, size: nat)
    requires IsInt(port) && size <= INT_MAX
    ensures var w := Capped(Words(GetReply(port, size)));
            && AllShort(w) && |w| == 5 && Strip(w[0]) == "get"
            && Atoi(Strip(w[2])) == Some(port) && Atoi(Strip(w[4])) == Some(size as int)
  {
    GetReplyWords(port, size);
    NumberIsWord(port); NumberIsWord(size);
    StripNumber(port); StripNumber(size);
    AtoiPrinted(port); AtoiPrinted(size);
  }

  lemma PutReplyRoundTrip(port: int)
    requires IsInt(port)
    ensures var w := Capped(Words(PutReply(port)));
            AllShort(w) && |w| == 3 && Strip(w[0]) == "put" && Atoi(Strip(w[2])) == Some(port)
  {
    PutReplyWords(port);
    NumberIsWord(port);
    StripNumber(port);
    AtoiPrinted(port);
  }

  lemma GetReplyLength(port: int, size: nat)
    requires IsInt(port) && size <= INT_MAX
    ensures |GetReply(port, size)| < MAX_INPUT_SIZE
  {
    NumberIsWord(port); NumberIsWord(size);
  }

  /** The whole exchange on a fresh client: the server's reply sets the announced port and size and
      starts the receiving worker. */
  method ReceiveGetReply(client: ClientFtp, port: int, size: nat, wild: int)
    requires !client.portOpen && IsInt(port) && size <= INT_MAX
    modifies client
    ensures client.ftpPort == port && client.fileSizeRecv == size && client.receiving
    ensures client.sending == old(client.sending)
  {
    GetReplyRoundTrip(port, size);
    GetReplyLength(port, size);
    ThroughSize(size);
    var n, spawn := client.CheckResponse(GetReply(port, size), wild);
  }
}
