/**
 Mail over SMTP (`smtp.ts`): the data of a message as a receiver reads it back (section 4.5.2 of RFC 5321), and
 replies read from a socket whose text arrives in chunks (section 4.2 of RFC 5321). Text is decoded already.
 */
module Smtp {
  import opened Wrappers

  const CRLF: string := "\r\n"

  // ----- lines ---------------------------------------------------------------------------

  predicate BreakAt(s: string, i: nat) {
    i + 2 <= |s| && s[i] == '\r' && s[i + 1] == '\n'
  }

  /** Where the first line ends, or the length of a text without one: `indexOf("\r\n")`. */
  function LineEnd(s: string): (i: nat)
    ensures i <= |s| && (i < |s| ==> BreakAt(s, i))
    ensures forall j :: 0 <= j < i ==> !BreakAt(s, j)
  {
    if s == "" || BreakAt(s, 0) then 0 else
    var i := LineEnd(s[1..]);
    assert forall j :: 1 <= j <= i ==> BreakAt(s, j) == BreakAt(s[1..], j - 1);
    i + 1
  }

  function TakeLine(s: string): (r: Option<(string, string)>)
    ensures r.Some? ==> |r.value.1| < |s| && s == r.value.0 + CRLF + r.value.1
  {
    var i := LineEnd(s);
    if i == |s| then None else Some((s[..i], s[i + 2..]))
  }

  /** Lines, each ended by CRLF. */
  function Lines(lines: seq<string>): string {
    if lines == [] then "" else lines[0] + CRLF + Lines(lines[1..])
  }

  predicate OneLine(line: string) {
    forall i :: 0 <= i < |line| ==> line[i] != '\r' && line[i] != '\n'
  }

  predicate AllOneLine(lines: seq<string>) {
    forall i :: 0 <= i < |lines| ==> OneLine(lines[i])
  }

  lemma TakeFirst(line: string, rest: string)
    requires OneLine(line)
    ensures TakeLine(line + CRLF + rest) == Some((line, rest))
  {
    var s := line + CRLF + rest;
    assert BreakAt(s, |line|);
    forall j | 0 <= j < |line|
      ensures !BreakAt(s, j)
    {
      assert s[j] == line[j];
    }
    var i := LineEnd(s);
    assert i == |line|;
    assert s[..i] == line && s[i + 2..] == rest;
  }

  // ----- the data of a message ------------------------------------------------------------------

  /** `replace(/\r\n|\r|\n/g, "\r\n")`. */
  function Normalised(s: string): string {
    if s == "" then ""
    else if |s| >= 2 && s[..2] == CRLF then CRLF + Normalised(s[2..])
    else if s[0] == '\r' || s[0] == '\n' then CRLF + Normalised(s[1..])
    else [s[0]] + Normalised(s[1..])
  }

  /** What `^` with the multiline flag takes for the end of a line. */
  predicate LineTerminator(c: char) {
    c == '\r' || c == '\n' || c == '\U{2028}' || c == '\U{2029}'
  }

  /** `replace(/^\./gm, "..")`; `start` tells whether the text begins at the start of a line. */
  function Stuffed(s: string, start: bool): string {
    if s == "" then ""
    else if start && s[0] == '.' then ".." + Stuffed(s[1..], false)
    else [s[0]] + Stuffed(s[1..], LineTerminator(s[0]))
  }

  /** `smtpData`: the header lines, an empty line, the text, and the end of the data. */
  function Data(headers: seq<string>, text: string): string {
    Lines(headers) + CRLF + Stuffed(Normalised(text), true) + CRLF + "." + CRLF
  }

  /** The receiver: lines up to the one that is a dot, without the dot a line begins with. */
  function Received(data: string): Option<(seq<string>, string)>
    decreases |data|
  {
    match TakeLine(data)
    case None => None
    case Some((line, rest)) =>
      if line == "." then Some(([], rest))
      else
        match Received(rest)
        case None => None
        case Some((lines, after)) => Some(([Unstuffed(line)] + lines, after))
  }

  function Unstuffed(line: string): string {
    if line != "" && line[0] == '.' then line[1..] else line
  }

  /** The lines of a text, whatever ends them. */
  function Split(s: string): (lines: seq<string>)
    ensures lines != []
    ensures AllOneLine(lines)
  {
    if s == "" then [""]
    else if |s| >= 2 && s[..2] == CRLF then [""] + Split(s[2..])
    else if s[0] == '\r' || s[0] == '\n' then [""] + Split(s[1..])
    else
      var rest := Split(s[1..]);
      [[s[0]] + rest[0]] + rest[1..]
  }

  lemma {:induction false} NormalisedIsLines(s: string)
    ensures Normalised(s) + CRLF == Lines(Split(s))
  {
    hide OneLine, AllOneLine;
    if s == "" {
      assert Lines([""]) == "" + CRLF + Lines([]);
    } else if |s| >= 2 && s[..2] == CRLF {
      NormalisedIsLines(s[2..]);
      assert ([""] + Split(s[2..]))[1..] == Split(s[2..]);
      assert CRLF + Normalised(s[2..]) + CRLF == "" + CRLF + (Normalised(s[2..]) + CRLF);
    } else if s[0] == '\r' || s[0] == '\n' {
      NormalisedIsLines(s[1..]);
      assert ([""] + Split(s[1..]))[1..] == Split(s[1..]);
      assert CRLF + Normalised(s[1..]) + CRLF == "" + CRLF + (Normalised(s[1..]) + CRLF);
    } else {
      NormalisedIsLines(s[1..]);
      var rest := Split(s[1..]);
      assert ([[s[0]] + rest[0]] + rest[1..])[1..] == rest[1..];
      assert [s[0]] + Normalised(s[1..]) + CRLF == [s[0]] + (Normalised(s[1..]) + CRLF);
      assert [s[0]] + (rest[0] + CRLF + Lines(rest[1..])) == [s[0]] + rest[0] + CRLF + Lines(rest[1..]);
    }
  }

  function StuffedLines(lines: seq<string>): seq<string> {
    if lines == [] then [] else [Stuffed(lines[0], true)] + StuffedLines(lines[1..])
  }

  /** Within a line the pieces are stuffed one after the other. */
  lemma {:induction false} StuffedAppends(line: string, rest: string, start: bool)
    requires OneLine(line)
    ensures Stuffed(line + CRLF + rest, start) == Stuffed(line, start) + CRLF + Stuffed(rest, true)
  {
    var s := line + CRLF + rest;
    if line == "" {
      assert s == ['\r', '\n'] + rest && s[1..] == ['\n'] + rest && s[1..][1..] == rest;
      assert Stuffed(s, start) == ['\r'] + (['\n'] + Stuffed(rest, true));
      assert ['\r'] + (['\n'] + Stuffed(rest, true)) == "" + CRLF + Stuffed(rest, true);
    } else {
      assert s[0] == line[0] && s[1..] == line[1..] + CRLF + rest;
      var next := if start && line[0] == '.' then false else LineTerminator(line[0]);
      StuffedAppends(line[1..], rest, next);
      var first := if start && line[0] == '.' then ".." else [line[0]];
      assert first + (Stuffed(line[1..], next) + CRLF + Stuffed(rest, true))
        == first + Stuffed(line[1..], next) + CRLF + Stuffed(rest, true);
    }
  }

  lemma {:induction false} StuffedIsLines(lines: seq<string>)
    requires AllOneLine(lines)
    ensures Stuffed(Lines(lines), true) == Lines(StuffedLines(lines))
  {
    if lines != [] {
      StuffedAppends(lines[0], Lines(lines[1..]), true);
      StuffedIsLines(lines[1..]);
      assert ([Stuffed(lines[0], true)] + StuffedLines(lines[1..]))[1..] == StuffedLines(lines[1..]);
    }
  }

  lemma {:induction false} StuffedIsOneLine(s: string, start: bool)
    requires OneLine(s)
    ensures OneLine(Stuffed(s, start)) && (start ==> Stuffed(s, start) != ".")
    ensures s != "" ==> Stuffed(s, start) != ""
  {
    if s != "" {
      StuffedIsOneLine(s[1..], if start && s[0] == '.' then false else LineTerminator(s[0]));
      assert start && s[0] == '.' ==> |Stuffed(s, start)| >= 2;
      assert start && s[0] != '.' ==> Stuffed(s, start)[0] == s[0];
    }
  }

  /** A dot right after a separator of Unicode, which `^` takes for the start of a line and a receiver does not. */
  predicate DotAfterSeparator(line: string) {
    exists i :: 0 < i < |line| && line[i] == '.' && LineTerminator(line[i - 1])
  }

  lemma DotsShift(c: char, t: string)
    requires !(LineTerminator(c) && t != "" && t[0] == '.')
    ensures DotAfterSeparator([c] + t) <==> DotAfterSeparator(t)
  {
    var s := [c] + t;
    if DotAfterSeparator(s) {
      var i :| 0 < i < |s| && s[i] == '.' && LineTerminator(s[i - 1]);
      assert t[i - 1] == '.' && LineTerminator(t[i - 2]);
    }
    if DotAfterSeparator(t) {
      var i :| 0 < i < |t| && t[i] == '.' && LineTerminator(t[i - 1]);
      assert s[i + 1] == '.' && LineTerminator(s[i]);
    }
  }

  lemma {:induction false} UnstuffedIff(s: string, start: bool)
    requires OneLine(s)
    ensures |Stuffed(s, start)| >= |s|
    ensures Stuffed(s, start) == s <==> !DotAfterSeparator(s) && !(start && s != "" && s[0] == '.')
    ensures Stuffed(s, start) != s ==> |Stuffed(s, start)| > |s|
  {
    if s != "" {
      var next := if start && s[0] == '.' then false else LineTerminator(s[0]);
      var t := s[1..];
      UnstuffedIff(t, next);
      assert s == [s[0]] + t;
      assert ([s[0]] + Stuffed(t, next))[1..] == Stuffed(t, next);
      if LineTerminator(s[0]) && t != "" && t[0] == '.' {
        assert s[1] == '.' && LineTerminator(s[1 - 1]);
      } else {
        DotsShift(s[0], t);
      }
    }
  }

  /** A receiver gets a line back if and only if no dot follows a separator in it. */
  lemma LineRoundTripIff(line: string)
    requires OneLine(line)
    ensures Unstuffed(Stuffed(line, true)) == line <==> !DotAfterSeparator(line)
  {
    UnstuffedIff(line, true);
    if line != "" && line[0] == '.' {
      var t := line[1..];
      UnstuffedIff(t, false);
      assert line == ['.'] + t;
      DotsShift('.', t);
      hide DotAfterSeparator;
      assert Stuffed(line, true) == ['.', '.'] + Stuffed(t, false);
      assert Unstuffed(Stuffed(line, true)) == ['.'] + Stuffed(t, false);
      assert (['.'] + Stuffed(t, false))[1..] == Stuffed(t, false);
    } else if line != "" {
      hide DotAfterSeparator;
      assert Stuffed(line, true)[0] == line[0];
    }
  }

  /** What the receiver of `Data` is to get: the header lines, an empty line, the lines of the text. */
  function Sent(headers: seq<string>, text: string): seq<string> {
    headers + [""] + Split(text)
  }

  /** A header line as `requireAddress` and `requireSingleLine` let it through, after its name. */
  predicate Header(line: string) {
    OneLine(line) && line != "" && line[0] != '.'
  }

  lemma {:induction false} LinesAppend(a: seq<string>, b: seq<string>)
    ensures Lines(a + b) == Lines(a) + Lines(b)
  {
    if a == [] {
      assert a + b == b;
    } else {
      LinesAppend(a[1..], b);
      assert (a + b)[1..] == a[1..] + b;
      assert a[0] + CRLF + (Lines(a[1..]) + Lines(b)) == a[0] + CRLF + Lines(a[1..]) + Lines(b);
    }
  }

  /** The data of a message are the header lines, an empty one, the stuffed lines of the text, and a dot. */
  lemma DataIsLines(headers: seq<string>, text: string)
    ensures Data(headers, text) == Lines(headers + [""] + StuffedLines(Split(text)) + ["."])
  {
    hide Lines, Stuffed, Normalised, Split, StuffedLines;
    var body := StuffedLines(Split(text));
    NormalisedIsLines(text);
    StuffedIsLines(Split(text));
    StuffedEndsFrom(Normalised(text), true);
    LinesAppend(headers + [""] + body, ["."]);
    LinesAppend(headers + [""], body);
    LinesAppend(headers, [""]);
    OneLineLines("");
    OneLineLines(".");
    var h, b := Lines(headers), Stuffed(Normalised(text), true);
    assert h + ("" + CRLF) + (b + CRLF) + ("." + CRLF) == h + CRLF + b + CRLF + "." + CRLF;
  }

  lemma OneLineLines(line: string)
    ensures Lines([line]) == line + CRLF
  {
    assert [line][1..] == [];
    assert Lines([]) == "";
    assert line + CRLF + "" == line + CRLF;
  }

  /** A CRLF after a text has no dot to stuff. */
  lemma {:induction false} StuffedEndsFrom(s: string, start: bool)
    ensures Stuffed(s + CRLF, start) == Stuffed(s, start) + CRLF
  {
    if s == "" {
      assert s + CRLF == ['\r', '\n'];
      assert ['\r', '\n'][1..] == ['\n'] && ['\n'][1..] == "";
      assert Stuffed(['\n'], true) == ['\n'] + Stuffed("", true);
      assert Stuffed(['\r', '\n'], start) == ['\r'] + Stuffed(['\n'], true);
    } else {
      var next := if start && s[0] == '.' then false else LineTerminator(s[0]);
      StuffedEndsFrom(s[1..], next);
      assert (s + CRLF)[1..] == s[1..] + CRLF;
      var first := if start && s[0] == '.' then ".." else [s[0]];
      assert first + (Stuffed(s[1..], next) + CRLF) == first + Stuffed(s[1..], next) + CRLF;
    }
  }

  function UnstuffedAll(lines: seq<string>): seq<string> {
    if lines == [] then [] else [Unstuffed(lines[0])] + UnstuffedAll(lines[1..])
  }

  /** The receiver takes lines up to the first dot. */
  lemma {:induction false} ReceivedIs(lines: seq<string>, rest: string)
    requires AllOneLine(lines) && forall i :: 0 <= i < |lines| ==> lines[i] != "."
    ensures Received(Lines(lines + ["."]) + rest) == Some((UnstuffedAll(lines), rest))
  {
    if lines == [] {
      OneLineLines(".");
      assert lines + ["."] == ["."];
      TakeFirst(".", rest);
    } else {
      assert (lines + ["."])[1..] == lines[1..] + ["."];
      var after := Lines(lines[1..] + ["."]) + rest;
      assert lines[0] + CRLF + Lines(lines[1..] + ["."]) + rest == lines[0] + CRLF + after;
      TakeFirst(lines[0], after);
      ReceivedIs(lines[1..], rest);
    }
  }

  predicate NoDotAfterSeparator(lines: seq<string>) {
    forall i :: 0 <= i < |lines| ==> !DotAfterSeparator(lines[i])
  }

  lemma {:induction false} StuffedLinesRoundTrip(lines: seq<string>)
    requires AllOneLine(lines)
    ensures AllOneLine(StuffedLines(lines)) && |StuffedLines(lines)| == |lines|
    ensures forall i :: 0 <= i < |lines| ==> StuffedLines(lines)[i] != "."
    ensures UnstuffedAll(StuffedLines(lines)) == lines <==> NoDotAfterSeparator(lines)
  {
    if lines != [] {
      StuffedLinesRoundTrip(lines[1..]);
      StuffedIsOneLine(lines[0], true);
      LineRoundTripIff(lines[0]);
      var rest := StuffedLines(lines[1..]);
      assert StuffedLines(lines)[1..] == rest;
      assert lines == [lines[0]] + lines[1..];
      assert NoDotAfterSeparator(lines) <==> !DotAfterSeparator(lines[0]) && NoDotAfterSeparator(lines[1..]) by {
        assert forall i :: 1 <= i < |lines| ==> lines[i] == lines[1..][i - 1];
      }
      hide Stuffed, Unstuffed, DotAfterSeparator, NoDotAfterSeparator;
      assert UnstuffedAll(StuffedLines(lines)) == [Unstuffed(Stuffed(lines[0], true))] + UnstuffedAll(rest);
      assert ([Unstuffed(Stuffed(lines[0], true))] + UnstuffedAll(rest))[1..] == UnstuffedAll(rest);
    }
  }

  lemma {:induction false} UnstuffedAllAppends(a: seq<string>, b: seq<string>)
    ensures UnstuffedAll(a + b) == UnstuffedAll(a) + UnstuffedAll(b)
  {
    hide Unstuffed;
    if a == [] {
      assert a + b == b;
    } else {
      UnstuffedAllAppends(a[1..], b);
      assert (a + b)[1..] == a[1..] + b;
    }
  }

  lemma {:induction false} HeadersAreKept(headers: seq<string>)
    requires forall i :: 0 <= i < |headers| ==> Header(headers[i])
    ensures UnstuffedAll(headers) == headers
  {
    if headers != [] {
      HeadersAreKept(headers[1..]);
      assert headers == [headers[0]] + headers[1..];
    }
  }

  /**
   A receiver of the data of a message, whatever follows it, reads exactly to its end; and it gets the header
   lines, an empty line and the lines of the text back if and only if no line has a dot right after a separator.
   */
  lemma MessageRoundTripIff(headers: seq<string>, text: string, rest: string)
    requires forall i :: 0 <= i < |headers| ==> Header(headers[i])
    ensures var r := Received(Data(headers, text) + rest);
      && r.Some? && r.value.1 == rest && |r.value.0| == |Sent(headers, text)|
      && r.value.0[..|headers| + 1] == headers + [""]
      && (r.value.0 == Sent(headers, text) <==> NoDotAfterSeparator(Split(text)))
  {
    hide Received, Data, Lines, Stuffed, Split, StuffedLines, Unstuffed, NoDotAfterSeparator;
    var lines := Split(text);
    var body := StuffedLines(lines);
    var all := headers + [""] + body;
    DataIsLines(headers, text);
    StuffedLinesRoundTrip(lines);
    ReceivedIs(all, rest);
    UnstuffedAllAppends(headers + [""], body);
    UnstuffedAllAppends(headers, [""]);
    HeadersAreKept(headers);
    assert UnstuffedAll([""]) == [""] by { EmptyIsKept(); }
    UnstuffedAllLength(body);
    var got := UnstuffedAll(all);
    assert got == headers + [""] + UnstuffedAll(body);
    assert got[|headers| + 1..] == UnstuffedAll(body) && Sent(headers, text)[|headers| + 1..] == lines;
  }

  lemma EmptyIsKept()
    ensures UnstuffedAll([""]) == [""]
  {
    assert [""][1..] == [];
  }

  lemma {:induction false} UnstuffedAllLength(lines: seq<string>)
    ensures |UnstuffedAll(lines)| == |lines|
  {
    if lines != [] {
      UnstuffedAllLength(lines[1..]);
    }
  }

  // ----- replies read from a socket -----------------------------------------------------------------------

  function Joined(chunks: seq<string>): string {
    if chunks == [] then "" else chunks[0] + Joined(chunks[1..])
  }

  predicate Digit(c: char) { '0' <= c <= '9' }

  /** `^(\d{3})([ -])` at the start of a line: the code and whether more lines follow. */
  function Marked(line: string): Option<(string, bool)> {
    if |line| >= 4 && Digit(line[0]) && Digit(line[1]) && Digit(line[2]) && (line[3] == ' ' || line[3] == '-')
    then Some((line[..3], line[3] == '-')) else None
  }

  /** The first reply of a text after a line with the code `code`, if any yet: its lines, and the text after it. */
  function Reply(s: string, code: Option<string>): Option<(seq<string>, string)>
    decreases |s|
  {
    match TakeLine(s)
    case None => None
    case Some((line, rest)) =>
      var mark := Marked(line);
      var first := if code.None? && mark.Some? then Some(mark.value.0) else code;
      if mark.Some? && Some(mark.value.0) == first && !mark.value.1 then Some(([line], rest))
      else
        match Reply(rest, first)
        case None => None
        case Some((lines, after)) => Some(([line] + lines, after))
  }

  /** The connection: what has been read and not used, and the chunks the socket has still to give. */
  class SocketConnection {
    var buffer: string
    var pending: seq<string>

    constructor (chunks: seq<string>)
      ensures Text() == Joined(chunks)
    {
      buffer := "";
      pending := chunks;
    }

    /** All the text that is still to come. */
    ghost function Text(): string
      reads this
    {
      buffer + Joined(pending)
    }

    method ReadLine() returns (line: Option<string>)
      modifies this
      ensures match TakeLine(old(Text()))
              case None => line == None
              case Some((l, rest)) => line == Some(l) && Text() == rest
    {
      while true
        invariant Text() == old(Text())
        decreases |pending|
      {
        var separator := LineEnd(buffer);
        if separator < |buffer| {
          FirstLineStays(buffer, Joined(pending));
          line := Some(buffer[..separator]);
          buffer := buffer[separator + 2..];
          return;
        }
        if |pending| == 0 {
          assert buffer + "" == buffer;
          return None;
        }
        assert buffer + (pending[0] + Joined(pending[1..])) == (buffer + pending[0]) + Joined(pending[1..]);
        buffer, pending := buffer + pending[0], pending[1..];
      }
    }

    method Read() returns (reply: Option<seq<string>>)
      modifies this
      ensures match Reply(old(Text()), None)
              case None => reply == None
              case Some((lines, rest)) => reply == Some(lines) && Text() == rest
    {
      var lines: seq<string> := [];
      var code: Option<string> := None;
      NothingRead(Reply(Text(), None));
      while true
        invariant Extends(Reply(old(Text()), None), lines, Reply(Text(), code))
        decreases |Text()|
      {
        ghost var before, had := Text(), code;
        var line := ReadLine();
        if line.None? {
          return None;
        }
        ghost var so := lines;
        lines := lines + [line.value];
        var mark := Marked(line.value);
        if mark.Some? {
          if code.None? {
            code := Some(mark.value.0);
          }
          if code == Some(mark.value.0) && !mark.value.1 {
            return Some(lines);
          }
        }
        OneMoreLine(Reply(old(Text()), None), so, before, had);
      }
    }
  }

  /** The reply `whole` is the lines read so far and the reply `rest`; there is none if there is no `rest`. */
  predicate Extends(whole: Option<(seq<string>, string)>, lines: seq<string>, rest: Option<(seq<string>, string)>) {
    match rest
    case None => whole == None
    case Some((more, after)) => whole == Some((lines + more, after))
  }

  lemma OneMoreLine(whole: Option<(seq<string>, string)>, lines: seq<string>, s: string, code: Option<string>)
    requires Extends(whole, lines, Reply(s, code)) && TakeLine(s).Some?
    ensures var (line, rest) := TakeLine(s).value;
      var mark := Marked(line);
      var first := if code.None? && mark.Some? then Some(mark.value.0) else code;
      !(mark.Some? && Some(mark.value.0) == first && !mark.value.1) ==> Extends(whole, lines + [line], Reply(rest, first))
  {
    var (line, rest) := TakeLine(s).value;
    forall more: seq<string>
      ensures lines + ([line] + more) == lines + [line] + more
    {
    }
  }

  lemma LineEndIs(s: string, i: nat)
    requires BreakAt(s, i) && forall j :: 0 <= j < i ==> !BreakAt(s, j)
    ensures LineEnd(s) == i
  {
    hide LineEnd;
  }

  lemma NothingRead(whole: Option<(seq<string>, string)>)
    ensures Extends(whole, [], whole)
  {
    forall more: seq<string>
      ensures [] + more == more
    {
    }
  }

  /** More text does not move the end of a line that is already there. */
  lemma FirstLineStays(s: string, more: string)
    requires LineEnd(s) < |s|
    ensures TakeLine(s + more) == Some((s[..LineEnd(s)], s[LineEnd(s) + 2..] + more))
  {
    hide LineEnd, TakeLine, BreakAt;
    var i, t := LineEnd(s), s + more;
    BreaksStay(s, more, i);
    LineEndIs(t, i);
    LineTaken(t);
    BreakFits(s, i);
    assert t[..i] == s[..i];
    assert t[i + 2..] == s[i + 2..] + more;
  }

  lemma BreakFits(s: string, i: nat)
    requires BreakAt(s, i)
    ensures i + 2 <= |s|
  {
  }

  lemma LineTaken(s: string)
    requires LineEnd(s) < |s|
    ensures TakeLine(s) == Some((s[..LineEnd(s)], s[LineEnd(s) + 2..]))
  {
  }

  lemma BreaksStay(s: string, more: string, i: nat)
    requires BreakAt(s, i) && forall j :: 0 <= j < i ==> !BreakAt(s, j)
    ensures BreakAt(s + more, i) && forall j :: 0 <= j < i ==> !BreakAt(s + more, j)
  {
    forall j | 0 <= j < i
      ensures !BreakAt(s + more, j)
    {
      assert !BreakAt(s, j);
    }
  }

  /** All the replies of a text. */
  function Replies(s: string): seq<seq<string>>
    decreases |s|
  {
    match Reply(s, None)
    case None => []
    case Some((lines, rest)) => ReplyShrinks(s, None); [lines] + Replies(rest)
  }

  lemma {:induction false} ReplyShrinks(s: string, code: Option<string>)
    ensures Reply(s, code).Some? ==> |Reply(s, code).value.1| < |s|
    decreases |s|
  {
    if TakeLine(s).Some? {
      var (line, rest) := TakeLine(s).value;
      var mark := Marked(line);
      ReplyShrinks(rest, if code.None? && mark.Some? then Some(mark.value.0) else code);
    }
  }

  /** What a reply is: it ends at the first line with its code and a space, its code being that of its first mark. */
  predicate IsReply(lines: seq<string>, code: Option<string>) {
    lines != [] &&
    var mark := Marked(lines[0]);
    var first := if code.None? && mark.Some? then Some(mark.value.0) else code;
    var ends := mark.Some? && Some(mark.value.0) == first && !mark.value.1;
    if |lines| == 1 then ends else !ends && IsReply(lines[1..], first)
  }

  /** Replies written one after the other are read one after the other, however the text is cut into chunks. */
  lemma {:induction false} ReplyIsRead(lines: seq<string>, rest: string, code: Option<string>)
    requires AllOneLine(lines) && IsReply(lines, code)
    ensures Reply(Lines(lines) + rest, code) == Some((lines, rest))
    decreases |lines|
  {
    hide TakeLine, Marked;
    var after := Lines(lines[1..]) + rest;
    assert lines[0] + CRLF + Lines(lines[1..]) + rest == lines[0] + CRLF + after;
    TakeFirst(lines[0], after);
    if |lines| == 1 {
      assert lines[1..] == [] && Lines([]) + rest == rest;
      assert [lines[0]] == lines;
    } else {
      var mark := Marked(lines[0]);
      ReplyIsRead(lines[1..], rest, if code.None? && mark.Some? then Some(mark.value.0) else code);
      assert [lines[0]] + lines[1..] == lines;
    }
  }

  function AllLines(replies: seq<seq<string>>): string {
    if replies == [] then "" else Lines(replies[0]) + AllLines(replies[1..])
  }

  lemma {:induction false} RepliesAreRead(replies: seq<seq<string>>)
    requires forall i :: 0 <= i < |replies| ==> AllOneLine(replies[i]) && IsReply(replies[i], None)
    ensures Replies(AllLines(replies)) == replies
  {
    if replies == [] {
      assert LineEnd("") == 0;
    } else {
      ReplyIsRead(replies[0], AllLines(replies[1..]), None);
      RepliesAreRead(replies[1..]);
      assert [replies[0]] + replies[1..] == replies;
    }
  }

  // ----- replies as a server writes them: section 4.2 of RFC 5321 -----------------------------------------

  const NUMERALS := "0123456789"

  /** The three digits of a reply code. */
  function CodeText(code: nat): (s: string)
    requires code < 1000
    ensures |s| == 3
  {
    [NUMERALS[code / 100], NUMERALS[code / 10 % 10], NUMERALS[code % 10]]
  }

  /** Every line has the code; a hyphen follows it on all but the last, and a space there. */
  function ServerReply(code: nat, texts: seq<string>): seq<string>
    requires code < 1000
  {
    if texts == [] then []
    else [CodeText(code) + (if |texts| == 1 then " " else "-") + texts[0]] + ServerReply(code, texts[1..])
  }

  lemma NumeralIsDigit(d: nat)
    requires d < 10
    ensures Digit(NUMERALS[d])
  {
  }

  lemma CodeIsMarked(code: nat, more: bool, text: string)
    requires code < 1000
    ensures Marked(CodeText(code) + (if more then "-" else " ") + text) == Some((CodeText(code), more))
  {
    NumeralIsDigit(code / 100);
    NumeralIsDigit(code / 10 % 10);
    NumeralIsDigit(code % 10);
    hide Digit;
    var line := CodeText(code) + (if more then "-" else " ") + text;
    assert line[..3] == CodeText(code);
  }

  lemma {:induction false} ServerReplyIsReply(code: nat, texts: seq<string>, had: Option<string>)
    requires code < 1000 && texts != [] && (had.None? || had == Some(CodeText(code)))
    ensures IsReply(ServerReply(code, texts), had)
    decreases |texts|
  {
    hide Marked, CodeText;
    CodeIsMarked(code, |texts| > 1, texts[0]);
    if |texts| > 1 {
      ServerReplyIsReply(code, texts[1..], Some(CodeText(code)));
      assert ServerReply(code, texts)[1..] == ServerReply(code, texts[1..]);
      assert ServerReply(code, texts[1..]) != [];
    } else {
      assert ServerReply(code, texts[1..]) == [];
    }
  }

  lemma CodedIsOneLine(code: nat, more: bool, text: string)
    requires code < 1000 && OneLine(text)
    ensures OneLine(CodeText(code) + (if more then "-" else " ") + text)
  {
    NumeralIsDigit(code / 100);
    NumeralIsDigit(code / 10 % 10);
    NumeralIsDigit(code % 10);
  }

  lemma {:induction false} ServerReplyIsLines(code: nat, texts: seq<string>)
    requires code < 1000 && AllOneLine(texts)
    ensures AllOneLine(ServerReply(code, texts)) && |ServerReply(code, texts)| == |texts|
    decreases |texts|
  {
    hide OneLine, CodeText;
    if texts != [] {
      assert OneLine(texts[0]);
      CodedIsOneLine(code, |texts| > 1, texts[0]);
      ServerReplyIsLines(code, texts[1..]);
    }
  }

  /** What a server writes for a code and its lines of text is read as one reply, whatever it writes next. */
  lemma ServerReplyIsRead(code: nat, texts: seq<string>, rest: string)
    requires code < 1000 && texts != [] && AllOneLine(texts)
    ensures Reply(Lines(ServerReply(code, texts)) + rest, None) == Some((ServerReply(code, texts), rest))
  {
    hide Reply, Lines, ServerReply, IsReply, CodeText;
    ServerReplyIsReply(code, texts, None);
    ServerReplyIsLines(code, texts);
    ReplyIsRead(ServerReply(code, texts), rest, None);
  }

  lemma DigitIsNumeral(c: char) returns (d: nat)
    requires Digit(c)
    ensures d < 10 && NUMERALS[d] == c
  {
    d := (c - '0') as nat;
  }

  lemma DigitsOf(a: nat, b: nat, c: nat)
    requires a < 10 && b < 10 && c < 10
    ensures var code := a * 100 + b * 10 + c;
      code < 1000 && code / 100 == a && code / 10 % 10 == b && code % 10 == c
  {
    assert (a * 100 + b * 10 + c) / 10 == a * 10 + b;
  }

  lemma CodeOf(a: nat, b: nat, c: nat, code: nat)
    requires a < 10 && b < 10 && c < 10 && code < 1000
    requires code / 100 == a && code / 10 % 10 == b && code % 10 == c
    ensures CodeText(code) == [NUMERALS[a], NUMERALS[b], NUMERALS[c]]
  {
  }

  /** The line is the code, a hyphen when more lines follow or else a space, and the text. */
  predicate CodedLine(line: string, code: nat, more: bool, text: string) {
    code < 1000 && line == CodeText(code) + (if more then "-" else " ") + text
  }

  /** A line is marked exactly when it begins with a three-digit code and a space or a hyphen. */
  lemma MarkedIff(line: string, mark: string, more: bool)
    ensures Marked(line) == Some((mark, more)) <==>
      exists code: nat, text: string :: CodedLine(line, code, more, text) && mark == CodeText(code)
  {
    if Marked(line) == Some((mark, more)) {
      var a := DigitIsNumeral(line[0]);
      var b := DigitIsNumeral(line[1]);
      var c := DigitIsNumeral(line[2]);
      var code := a * 100 + b * 10 + c;
      DigitsOf(a, b, c);
      CodeOf(a, b, c, code);
      hide CodeText;
      assert line[..3] == CodeText(code);
      assert CodedLine(line, code, more, line[4..]);
    }
    forall code: nat, text: string | CodedLine(line, code, more, text) && mark == CodeText(code)
      ensures Marked(line) == Some((mark, more))
    {
      CodeIsMarked(code, more, text);
    }
  }
}
