/** Dot-stuffed blocks, as in section 4.5.2 of RFC 5321 and section 3.1.1 of RFC 3977. */
module Framing {
  import opened Text
  import opened Messages
  import opened Lines

  const TERMINATOR := "."

  function StuffLine(line: string): string
  {
    if line != [] && line[0] == '.' then ['.'] + line else line
  }

  /** Strips one leading dot from any line that begins with one. */
  function UnstuffLine(line: string): string
  {
    if line != [] && line[0] == '.' then line[1..] else line
  }

  function UnstuffAll(raw: seq<string>): seq<string>
  {
    if raw == [] then [] else UnstuffAll(raw[..|raw| - 1]) + [UnstuffLine(raw[|raw| - 1])]
  }

  lemma AppendRaw(raw: seq<string>, line: string, more: Option<(seq<string>, string)>)
    ensures UnstuffAll(raw + [line]) == UnstuffAll(raw) + [UnstuffLine(line)]
    ensures BodySize(UnstuffAll(raw + [line])) == BodySize(UnstuffAll(raw)) + |UnstuffLine(line)| + 1
    ensures more.Some? ==> raw + ([line] + more.value.0) == raw + [line] + more.value.0
  {
    assert (raw + [line])[..|raw|] == raw;
    var u := UnstuffAll(raw);
    assert (u + [UnstuffLine(line)])[..|u|] == u;
  }

  /** Stuffing is undone by unstuffing and never yields the terminator. */
  lemma StuffRoundTrip(line: string)
    ensures UnstuffLine(StuffLine(line)) == line
    ensures StuffLine(line) != TERMINATOR
    ensures LF !in line ==> LF !in StuffLine(line)
  {
  }

  /** The documented rule: strip a dot only from lines that begin with two. */
  function DocumentedUnstuff(line: string): string
  {
    if |line| >= 2 && line[0] == '.' && line[1] == '.' then line[1..] else line
  }

  /** The code departs from the documented rule exactly on lines with a single leading dot,
      which no conforming sender produces. */
  lemma UnstuffDiffersIff(line: string)
    ensures UnstuffLine(line) != DocumentedUnstuff(line)
       <==> line != [] && line[0] == '.' && !(|line| >= 2 && line[1] == '.')
    ensures UnstuffLine(StuffLine(line)) == DocumentedUnstuff(StuffLine(line)) == line
  {
    if line != [] {
      assert |line[1..]| < |line|;
    }
  }

  /** The block as a function: every line stuffed, then the terminator. */
  function Block(lines: seq<string>): string
  {
    if lines == [] then TERMINATOR + CRLF else StuffLine(lines[0]) + CRLF + Block(lines[1..])
  }

  function StuffedLines(lines: seq<string>): string
  {
    if lines == [] then [] else StuffedLines(lines[..|lines| - 1]) + (StuffLine(lines[|lines| - 1]) + CRLF)
  }

  lemma {:induction false} BlockIsLines(lines: seq<string>, k: nat)
    requires k <= |lines|
    ensures Block(lines) == StuffedLines(lines[..k]) + Block(lines[k..])
  {
    hide StuffLine;
    if k == 0 {
      assert lines[..0] == [] && lines[0..] == lines;
    } else {
      BlockIsLines(lines, k - 1);
      assert lines[k - 1..][1..] == lines[k..];
      assert lines[..k][..k - 1] == lines[..k - 1];
    }
  }

  /** Serialize a body into a complete block. */
  method EncodeBody(lines: seq<string>) returns (out: string)
    ensures out == Block(lines)
  {
    out := [];
    for i := 0 to |lines|
      invariant out == StuffedLines(lines[..i])
    {
      assert lines[..i + 1][..i] == lines[..i];
      out := out + StuffLine(lines[i]);
      out := out + CRLF;
    }
    BlockIsLines(lines, |lines|);
    assert lines[..|lines|] == lines;
    out := out + TERMINATOR;
    out := out + CRLF;
  }

  ghost predicate LfFree(lines: seq<string>)
  {
    forall l :: l in lines ==> LF !in l
  }

  // --- reading a block --------------------------------------------------------------------------

  /** The raw lines before the first lone `.` and what follows it; None if it never comes. */
  function SplitBlock(s: string): Option<(seq<string>, string)>
    decreases |s|
  {
    match NextLine(s)
    case None => None
    case Some((line, rest)) =>
      if line == TERMINATOR then Some(([], rest))
      else
        NextLineShrinks(s);
        match SplitBlock(rest)
        case None => None
        case Some((raw, after)) => Some(([line] + raw, after))
  }

  lemma {:induction false} UnstuffAllCons(line: string, raw: seq<string>)
    ensures UnstuffAll([line] + raw) == [UnstuffLine(line)] + UnstuffAll(raw)
  {
    if raw == [] {
      assert UnstuffAll([line]) == UnstuffAll([]) + [UnstuffLine(line)];
    } else {
      UnstuffAllCons(line, raw[..|raw| - 1]);
      assert ([line] + raw)[..|raw|] == [line] + raw[..|raw| - 1];
    }
  }

  /** Whatever the lines look like, the block ends at its own terminator and yields them back. */
  lemma {:induction false} BlockRoundTrip(lines: seq<string>, rest: string)
    requires LfFree(lines)
    ensures var split := SplitBlock(Block(lines) + rest);
            split.Some? && UnstuffAll(split.value.0) == lines && split.value.1 == rest
  {
    if lines == [] {
      LineRoundTrip(TERMINATOR, rest);
      assert TERMINATOR + CRLF + rest == Block(lines) + rest;
    } else {
      var head, tail := StuffLine(lines[0]), Block(lines[1..]) + rest;
      StuffRoundTrip(lines[0]);
      LineRoundTrip(head, tail);
      assert head + CRLF + tail == Block(lines) + rest;
      BlockRoundTrip(lines[1..], rest);
      UnstuffAllCons(head, SplitBlock(tail).value.0);
    }
  }
}
