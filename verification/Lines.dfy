/** Lines of a byte stream: LF ends a line and one CR before it is dropped. */
module Lines {
  import opened Text

  const LF := '\n'
  const CR := '\r'
  const CRLF := [CR, LF]

  /** A non-empty field: no space and no line break. */
  predicate IsField(s: string)
  {
    s != [] && SP !in s && LF !in s
  }

  /** Position of the first LF. */
  function FirstLf(s: string): (p: Option<nat>)
    ensures p.Some? ==> p.value < |s| && s[p.value] == LF && LF !in s[..p.value]
    ensures p.None? ==> LF !in s
  {
    if s == [] then None
    else if s[0] == LF then Some(0)
    else match FirstLf(s[1..])
      case None =>
        assert s == [s[0]] + s[1..];
        None
      case Some(p) =>
        assert s[..p + 1] == [s[0]] + s[1..][..p];
        Some(p + 1)
  }

  function StripCr(line: string): string
  {
    if line != [] && line[|line| - 1] == CR then line[..|line| - 1] else line
  }

  /** The first complete line and what follows its LF. */
  function NextLine(s: string): Option<(string, string)>
  {
    match FirstLf(s)
    case None => None
    case Some(p) => Some((StripCr(s[..p]), s[p + 1..]))
  }

  lemma {:induction false} FirstLfIs(s: string, p: nat)
    requires p < |s| && s[p] == LF && LF !in s[..p]
    ensures FirstLf(s) == Some(p)
  {
    if p == 0 {
    } else {
      assert s[..p][0] == s[0];
      assert s[1..][..p - 1] == s[..p][1..];
      FirstLfIs(s[1..], p - 1);
    }
  }

  /** A line without LF, written with CRLF, is read back unchanged, trailing CRs included. */
  lemma LineRoundTrip(line: string, rest: string)
    requires LF !in line
    ensures NextLine(line + CRLF + rest) == Some((line, rest))
  {
    var s := line + CRLF + rest;
    assert s[..|line| + 1] == line + [CR];
    FirstLfIs(s, |line| + 1);
    assert s[|line| + 2..] == rest;
  }

  lemma NextLineShrinks(s: string)
    ensures NextLine(s).Some? ==> |NextLine(s).value.1| < |s| && LF !in NextLine(s).value.0
  {
  }
}
