/** Which lines the command parser accepts: exactly the spellings of the valid commands. */
module Grammar {
  import opened Text
  import opened Commands

  /** How a command is spelled: blanks before, the verb in any letter case, padding, and the rest. */
  datatype Layout = Layout(lead: string, verb: string, gap: string, mid: string, trail: string)

  function VerbOf(cmd: Command): string
  {
    match cmd
    case Capabilities => "CAPABILITIES"
    case Help => "HELP"
    case Register(_, _) => "REGISTER"
    case Subscribe(_) => "SUBSCRIBE"
    case Unsubscribe(_) => "UNSUBSCRIBE"
    case Publish(_, _) => "PUBLISH"
    case ListTypes => "LIST"
    case Quit => "QUIT"
  }

  /** What follows the verb. */
  function Args(cmd: Command, l: Layout): string
  {
    match cmd
    case Register(t, key) => [' '] + l.gap + t + [' '] + l.mid + key + l.trail
    case Publish(t, key) => [' '] + l.gap + t + [' '] + l.mid + key + l.trail
    case Subscribe(t) => [' '] + l.gap + t + l.trail
    case Unsubscribe(t) => [' '] + l.gap + t + l.trail
    case ListTypes => [' '] + l.gap + l.mid + l.trail
    case _ => l.mid + l.gap + l.trail
  }

  function Spell(cmd: Command, l: Layout): string
  {
    l.lead + (l.verb + Args(cmd, l))
  }

  predicate IsLayout(cmd: Command, l: Layout)
  {
    && All(l.lead, Blank) && Upper(l.verb) == VerbOf(cmd)
    && match cmd
       case Register(_, _) => All(l.gap, White) && All(l.mid, Space) && All(l.trail, White)
       case Publish(_, _) => All(l.gap, White) && All(l.mid, Space) && All(l.trail, White)
       case Subscribe(_) => All(l.gap, White) && All(l.trail, White)
       case Unsubscribe(_) => All(l.gap, White) && All(l.trail, White)
       case ListTypes => All(l.gap, Space) && Upper(l.mid) == "TYPES" && All(l.trail, Blank)
       case _ => (l.mid == [] && l.gap == [] && All(l.trail, Blank))
                 || (l.mid == [' '] && All(l.gap, White) && l.trail == [])
  }

  // --- trimming -----------------------------------------------------------------------------------

  predicate Bare(s: string, k: Class)
  {
    s == [] || (!Is(s[0], k) && !Is(s[|s| - 1], k))
  }

  lemma {:induction false} TrimStartDrops(a: string, s: string, k: Class)
    requires All(a, k) && (s == [] || !Is(s[0], k))
    ensures TrimStart(a + s, k) == s
  {
    if a == [] {
      assert a + s == s;
    } else {
      assert (a + s)[1..] == a[1..] + s;
      TrimStartDrops(a[1..], s, k);
    }
  }

  lemma {:induction false} TrimEndDrops(s: string, b: string, k: Class)
    requires All(b, k) && (s == [] || !Is(s[|s| - 1], k))
    ensures TrimEnd(s + b, k) == s
  {
    if b == [] {
      assert s + b == s;
    } else {
      assert (s + b)[..|s + b| - 1] == s + b[..|b| - 1];
      TrimEndDrops(s, b[..|b| - 1], k);
    }
  }

  lemma {:induction false} TrimStartParts(s: string, k: Class) returns (a: string)
    ensures All(a, k) && s == a + TrimStart(s, k)
    ensures TrimStart(s, k) == [] || !Is(TrimStart(s, k)[0], k)
  {
    a := [];
    if s != [] && Is(s[0], k) {
      var b := TrimStartParts(s[1..], k);
      a := [s[0]] + b;
      assert s == [s[0]] + s[1..];
    }
  }

  lemma {:induction false} TrimEndParts(s: string, k: Class) returns (b: string)
    ensures All(b, k) && s == TrimEnd(s, k) + b
    ensures TrimEnd(s, k) == [] || (!Is(TrimEnd(s, k)[|TrimEnd(s, k)| - 1], k) && TrimEnd(s, k)[0] == s[0])
  {
    b := [];
    if s != [] && Is(s[|s| - 1], k) {
      var a := TrimEndParts(s[..|s| - 1], k);
      b := a + [s[|s| - 1]];
      assert s == s[..|s| - 1] + [s[|s| - 1]];
    }
  }

  /** Trimming removes a prefix and a suffix of the class and stops at other characters. */
  lemma TrimParts(s: string, k: Class) returns (a: string, b: string)
    ensures All(a, k) && All(b, k) && s == a + Trim(s, k) + b && Bare(Trim(s, k), k)
  {
    a := TrimStartParts(s, k);
    b := TrimEndParts(TrimStart(s, k), k);
  }

  lemma TrimDrops(a: string, s: string, b: string, k: Class)
    requires All(a, k) && All(b, k) && s != [] && Bare(s, k)
    ensures Trim(a + s + b, k) == s
  {
    assert a + s + b == a + (s + b);
    TrimStartDrops(a, s + b, k);
    TrimEndDrops(s, b, k);
  }

  // --- words -----------------------------------------------------------------------------------------

  lemma WordsUnfold(s: string)
    ensures var (head, tail) := Cut(s);
            var rest := match tail case None => [] case Some(t) => Words(t);
            Words(s) == if head == [] then rest else [head] + rest
    ensures Cut(s).0 != [] ==>
      Words(s) != [] && Words(s)[0] == Cut(s).0
      && Words(s)[1..] == match Cut(s).1 case None => [] case Some(t) => Words(t)
  {
    CutShrinks(s);
    var rest := match Cut(s).1 case None => [] case Some(t) => Words(t);
    assert [] + rest == rest;
  }

  lemma {:induction false} NoWords(s: string)
    requires Words(s) == []
    ensures All(s, Space)
    decreases |s|
  {
    CutParts(s);
    CutShrinks(s);
    WordsUnfold(s);
    if Cut(s).1.Some? {
      NoWords(Cut(s).1.value);
    }
  }

  lemma {:induction false} OneWord(s: string, w: string) returns (gap: string)
    requires Words(s) == [w] && s != [] && s[|s| - 1] != ' '
    ensures All(gap, Space) && s == gap + w
    decreases |s|
  {
    CutParts(s);
    CutShrinks(s);
    WordsUnfold(s);
    var (head, tail) := Cut(s);
    gap := [];
    if head == [] {
      var rest := OneWord(tail.value, w);
      gap := [' '] + rest;
    } else if tail.Some? {
      NoWords(tail.value);
      EndsInSpace(head, tail.value);
    }
  }

  lemma EndsInSpace(head: string, tail: string)
    requires All(tail, Space)
    ensures var s := head + [' '] + tail; s[|s| - 1] == ' '
  {
    if tail != [] {
      assert tail[|tail| - 1] in tail;
    }
  }

  lemma WordsOfNothing()
    ensures Words([]) == []
  {
  }

  lemma TwoWords(s: string, a: string, b: string) returns (mid: string)
    requires Words(s) == [a, b] && Bare(s, Space) && s != []
    ensures All(mid, Space) && s == a + [' '] + mid + b && ' ' !in a
  {
    hide Words, Cut;
    CutParts(s);
    WordsUnfold(s);
    var (head, tail) := Cut(s);
    assert s[0] != ' ' && head != [];
    assert tail.Some? && tail.value != [] && s[|s| - 1] == tail.value[|tail.value| - 1] by {
      WordsOfNothing();
    }
    assert Words(tail.value) == [b];
    mid := OneWord(tail.value, b);
  }

  lemma {:induction false} WordsOfOne(gap: string, w: string)
    requires All(gap, Space) && ' ' !in w && w != []
    ensures Words(gap + w) == [w]
  {
    hide Words, Cut;
    CutAt(w, []);
    WordsUnfold(gap + w);
    if gap == [] {
      assert gap + w == w;
    } else {
      CutAt([], gap[1..] + w);
      assert gap[0] in gap && gap + w == [] + [SP] + (gap[1..] + w);
      WordsOfOne(gap[1..], w);
    }
  }

  lemma WordsOfTwo(a: string, mid: string, b: string)
    requires All(mid, Space) && ' ' !in a && ' ' !in b && a != [] && b != []
    ensures Words(a + [' '] + mid + b) == [a, b]
  {
    assert a + [' '] + mid + b == a + [' '] + (mid + b);
    CutAt(a, mid + b);
    WordsOfOne(mid, b);
  }

  // --- spelled commands parse back ----------------------------------------------------------------

  lemma {:induction false} UpperLength(s: string)
    ensures |Upper(s)| == |s|
    ensures forall i :: 0 <= i < |s| ==> Upper(s)[i] == if 'a' <= s[i] <= 'z' then (s[i] as int - 32) as char else s[i]
  {
    if s == [] {
    } else {
      UpperLength(s[1..]);
    }
  }

  /** A word that is all letters after folding has no space and no blank. */
  lemma LettersAreBare(s: string, word: string)
    requires Upper(s) == word && word != [] && forall c :: c in word ==> 'A' <= c <= 'Z'
    ensures ' ' !in s && Bare(s, Blank) && Bare(s, White) && s != []
  {
    UpperLength(s);
    forall i | 0 <= i < |s| ensures !Is(s[i], White) && !Is(s[i], Blank) {
      assert Upper(s)[i] in word;
    }
  }

  lemma ValidIsBare(s: string)
    requires IsValidType(s) || IsValidKey(s)
    ensures ' ' !in s && Bare(s, White) && Bare(s, Blank) && s != []
  {
    assert s[0] in s && s[|s| - 1] in s;
  }

  lemma {:induction false} RestTrims(gap: string, core: string, trail: string)
    requires All(gap, White) && All(trail, White) && core != [] && Bare(core, White)
    ensures Trim(TrimStart(gap + core + trail, Space), White) == core
  {
    var s := gap + core + trail;
    if gap != [] && gap[0] == ' ' {
      assert s[1..] == gap[1..] + core + trail;
      RestTrims(gap[1..], core, trail);
    } else {
      assert !Is(s[0], Space) by {
        if gap == [] {
          assert s[0] == core[0];
        }
      }
      TrimDrops(gap, core, trail, White);
    }
  }

  lemma {:induction false} BlankEndIsWhite(s: string, trail: string)
    requires All(trail, White) && (s == [] || !Is(s[|s| - 1], Blank))
    ensures exists t :: All(t, White) && TrimEnd(s + trail, Blank) == s + t
  {
    if trail == [] || !Is(trail[|trail| - 1], Blank) {
      assert TrimEnd(s + trail, Blank) == s + trail;
    } else {
      assert (s + trail)[..|s + trail| - 1] == s + trail[..|trail| - 1];
      BlankEndIsWhite(s, trail[..|trail| - 1]);
    }
  }

  lemma LeadDrops(lead: string, body: string)
    requires All(lead, Blank) && body != [] && !Is(body[0], Blank)
    ensures Trim(lead + body, Blank) == TrimEnd(body, Blank)
  {
    TrimStartDrops(lead, body, Blank);
  }

  lemma BodyLine(lead: string, s: string, trail: string) returns (t: string)
    requires All(lead, Blank) && All(trail, White) && s != [] && Bare(s, Blank)
    ensures All(t, White) && Trim(lead + (s + trail), Blank) == s + t
  {
    LeadDrops(lead, s + trail);
    BlankEndIsWhite(s, trail);
    t :| All(t, White) && TrimEnd(s + trail, Blank) == s + t;
  }

  lemma VerbLine(lead: string, verb: string, x: string, trail: string) returns (t: string)
    requires All(lead, Blank) && verb != [] && Bare(verb, Blank)
    requires All(trail, White) && x != [] && !Is(x[|x| - 1], Blank)
    ensures All(t, White) && Trim(lead + (verb + ([' '] + x + trail)), Blank) == verb + [' '] + (x + t)
  {
    var s := verb + [' '] + x;
    assert s[0] == verb[0] && s[|s| - 1] == x[|x| - 1];
    t := BodyLine(lead, s, trail);
    assert verb + ([' '] + x + trail) == s + trail;
    assert s + t == verb + [' '] + (x + t);
  }

  /** The verb and the trimmed rest that the parser sees. */
  lemma VerbAndRest(lead: string, verb: string, gap: string, core: string, trail: string)
    requires All(lead, Blank) && ' ' !in verb && verb != [] && Bare(verb, Blank)
    requires All(gap, White) && All(trail, White) && core != [] && Bare(core, White) && Bare(core, Blank)
    ensures var line := Trim(lead + (verb + ([' '] + gap + core + trail)), Blank);
            && line != [] && Cut(line).0 == verb && Cut(line).1.Some?
            && Trim(TrimStart(Cut(line).1.value, Space), White) == core
  {
    var x := gap + core;
    assert [' '] + gap + core + trail == [' '] + x + trail;
    var t := VerbLine(lead, verb, x, trail);
    CutAt(verb, x + t);
    RestTrims(gap, core, t);
  }

  lemma VerbIsBare(cmd: Command, verb: string)
    requires Upper(verb) == VerbOf(cmd)
    ensures ' ' !in verb && verb != [] && Bare(verb, Blank) && Bare(verb, White)
  {
    LettersAreBare(verb, VerbOf(cmd));
  }

  function VerbToken(text: string): string
  {
    Cut(Trim(text, Blank)).0
  }

  function RestOf(text: string): string
  {
    var tail := Cut(Trim(text, Blank)).1;
    TrimStart(if tail.Some? then tail.value else [], Space)
  }

  /** What a successful parse found in the rest of the line. */
  ghost predicate RestFits(cmd: Command, rest: string)
  {
    match cmd
    case Register(t, key) => Words(Trim(rest, White)) == [t, key] && IsValidType(t) && IsValidKey(key)
    case Publish(t, key) => Words(Trim(rest, White)) == [t, key] && IsValidType(t) && IsValidKey(key)
    case Subscribe(t) => Trim(rest, White) == t && IsValidType(t)
    case Unsubscribe(t) => Trim(rest, White) == t && IsValidType(t)
    case ListTypes => Upper(rest) == "TYPES"
    case _ => Trim(rest, White) == []
  }

  lemma ParseFacts(text: string, cmd: Command)
    requires Parse(text) == Ok(cmd)
    ensures Trim(text, Blank) != [] && Upper(VerbToken(text)) == VerbOf(cmd) && RestFits(cmd, RestOf(text))
  {
    hide Trim, Upper, Words, IsValidType, IsValidKey;
  }

  lemma ParseFits(text: string, cmd: Command)
    requires Trim(text, Blank) != [] && Upper(VerbToken(text)) == VerbOf(cmd) && RestFits(cmd, RestOf(text))
    ensures Parse(text) == Ok(cmd)
  {
  }

  lemma SpelledOneArg(cmd: Command, l: Layout, t: string)
    requires cmd == Subscribe(t) || cmd == Unsubscribe(t)
    requires IsValidType(t) && IsLayout(cmd, l)
    ensures Parse(Spell(cmd, l)) == Ok(cmd)
  {
    hide Parse, Trim, Upper, Cut, TrimStart;
    ValidIsBare(t);
    VerbIsBare(cmd, l.verb);
    VerbAndRest(l.lead, l.verb, l.gap, t, l.trail);
    ParseFits(Spell(cmd, l), cmd);
  }

  lemma SpelledTwoArgs(cmd: Command, l: Layout, t: string, key: string)
    requires cmd == Register(t, key) || cmd == Publish(t, key)
    requires IsValidType(t) && IsValidKey(key) && IsLayout(cmd, l)
    ensures Parse(Spell(cmd, l)) == Ok(cmd)
  {
    hide Parse, Trim, Upper, Cut, TrimStart, Words;
    ValidIsBare(t);
    ValidIsBare(key);
    VerbIsBare(cmd, l.verb);
    var core := t + [' '] + l.mid + key;
    assert core[0] == t[0] && core[|core| - 1] == key[|key| - 1];
    assert [' '] + l.gap + core + l.trail == Args(cmd, l);
    VerbAndRest(l.lead, l.verb, l.gap, core, l.trail);
    WordsOfTwo(t, l.mid, key);
    ParseFits(Spell(cmd, l), cmd);
  }

  lemma SpelledList(l: Layout)
    requires IsLayout(ListTypes, l)
    ensures Parse(Spell(ListTypes, l)) == Ok(ListTypes)
  {
    VerbIsBare(ListTypes, l.verb);
    LettersAreBare(l.mid, "TYPES");
    var line := l.verb + [' '] + (l.gap + l.mid);
    assert Trim(Spell(ListTypes, l), Blank) == line by { ListLine(l, line); }
    CutAt(l.verb, l.gap + l.mid);
    assert TrimStart(l.gap + l.mid, Space) == l.mid by {
      assert !Is(l.mid[0], Space) by { assert !Is(l.mid[0], Blank); }
      TrimStartDrops(l.gap, l.mid, Space);
    }
  }

  lemma ListSpelled(lead: string, verb: string, gap: string, mid: string, trail: string)
    ensures lead + (verb + ([' '] + gap + mid + trail)) == lead + (verb + [' '] + (gap + mid)) + trail
  {
  }

  lemma ListLine(l: Layout, line: string)
    requires All(l.lead, Blank) && All(l.trail, Blank)
    requires l.verb != [] && Bare(l.verb, Blank) && l.mid != [] && Bare(l.mid, Blank)
    requires line == l.verb + [' '] + (l.gap + l.mid)
    ensures Trim(Spell(ListTypes, l), Blank) == line
  {
    hide Trim, Upper;
    ListSpelled(l.lead, l.verb, l.gap, l.mid, l.trail);
    assert line[0] == l.verb[0] && line[|line| - 1] == l.mid[|l.mid| - 1];
    TrimDrops(l.lead, line, l.trail, Blank);
  }

  lemma {:induction false} WhiteTrimsAway(s: string)
    requires All(s, White)
    ensures Trim(TrimStart(s, Space), White) == []
  {
    var a := TrimStartParts(s, Space);
    TrimStartDrops(TrimStart(s, Space), [], White);
    assert TrimStart(s, Space) + [] == TrimStart(s, Space);
  }

  /** A line that is a verb, alone or followed by a space and white space. */
  lemma VerbAlone(lead: string, verb: string, tail: string) returns (t: string)
    requires All(lead, Blank) && verb != [] && Bare(verb, Blank) && All(tail, White)
    ensures All(t, White) && Trim(lead + (verb + tail), Blank) == verb + t && t <= tail
    ensures All(tail, Blank) ==> t == []
  {
    LeadDrops(lead, verb + tail);
    BlankEndIsWhite(verb, tail);
    t :| All(t, White) && TrimEnd(verb + tail, Blank) == verb + t;
    var b := TrimEndParts(verb + tail, Blank);
    assert (verb + tail)[|verb|..] == tail && (verb + t + b)[|verb|..] == t + b;
    if All(tail, Blank) {
      TrimEndDrops(verb, tail, Blank);
      assert |verb + t| == |verb|;
    }
  }

  lemma NothingTrims()
    ensures TrimStart([], Space) == [] && Trim([], White) == []
  {
  }

  lemma SpelledNoArgs(cmd: Command, l: Layout)
    requires cmd == Capabilities || cmd == Help || cmd == Quit
    requires IsLayout(cmd, l)
    ensures Parse(Spell(cmd, l)) == Ok(cmd)
  {
    hide Parse, Trim, Upper, Cut, TrimStart;
    VerbIsBare(cmd, l.verb);
    var t := VerbAlone(l.lead, l.verb, Args(cmd, l));
    if t == [] {
      assert l.verb + t == l.verb;
      CutAt(l.verb, []);
    } else {
      assert t[0] == ' ' && l.verb + t == l.verb + [' '] + t[1..];
      CutAt(l.verb, t[1..]);
      WhiteTrimsAway(t[1..]);
    }
    NothingTrims();
    ParseFits(Spell(cmd, l), cmd);
  }

  /** Every spelling of a valid command, in any letter case and spacing, parses back to it. */
  lemma SpelledParses(cmd: Command, l: Layout)
    requires IsValidCommand(cmd) && IsLayout(cmd, l)
    ensures Parse(Spell(cmd, l)) == Ok(cmd)
  {
    if cmd.Register? || cmd.Publish? {
      SpelledTwoArgs(cmd, l, cmd.typeName, cmd.key);
    } else if cmd.Subscribe? || cmd.Unsubscribe? {
      SpelledOneArg(cmd, l, cmd.typeName);
    } else if cmd.ListTypes? {
      SpelledList(l);
    } else {
      SpelledNoArgs(cmd, l);
    }
  }

  // --- parsed lines are spellings -------------------------------------------------------------------

  lemma BlankIsWhite(s: string, k: Class)
    requires All(s, k) && (k == Blank || k == Space)
    ensures All(s, White)
  {
    forall c | c in s ensures Is(c, White) {
      assert Is(c, k);
    }
  }

  /** The line as the parser takes it apart: lead, verb, then nothing or a space and the rest. */
  lemma TakenApart(text: string) returns (lead: string, pad: string, trail: string, alone: bool)
    ensures All(lead, Blank) && All(pad, Space) && All(trail, Blank)
    ensures alone ==> text == lead + (VerbToken(text) + trail) && RestOf(text) == []
    ensures !alone ==> text == lead + (VerbToken(text) + ([' '] + pad + RestOf(text) + trail))
  {
    var line := Trim(text, Blank);
    lead, trail := TrimParts(text, Blank);
    CutParts(line);
    alone := Cut(line).1.None?;
    pad := [];
    if alone {
      assert lead + line + trail == lead + (line + trail);
    } else {
      pad := TrimStartParts(Cut(line).1.value, Space);
      Regroup(lead, VerbToken(text), pad, RestOf(text), trail);
    }
  }

  lemma Regroup(lead: string, verb: string, pad: string, rest: string, trail: string)
    ensures lead + (verb + [' '] + (pad + rest)) + trail == lead + (verb + ([' '] + pad + rest + trail))
  {
  }

  lemma FitsNoArgs(text: string, cmd: Command) returns (l: Layout)
    requires cmd == Capabilities || cmd == Help || cmd == Quit
    requires Upper(VerbToken(text)) == VerbOf(cmd) && RestFits(cmd, RestOf(text))
    ensures IsLayout(cmd, l) && text == Spell(cmd, l)
  {
    var rest := RestOf(text);
    var lead, pad, trail, alone := TakenApart(text);
    if alone {
      l := Layout(lead, VerbToken(text), [], [], trail);
    } else {
      var a, b := TrimParts(rest, White);
      BlankIsWhite(pad, Space);
      BlankIsWhite(trail, Blank);
      l := Layout(lead, VerbToken(text), pad + rest + trail, [' '], []);
      assert [' '] + pad + rest + trail == l.mid + l.gap + l.trail;
    }
  }

  lemma FitsOneArg(text: string, cmd: Command, t: string) returns (l: Layout)
    requires cmd == Subscribe(t) || cmd == Unsubscribe(t)
    requires Upper(VerbToken(text)) == VerbOf(cmd) && RestFits(cmd, RestOf(text))
    ensures IsLayout(cmd, l) && text == Spell(cmd, l)
  {
    hide Trim, Upper, Cut, RestOf, VerbToken;
    var rest := RestOf(text);
    NothingTrims();
    var lead, pad, trail, alone := TakenApart(text);
    assert !alone;
    var a, b := TrimParts(rest, White);
    BlankIsWhite(pad, Space);
    BlankIsWhite(trail, Blank);
    l := Layout(lead, VerbToken(text), pad + a, [], b + trail);
    assert [' '] + pad + (a + t + b) + trail == [' '] + l.gap + t + l.trail;
  }

  lemma FitsTwoArgs(text: string, cmd: Command, t: string, key: string) returns (l: Layout)
    requires cmd == Register(t, key) || cmd == Publish(t, key)
    requires Upper(VerbToken(text)) == VerbOf(cmd) && RestFits(cmd, RestOf(text))
    ensures IsLayout(cmd, l) && text == Spell(cmd, l)
  {
    var rest := RestOf(text);
    var lead, pad, trail, alone := TakenApart(text);
    assert Words(Trim([], White)) == [];
    assert !alone;
    var a, b := TrimParts(rest, White);
    BlankIsWhite(pad, Space);
    BlankIsWhite(trail, Blank);
    var mid := SplitCore(Trim(rest, White), t, key);
    l := Layout(lead, VerbToken(text), pad + a, mid, b + trail);
    RegroupTwo(pad, a, t, mid, key, b, trail);
  }

  lemma SplitCore(core: string, t: string, key: string) returns (mid: string)
    requires Words(core) == [t, key] && Bare(core, White)
    ensures All(mid, Space) && core == t + [' '] + mid + key
  {
    assert core != [];
    assert Bare(core, Space);
    mid := TwoWords(core, t, key);
  }

  lemma RegroupTwo(pad: string, a: string, t: string, mid: string, key: string, b: string, trail: string)
    ensures [' '] + pad + (a + (t + [' '] + mid + key) + b) + trail
         == [' '] + (pad + a) + t + [' '] + mid + key + (b + trail)
  {
  }

  lemma FitsList(text: string) returns (l: Layout)
    requires Upper(VerbToken(text)) == "LIST" && RestFits(ListTypes, RestOf(text))
    ensures IsLayout(ListTypes, l) && text == Spell(ListTypes, l)
  {
    var lead, pad, trail, alone := TakenApart(text);
    UpperLength(RestOf(text));
    l := Layout(lead, VerbToken(text), pad, RestOf(text), trail);
  }

  lemma ParsedIsSpelled(text: string, cmd: Command) returns (l: Layout)
    requires Parse(text) == Ok(cmd)
    ensures IsLayout(cmd, l) && text == Spell(cmd, l)
  {
    ParseFacts(text, cmd);
    if cmd.Register? || cmd.Publish? {
      l := FitsTwoArgs(text, cmd, cmd.typeName, cmd.key);
    } else if cmd.Subscribe? || cmd.Unsubscribe? {
      l := FitsOneArg(text, cmd, cmd.typeName);
    } else if cmd.ListTypes? {
      l := FitsList(text);
    } else {
      l := FitsNoArgs(text, cmd);
    }
  }

  /** The parser accepts a line as `cmd` exactly when the line is a spelling of a valid `cmd`. */
  lemma ParseIff(text: string, cmd: Command)
    ensures Parse(text) == Ok(cmd)
       <==> IsValidCommand(cmd) && exists l :: IsLayout(cmd, l) && text == Spell(cmd, l)
  {
    if Parse(text) == Ok(cmd) {
      ParsedIsValid(text);
      var l := ParsedIsSpelled(text, cmd);
    }
    if IsValidCommand(cmd) && exists l :: IsLayout(cmd, l) && text == Spell(cmd, l) {
      var l :| IsLayout(cmd, l) && text == Spell(cmd, l);
      SpelledParses(cmd, l);
    }
  }

  // --- what is wrong with a line that is no command ------------------------------------------------------

  lemma WordsWhenBare(t: string)
    requires t == [] || (t[0] != ' ' && t[|t| - 1] != ' ')
    ensures |Words(t)| == 0 <==> t == []
    ensures |Words(t)| == 1 <==> t != [] && ' ' !in t
    ensures |Words(t)| == 1 ==> Words(t) == [t]
  {
    CutParts(t);
    CutShrinks(t);
    WordsUnfold(t);
    if t != [] {
      assert t[0] in t;
      if Words(t) == [] {
        NoWords(t);
      }
    }
    if Cut(t).1.Some? && Words(Cut(t).1.value) == [] {
      NoWords(Cut(t).1.value);
      EndsInSpace(Cut(t).0, Cut(t).1.value);
    }
  }

  lemma TrimmedIsBare(s: string)
    ensures var t := Trim(s, White); t == [] || (t[0] != ' ' && t[|t| - 1] != ' ')
  {
    var _, _ := TrimParts(s, White);
  }

  /** The status code a line calls for if it is no command: 500 for an empty line or an unknown verb, 501 for
      the wrong number of arguments or a malformed key, 502 for another LIST, 521 for a malformed type. */
  function Fault(text: string): Option<nat>
  {
    if Trim(text, Blank) == [] then Some(500)
    else
      var words := Words(Trim(RestOf(text), White));
      match Upper(VerbToken(text))
      case "REGISTER" => PairFault(words)
      case "PUBLISH" => PairFault(words)
      case "SUBSCRIBE" => TypeFault(words)
      case "UNSUBSCRIBE" => TypeFault(words)
      case "CAPABILITIES" => if words == [] then None else Some(501)
      case "HELP" => if words == [] then None else Some(501)
      case "QUIT" => if words == [] then None else Some(501)
      case "LIST" =>
        if Upper(RestOf(text)) == "TYPES" then None else Some(if RestOf(text) == [] then 501 else 502)
      case _ => Some(500)
  }

  function PairFault(words: seq<string>): Option<nat>
  {
    if |words| == 2 && IsValidType(words[0]) && IsValidKey(words[1]) then None
    else if |words| == 2 && !IsValidType(words[0]) then Some(521)
    else Some(501)
  }

  function TypeFault(words: seq<string>): Option<nat>
  {
    if |words| == 1 && IsValidType(words[0]) then None else if |words| == 1 then Some(521) else Some(501)
  }

  /** A line is refused exactly with the code its fault calls for. */
  lemma FaultIff(text: string)
    ensures match Fault(text)
            case None => Parse(text).Ok?
            case Some(code) => Parse(text).Err? && Parse(text).code == code
  {
    hide Trim, Upper, Words, IsValidType, IsValidKey;
    var t := Trim(RestOf(text), White);
    TrimmedIsBare(RestOf(text));
    WordsWhenBare(t);
  }
}
