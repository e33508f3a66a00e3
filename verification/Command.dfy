/** The client command grammar.  Here a `char` is a Unicode scalar of the decoded line. */
module Commands {
  import opened Text

  datatype Command =
    | Capabilities
    | Help
    | Register(typeName: string, key: string)
    | Subscribe(typeName: string)
    | Unsubscribe(typeName: string)
    | Publish(typeName: string, key: string)
    | ListTypes
    | Quit

  datatype Parsed = Ok(cmd: Command) | Err(code: nat, reason: string)

  const SYNTAX := 500
  const SYNTAX_PARAMS := 501
  const NOT_IMPLEMENTED := 502
  const INVALID_TYPE := 521

  // --- character classes and trimming ---------------------------------------------------------

  datatype Class = Space | Blank | White

  /** Space; space or tab; Unicode White_Space. */
  predicate Is(c: char, k: Class)
  {
    match k
    case Space => c == ' '
    case Blank => c == ' ' || c == '\t'
    case White =>
      var u := c as int;
      || 0x09 <= u <= 0x0D || u == 0x20 || u == 0x85 || u == 0xA0 || u == 0x1680
      || 0x2000 <= u <= 0x200A || u == 0x2028 || u == 0x2029 || u == 0x202F || u == 0x205F || u == 0x3000
  }

  predicate All(s: string, k: Class)
  {
    forall c :: c in s ==> Is(c, k)
  }

  function TrimStart(s: string, k: Class): string
  {
    if s != [] && Is(s[0], k) then TrimStart(s[1..], k) else s
  }

  function TrimEnd(s: string, k: Class): string
  {
    if s != [] && Is(s[|s| - 1], k) then TrimEnd(s[..|s| - 1], k) else s
  }

  function Trim(s: string, k: Class): string
  {
    TrimEnd(TrimStart(s, k), k)
  }

  function Upper(s: string): string
  {
    if s == [] then [] else [if 'a' <= s[0] <= 'z' then (s[0] as int - 32) as char else s[0]] + Upper(s[1..])
  }

  /** The non-empty pieces between spaces. */
  function Words(s: string): seq<string>
    decreases |s|
  {
    var (head, tail) := Cut(s);
    CutShrinks(s);
    (if head == [] then [] else [head]) + (match tail case None => [] case Some(t) => Words(t))
  }

  // --- validation ---------------------------------------------------------------------------------

  predicate IsTchar(c: char)
  {
    'a' <= c <= 'z' || 'A' <= c <= 'Z' || '0' <= c <= '9' || c == '-' || c == '.' || c == '_' || c == '/'
  }

  predicate IsValidType(s: string)
  {
    s != [] && forall c :: c in s ==> IsTchar(c)
  }

  predicate IsValidKey(s: string)
  {
    s != [] && forall c :: c in s ==> '!' <= c <= '~'
  }

  predicate IsValidCommand(cmd: Command)
  {
    match cmd
    case Register(t, key) => IsValidType(t) && IsValidKey(key)
    case Publish(t, key) => IsValidType(t) && IsValidKey(key)
    case Subscribe(t) => IsValidType(t)
    case Unsubscribe(t) => IsValidType(t)
    case _ => true
  }

  /** In ASCII: letters, digits, `-`, `.`, `/` and `_`. */
  predicate IsTokenCode(n: nat)
  {
    65 <= n <= 90 || 97 <= n <= 122 || 45 <= n <= 57 || n == 95
  }

  /** The characters of a type name, those of a key, and what counts as a letter's upper case. */
  lemma {:induction false} TokensAre(s: string)
    ensures IsValidType(s) <==> s != "" && forall c :: c in s ==> IsTokenCode(c as nat)
    ensures IsValidKey(s) <==> s != "" && forall c :: c in s ==> 33 <= c as nat <= 126
    ensures |Upper(s)| == |s|
    ensures forall i :: 0 <= i < |s| ==> Upper(s)[i] as nat == s[i] as nat - if 97 <= s[i] as nat <= 122 then 32 else 0
  {
    if s == [] {
    } else {
      TokensAre(s[1..]);
      assert s == [s[0]] + s[1..];
    }
  }

  /** The scalars of the Unicode property White_Space. */
  const WHITE_SPACE := {
    9, 10, 11, 12, 13, 32, 133, 160, 5760, 8192, 8193, 8194, 8195, 8196, 8197, 8198, 8199, 8200, 8201, 8202,
    8232, 8233, 8239, 8287, 12288
  }

  /** What is trimmed: around a line spaces and tabs, around arguments all white space; words end at spaces. */
  lemma BlanksAre(c: char)
    ensures Is(c, Space) <==> c as int == 32
    ensures Is(c, Blank) <==> c as int in {9, 32}
    ensures Is(c, White) <==> c as int in WHITE_SPACE
  {
  }

  // --- parsing ---------------------------------------------------------------------------------------

  function Parse(text: string): Parsed
  {
    var line := Trim(text, Blank);
    if line == [] then Err(SYNTAX, "empty command")
    else
      var (verb, tail) := Cut(line);
      var rest := TrimStart(if tail.Some? then tail.value else [], Space);
      match Upper(verb)
      case "CAPABILITIES" => NoArgs(rest, Capabilities)
      case "HELP" => NoArgs(rest, Help)
      case "QUIT" => NoArgs(rest, Quit)
      case "REGISTER" => TwoArgs(rest, true)
      case "PUBLISH" => TwoArgs(rest, false)
      case "SUBSCRIBE" => OneArg(rest, true)
      case "UNSUBSCRIBE" => OneArg(rest, false)
      case "LIST" =>
        if Upper(rest) == "TYPES" then Ok(ListTypes)
        else if rest == [] then Err(SYNTAX_PARAMS, "LIST requires a sub-command (TYPES)")
        else Err(NOT_IMPLEMENTED, "only LIST TYPES is supported")
      case _ => Err(SYNTAX, "command unrecognized")
  }

  function NoArgs(rest: string, cmd: Command): Parsed
  {
    if Trim(rest, White) == [] then Ok(cmd) else Err(SYNTAX_PARAMS, "command takes no arguments")
  }

  function OneArg(rest: string, subscribe: bool): Parsed
  {
    var t := Trim(rest, White);
    if t == [] then Err(SYNTAX_PARAMS, "missing argument")
    else if ' ' in t then Err(SYNTAX_PARAMS, "too many arguments")
    else if !IsValidType(t) then Err(INVALID_TYPE, "invalid message type name")
    else Ok(if subscribe then Subscribe(t) else Unsubscribe(t))
  }

  function TwoArgs(rest: string, register: bool): Parsed
  {
    var words := Words(Trim(rest, White));
    if |words| == 0 then Err(SYNTAX_PARAMS, "missing arguments")
    else if |words| == 1 then Err(SYNTAX_PARAMS, "missing second argument")
    else if |words| > 2 then Err(SYNTAX_PARAMS, "too many arguments")
    else if !IsValidType(words[0]) then Err(INVALID_TYPE, "invalid message type name")
    else if !IsValidKey(words[1]) then Err(SYNTAX_PARAMS, "invalid authorization key")
    else Ok(if register then Register(words[0], words[1]) else Publish(words[0], words[1]))
  }

  /** A parsed command carries only valid type tokens and keys; every failure is a 5xx. */
  lemma ParsedIsValid(text: string)
    ensures Parse(text).Ok? ==> IsValidCommand(Parse(text).cmd)
    ensures Parse(text).Err? ==> 500 <= Parse(text).code < 600
  {
  }

  // --- reasons ------------------------------------------------------------------------------------------

  predicate OneLine(s: string)
  {
    '\n' !in s
  }

  /** The reason of a failure fits on the status line. */
  lemma ReasonIsOneLine(text: string)
    ensures Parse(text).Err? ==> OneLine(Parse(text).reason)
  {
    hide Trim, TrimStart, Upper, Cut, NoArgs, OneArg, TwoArgs, OneLine;
    var line := Trim(text, Blank);
    var tail := Cut(line).1;
    var rest := TrimStart(if tail.Some? then tail.value else [], Space);
    OwnReasons();
    ListReasons();
    NoArgReason(rest, Capabilities);
    NoArgReason(rest, Help);
    NoArgReason(rest, Quit);
    OneArgReason(rest, true);
    OneArgReason(rest, false);
    TwoArgReason(rest, true);
    TwoArgReason(rest, false);
  }

  lemma OwnReasons()
    ensures OneLine("empty command") && OneLine("command unrecognized")
  {
  }

  lemma ListReasons()
    ensures OneLine("LIST requires a sub-command (TYPES)") && OneLine("only LIST TYPES is supported")
  {
  }

  lemma NoArgReason(rest: string, cmd: Command)
    ensures NoArgs(rest, cmd).Err? ==> OneLine(NoArgs(rest, cmd).reason)
  {
    hide Trim;
  }

  lemma OneArgReason(rest: string, subscribe: bool)
    ensures OneArg(rest, subscribe).Err? ==> OneLine(OneArg(rest, subscribe).reason)
  {
    hide Trim, IsValidType, OneLine;
    CountReasons();
    ArgumentReasons();
    InvalidReasons();
  }

  lemma ArgumentReasons()
    ensures OneLine("missing argument")
  {
  }

  lemma TwoArgReason(rest: string, register: bool)
    ensures TwoArgs(rest, register).Err? ==> OneLine(TwoArgs(rest, register).reason)
  {
    hide Trim, Words, IsValidType, IsValidKey, OneLine;
    CountReasons();
    InvalidReasons();
  }

  lemma CountReasons()
    ensures OneLine("missing arguments") && OneLine("missing second argument") && OneLine("too many arguments")
  {
  }

  lemma InvalidReasons()
    ensures OneLine("invalid message type name") && OneLine("invalid authorization key")
  {
  }
}
