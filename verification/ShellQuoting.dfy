/**
 Shell quoting (shellQuote, internal/adapter/ssh/compose.go:481-483; shellArg and
 joinShellArgs, internal/adapter/kubernetes/kopia.go:185-193) against the token
 recognition and quote removal of a shell: sections 2.2 (Quoting), 2.3 (Token
 Recognition) and 2.6.3 (Command Substitution) of the POSIX.1-2017 Shell Command Language.
 */
module ShellQuoting {
  import opened Wrappers

  // ---------------------------------------------------------------- the shell

  /** A character of a word: taken literally, or still to be expanded. */
  datatype Piece = Lit(c: char) | Active(c: char)

  datatype Token = Word(pieces: seq<Piece>) | Operator(c: char)

  datatype Mode = Unquoted | Escaped | SingleQuoted | DoubleQuoted | DoubleEscaped

  /** The word and mode in which a command substitution was opened. */
  datatype Outer = Outer(word: Option<seq<Piece>>, mode: Mode)

  /** word is the word in progress, if any; outer the substitutions that are open, innermost first. */
  datatype State = State(tokens: seq<Token>, word: Option<seq<Piece>>, mode: Mode, outer: seq<Outer>)

  const START := State([], None, Unquoted, [])

  function Open(s: State): seq<Piece> { if s.word.Some? then s.word.value else [] }

  function Grow(s: State, piece: Piece, mode: Mode): State { s.(word := Some(Open(s) + [piece]), mode := mode) }

  function Closed(s: State): State {
    if s.word.None? then s else s.(tokens := s.tokens + [Word(s.word.value)], word := None)
  }

  predicate IsOperator(c: char) { c in {'\n', '|', '&', ';', '<', '>', '(', ')'} }

  /** Parameter, command and pathname expansion start here. */
  predicate IsActive(c: char) { c in {'$', '`', '*', '?', '[', '~'} }

  predicate AfterDollar(s: State) { Open(s) != [] && Open(s)[|Open(s)| - 1] == Active('$') }

  /** $( begins a command with quoting of its own; its tokens come before the word that holds it. */
  function Enter(s: State): State { State(s.tokens + [Operator('(')], None, Unquoted, [Outer(s.word, s.mode)] + s.outer) }

  /** The word goes on after the substitution, which stands in it as Active(')'). */
  function Leave(s: State): State
    requires s.outer != []
  {
    Grow(State(Closed(s).tokens + [Operator(')')], s.outer[0].word, s.outer[0].mode, s.outer[1..]), Active(')'), s.outer[0].mode)
  }

  /** None: not a text a shell can be given, or one whose reading is not modelled (comments, subshells inside a substitution). */
  function Step(s: State, c: char): Option<State> {
    if c == '\0' then None
    else
      match s.mode
      case Unquoted =>
        if c == ' ' || c == '\t' then Some(Closed(s))
        else if c == '(' && AfterDollar(s) then Some(Enter(s))
        else if c == ')' && s.outer != [] then Some(Leave(s))
        else if c == '(' && s.outer != [] then None
        else if IsOperator(c) then Some(Closed(s).(tokens := Closed(s).tokens + [Operator(c)]))
        else if c == '\'' then Some(s.(word := Some(Open(s)), mode := SingleQuoted))
        else if c == '\"' then Some(s.(word := Some(Open(s)), mode := DoubleQuoted))
        else if c == '\\' then Some(s.(mode := Escaped))
        else if c == '#' && s.word.None? then None
        else Some(Grow(s, if IsActive(c) then Active(c) else Lit(c), Unquoted))
      case Escaped => Some(if c == '\n' then s.(mode := Unquoted) else Grow(s, Lit(c), Unquoted))
      case SingleQuoted => Some(if c == '\'' then s.(mode := Unquoted) else Grow(s, Lit(c), SingleQuoted))
      case DoubleQuoted =>
        if c == '\"' then Some(s.(mode := Unquoted))
        else if c == '\\' then Some(s.(mode := DoubleEscaped))
        else if c == '(' && AfterDollar(s) then Some(Enter(s))
        else Some(Grow(s, if c == '$' || c == '`' then Active(c) else Lit(c), DoubleQuoted))
      case DoubleEscaped =>
        if c == '\n' then Some(s.(mode := DoubleQuoted))
        else if c in {'$', '`', '\"', '\\'} then Some(Grow(s, Lit(c), DoubleQuoted))
        else Some(Grow(Grow(s, Lit('\\'), DoubleQuoted), Lit(c), DoubleQuoted))
  }

  function Run(s: State, text: string): Option<State>
    decreases |text|
  {
    if text == [] then Some(s)
    else
      var next := Step(s, text[0]);
      if next.None? then None else Run(next.value, text[1..])
  }

  /** An unterminated quotation or substitution is no command. */
  function Read(text: string): Option<seq<Token>> {
    var end := Run(START, text);
    if end.None? || !end.value.mode.Unquoted? || end.value.outer != [] then None else Some(Closed(end.value).tokens)
  }

  lemma {:induction false} RunAppend(s: State, a: string, b: string)
    ensures Run(s, a + b) == if Run(s, a).None? then None else Run(Run(s, a).value, b)
    decreases |a|
  {
    hide Step;
    if a == [] {
      assert a + b == b;
    } else {
      assert (a + b)[1..] == a[1..] + b;
      if Step(s, a[0]).Some? {
        RunAppend(Step(s, a[0]).value, a[1..], b);
      }
    }
  }

  // ---------------------------------------------------------------- the printer

  const QUOTED_QUOTE := "'\"'\"'"

  /** strings.ReplaceAll(value, "'", QUOTED_QUOTE). */
  function Escaping(value: string): string {
    if value == [] then [] else (if value[0] == '\'' then QUOTED_QUOTE else [value[0]]) + Escaping(value[1..])
  }

  function Quote(value: string): string { "'" + Escaping(value) + "'" }

  function Literal(value: string): seq<Piece> {
    if value == [] then [] else [Lit(value[0])] + Literal(value[1..])
  }

  // ---------------------------------------------------------------- one word

  /** Inside single quotes the escaped text reads as the value; it never closes them for good. */
  lemma {:induction false} EscapingReads(s: State, value: string)
    requires s.mode.SingleQuoted? && s.word.Some?
    ensures Run(s, Escaping(value)) == if '\0' in value then None else Some(s.(word := Some(s.word.value + Literal(value))))
    decreases |value|
  {
    if value == [] {
      assert s.word.value + [] == s.word.value;
    } else {
      var first, rest := if value[0] == '\'' then QUOTED_QUOTE else [value[0]], value[1..];
      RunAppend(s, first, Escaping(rest));
      assert value == [value[0]] + rest;
      if value[0] != '\0' {
        var next := Grow(s, Lit(value[0]), SingleQuoted);
        FirstReads(s, value[0]);
        EscapingReads(next, rest);
        assert s.word.value + [Lit(value[0])] + Literal(rest) == s.word.value + Literal(value);
      }
    }
  }

  lemma FirstReads(s: State, c: char)
    requires s.mode.SingleQuoted? && s.word.Some? && c != '\0'
    ensures Run(s, if c == '\'' then QUOTED_QUOTE else [c]) == Some(Grow(s, Lit(c), SingleQuoted))
  {
    if c == '\'' {
      var text := QUOTED_QUOTE;
      var s1 := s.(mode := Unquoted);
      var s2 := s.(mode := DoubleQuoted);
      var s3 := Grow(s2, Lit('\''), DoubleQuoted);
      var s4 := s3.(mode := Unquoted);
      assert Step(s, '\'') == Some(s1) && Step(s1, '\"') == Some(s2) && Step(s2, '\'') == Some(s3) && Step(s3, '\"') == Some(s4);
      assert Step(s4, '\'') == Some(s3.(mode := SingleQuoted));
      assert text == ['\'', '\"', '\'', '\"', '\''];
      OneStep(s, '\'', ['\"', '\'', '\"', '\'']);
      OneStep(s1, '\"', ['\'', '\"', '\'']);
      OneStep(s2, '\'', ['\"', '\'']);
      OneStep(s3, '\"', ['\'']);
      OneStep(s4, '\'', []);
    } else {
      OneStep(s, c, []);
    }
  }

  lemma OneStep(s: State, c: char, rest: string)
    ensures Run(s, [c] + rest) == if Step(s, c).None? then None else Run(Step(s, c).value, rest)
  {
  }

  /** A quoted value continues the word in progress with exactly its characters. */
  lemma QuoteReads(s: State, value: string)
    requires s.mode.Unquoted?
    ensures Run(s, Quote(value)) == if '\0' in value then None else Some(s.(word := Some(Open(s) + Literal(value))))
  {
    hide Run, Escaping;
    var inside := s.(word := Some(Open(s)), mode := SingleQuoted);
    var quote: string := ['\''];
    assert Quote(value) == quote + (Escaping(value) + quote);
    OneStep(s, '\'', Escaping(value) + quote);
    assert Step(s, '\'') == Some(inside);
    EscapingReads(inside, value);
    RunAppend(inside, Escaping(value), quote);
    if '\0' !in value {
      var full := inside.(word := Some(Open(s) + Literal(value)));
      OneStep(full, '\'', []);
      assert quote + [] == quote;
      assert Step(full, '\'') == Some(full.(mode := Unquoted));
      NothingReads(full.(mode := Unquoted));
    }
  }

  lemma {:induction false} LiteralIsInjective(a: string, b: string)
    requires Literal(a) == Literal(b)
    ensures a == b
  {
    if a != [] && b != [] {
      assert Literal(a)[0] == Literal(b)[0];
      assert Literal(a)[1..] == Literal(a[1..]) && Literal(b)[1..] == Literal(b[1..]);
      LiteralIsInjective(a[1..], b[1..]);
    }
  }

  /** A shell reads a quoted value back as that one word, exactly if it holds no NUL. */
  lemma QuotedReadsBackIffNulFree(value: string)
    ensures Read(Quote(value)) == Some([Word(Literal(value))]) <==> '\0' !in value
  {
    hide Run;
    QuoteReads(START, value);
    assert [] + Literal(value) == Literal(value);
    assert START.tokens + [Word(Literal(value))] == [Word(Literal(value))];
  }

  // ---------------------------------------------------------------- several words

  /** A word built from plain text followed by a quoted value. */
  datatype Argument = Argument(plain: string, quoted: Option<string>)

  predicate IsOrdinary(c: char) {
    c !in {'\0', ' ', '\t', '\'', '\"', '\\', '#'} && !IsOperator(c) && !IsActive(c)
  }

  predicate Ordinary(text: string) { forall i :: 0 <= i < |text| ==> IsOrdinary(text[i]) }

  function Print(argument: Argument): string {
    argument.plain + (if argument.quoted.Some? then Quote(argument.quoted.value) else [])
  }

  function Meaning(argument: Argument): string {
    argument.plain + (if argument.quoted.Some? then argument.quoted.value else [])
  }

  predicate Printable(argument: Argument) {
    Ordinary(argument.plain) && (argument.plain != [] || argument.quoted.Some?) && (argument.quoted.Some? ==> '\0' !in argument.quoted.value)
  }

  function Join(arguments: seq<Argument>): string {
    if arguments == [] then []
    else if |arguments| == 1 then Print(arguments[0])
    else Print(arguments[0]) + " " + Join(arguments[1..])
  }

  function Words(arguments: seq<Argument>): seq<Token> {
    seq(|arguments|, i requires 0 <= i < |arguments| => Word(Literal(Meaning(arguments[i]))))
  }

  lemma OrdinaryStep(s: State, c: char)
    requires s.mode.Unquoted? && IsOrdinary(c)
    ensures Step(s, c) == Some(Grow(s, Lit(c), Unquoted))
  {
  }

  lemma {:induction false} OrdinaryReads(s: State, text: string)
    requires s.mode.Unquoted? && Ordinary(text) && text != []
    ensures Run(s, text) == Some(s.(word := Some(Open(s) + Literal(text))))
    decreases |text|
  {
    hide Step, IsOrdinary;
    var next := Grow(s, Lit(text[0]), Unquoted);
    OrdinaryStep(s, text[0]);
    if |text| == 1 {
      assert text[1..] == [];
      assert Literal(text) == [Lit(text[0])];
    } else {
      OrdinaryReads(next, text[1..]);
      assert Open(s) + [Lit(text[0])] + Literal(text[1..]) == Open(s) + Literal(text);
    }
  }

  lemma {:induction false} LiteralAppend(a: string, b: string)
    ensures Literal(a + b) == Literal(a) + Literal(b)
  {
    if a == [] {
      assert a + b == b;
    } else {
      assert (a + b)[1..] == a[1..] + b;
      LiteralAppend(a[1..], b);
    }
  }

  lemma ArgumentReads(s: State, argument: Argument)
    requires s.mode.Unquoted? && s.word.None? && Printable(argument)
    ensures Run(s, Print(argument)) == Some(s.(word := Some(Literal(Meaning(argument)))))
  {
    hide Run, Quote;
    var plain := argument.plain;
    var middle := if plain == [] then s else s.(word := Some(Literal(plain)));
    if plain == [] {
      NothingReads(s);
    } else {
      OrdinaryReads(s, plain);
      assert [] + Literal(plain) == Literal(plain);
    }
    if argument.quoted.Some? {
      RunAppend(s, plain, Quote(argument.quoted.value));
      QuoteReads(middle, argument.quoted.value);
      LiteralAppend(plain, argument.quoted.value);
      assert plain == [] ==> Open(middle) == Literal(plain);
    } else {
      assert plain + [] == plain;
    }
  }

  lemma NothingReads(s: State)
    ensures Run(s, []) == Some(s)
  {
  }

  lemma SpaceReads(s: State)
    requires s.mode.Unquoted?
    ensures Run(s, " ") == Some(Closed(s))
  {
  }

  /** Printed arguments read as their meanings, one word each. */
  lemma {:induction false} JoinReads(s: State, arguments: seq<Argument>)
    requires s.mode.Unquoted? && s.word.None? && forall a :: a in arguments ==> Printable(a)
    ensures Run(s, Join(arguments)).Some? && Run(s, Join(arguments)).value.mode.Unquoted? && Run(s, Join(arguments)).value.outer == s.outer
    ensures Closed(Run(s, Join(arguments)).value) == s.(tokens := s.tokens + Words(arguments))
    decreases |arguments|
  {
    hide Run, Print, Printable, Meaning;
    if arguments == [] {
      NothingReads(s);
      assert s.tokens + [] == s.tokens;
    } else {
      var first, rest := arguments[0], arguments[1..];
      ArgumentReads(s, first);
      var word := s.(word := Some(Literal(Meaning(first))));
      assert Words(arguments) == [Word(Literal(Meaning(first)))] + Words(rest);
      if |arguments| == 1 {
        assert rest == [];
      } else {
        RunAppend(s, Print(first) + " ", Join(rest));
        RunAppend(s, Print(first), " ");
        SpaceReads(word);
        JoinReads(Closed(word), rest);
        assert s.tokens + [Word(Literal(Meaning(first)))] + Words(rest) == s.tokens + Words(arguments);
      }
    }
  }

  // ---------------------------------------------------------------- joinShellArgs

  function Quoted(values: seq<string>): seq<Argument> {
    seq(|values|, i requires 0 <= i < |values| => Argument("", Some(values[i])))
  }

  function JoinStrings(parts: seq<string>): string {
    if parts == [] then [] else if |parts| == 1 then parts[0] else parts[0] + " " + JoinStrings(parts[1..])
  }

  lemma {:induction false} JoinOfQuoted(values: seq<string>, parts: seq<string>)
    requires |parts| == |values| && forall i :: 0 <= i < |parts| ==> parts[i] == Quote(values[i])
    ensures JoinStrings(parts) == Join(Quoted(values))
  {
    if values != [] {
      assert Quoted(values)[1..] == Quoted(values[1..]);
      assert "" + Quote(values[0]) == Quote(values[0]);
      JoinOfQuoted(values[1..], parts[1..]);
    }
  }

  method JoinShellArgs(values: seq<string>) returns (text: string)
    ensures text == Join(Quoted(values))
  {
    var parts := new string[|values|];
    for i := 0 to |values|
      invariant forall j :: 0 <= j < i ==> parts[j] == Quote(values[j])
    {
      parts[i] := Quote(values[i]);
    }
    JoinOfQuoted(values, parts[..]);
    text := JoinStrings(parts[..]);
  }

  function Literals(values: seq<string>): seq<Token> {
    seq(|values|, i requires 0 <= i < |values| => Word(Literal(values[i])))
  }

  /** A NUL in an argument makes the text unreadable; nothing else does. */
  lemma {:induction false} NulSpoils(s: State, values: seq<string>, i: nat)
    requires s.mode.Unquoted? && i < |values| && '\0' in values[i]
    ensures Run(s, Join(Quoted(values))).None?
    decreases |values|
  {
    hide Run, Quote;
    var all := Quoted(values);
    assert all[1..] == Quoted(values[1..]);
    assert Print(all[0]) == Quote(values[0]);
    QuoteReads(s, values[0]);
    if |values| > 1 {
      RunAppend(s, Print(all[0]) + " ", Join(all[1..]));
      RunAppend(s, Print(all[0]), " ");
      if i > 0 && '\0' !in values[0] {
        var word := s.(word := Some(Open(s) + Literal(values[0])));
        SpaceReads(word);
        NulSpoils(Closed(word), values[1..], i - 1);
      }
    }
  }

  /** Joined arguments read back as exactly the original list, if and only if none holds a NUL. */
  lemma JoinedReadsBackIffNulFree(values: seq<string>)
    ensures Read(Join(Quoted(values))) == Some(Literals(values)) <==> forall i :: 0 <= i < |values| ==> '\0' !in values[i]
  {
    hide Run, Join;
    if forall i :: 0 <= i < |values| ==> '\0' !in values[i] {
      JoinReads(START, Quoted(values));
      forall i | 0 <= i < |values|
        ensures Meaning(Quoted(values)[i]) == values[i]
      {
      }
      assert START.tokens + Words(Quoted(values)) == Literals(values);
    } else {
      var i :| 0 <= i < |values| && '\0' in values[i];
      NulSpoils(START, values, i);
    }
  }
}
