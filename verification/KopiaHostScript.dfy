/**
 The whole script sent to the Docker host (internal/adapter/ssh/compose.go:402-406): it
 reconnects to a helper that is there, or starts one in a command substitution, waits for
 it and removes it. KopiaCommand holds the docker run inside.
 */
module KopiaHostScript {
  import opened Wrappers
  import opened ShellQuoting
  import opened KopiaCommand

  const SET := "set -eu; "
  const INSPECT := "; if docker container " + "inspect "
  const NAME := "$name"
  const THEN_TEST := " >/dev/null 2>&1; then test "
  const FORMAT_OF := "docker inspect --format "
  const LABEL := "{{index .Config.Labels " + "\"migration.smartx.com/operation\"" + "}}"
  const EQUALS := " = "
  const ELSE := "; id=$name; else id=$"
  const WAIT := "; fi; code=$"
  const DOCKER_WAIT := "docker wait "
  const ID := "$id"
  const LOGS := "; docker logs "
  const REMOVE := "; docker rm "
  const TEST := " >/dev/null; test "
  const CODE := "$code"
  const ZERO := " = 0"

  /** Compares the label of a helper that is there with the identity that follows. */
  function Check(): string {
    INSPECT + (InDoubleQuotes(NAME) + (THEN_TEST + ("\"$(" + (FORMAT_OF + (Quote(LABEL) + (" " + (InDoubleQuotes(NAME) + (")\"" + EQUALS))))))))
  }

  function OpenRun(): string { ELSE + "(" }

  function Tail(): string {
    ")" + (WAIT + ("(" + (DOCKER_WAIT + (InDoubleQuotes(ID) + (")" + (LOGS + (InDoubleQuotes(ID) +
    (REMOVE + (InDoubleQuotes(ID) + (TEST + (InDoubleQuotes(CODE) + ZERO)))))))))))
  }

  function NameIs(spec: Spec): seq<Argument> { [Argument("name=", Some(spec.containerName))] }

  function IdentityIs(spec: Spec): seq<Argument> { [Argument("", Some(spec.identity))] }

  function HostScript(spec: Spec): string {
    SET + (Join(NameIs(spec)) + (Check() + (Join(IdentityIs(spec)) + (OpenRun() + (Join(RunArguments(spec)) + Tail())))))
  }

  // ---------------------------------------------------------------- substitutions

  lemma Opens(s: State)
    requires s.mode.Unquoted? && AfterDollar(s)
    ensures Run(s, "(") == Some(Enter(s))
  {
    OneStep(s, '(', []);
    assert ['('] + [] == "(";
  }

  lemma Closes(s: State)
    requires s.mode.Unquoted? && s.outer != []
    ensures Run(s, ")") == Some(Leave(s))
  {
    OneStep(s, ')', []);
    assert [')'] + [] == ")";
  }

  lemma OpensQuoted(s: State)
    requires s.mode.Unquoted?
    ensures var end := Run(s, "\"$(");
            end.Some? && end.value.mode.Unquoted? && end.value.word.None?
            && exists word :: end.value.outer == [Outer(word, DoubleQuoted)] + s.outer
  {
    hide Run;
    var s1 := s.(word := Some(Open(s)), mode := DoubleQuoted);
    var s2 := Grow(s1, Active('$'), DoubleQuoted);
    assert Step(s, '\"') == Some(s1) && Step(s1, '$') == Some(s2) && Step(s2, '(') == Some(Enter(s2));
    OneStep(s, '\"', ['$', '(']);
    OneStep(s1, '$', ['(']);
    OneStep(s2, '(', []);
    assert ['\"'] + ['$', '('] == "\"$(" && ['$'] + ['('] == ['$', '('] && ['('] + [] == ['('];
    NothingReads(Enter(s2));
  }

  lemma ClosesQuoted(s: State)
    requires s.mode.Unquoted? && s.outer != [] && s.outer[0].mode.DoubleQuoted?
    ensures var end := Run(s, ")\"");
            end.Some? && end.value.mode.Unquoted? && end.value.outer == s.outer[1..]
  {
    hide Run;
    var s1 := Leave(s);
    assert Step(s, ')') == Some(s1) && Step(s1, '\"') == Some(s1.(mode := Unquoted));
    OneStep(s, ')', ['\"']);
    OneStep(s1, '\"', []);
    assert [')'] + ['\"'] == ")\"" && ['\"'] + [] == ['\"'];
    NothingReads(s1.(mode := Unquoted));
  }

  // ---------------------------------------------------------------- the constant parts

  lemma CheckPartsAreBare()
    ensures Bare(SET) && Bare(INSPECT) && Inside(NAME) && Bare(EQUALS)
  {
    assert Bare("; if docker container ") && Bare("inspect ");
    BareAppend("; if docker container ", "inspect ");
  }

  lemma FormatPartsAreBare()
    ensures Bare(THEN_TEST) && Bare(FORMAT_OF)
  {
  }

  lemma LabelIsNulFree()
    ensures '\0' !in LABEL
  {
    assert '\0' !in "{{index .Config.Labels " && '\0' !in "\"migration.smartx.com/operation\"" && '\0' !in "}}";
  }

  lemma RunPartsAreBare()
    ensures Bare(ELSE) && Bare(WAIT) && Bare(DOCKER_WAIT) && Inside(ID)
  {
  }

  lemma EndPartsAreBare()
    ensures Bare(LOGS) && Bare(REMOVE) && Bare(TEST) && Inside(CODE) && Bare(ZERO)
  {
  }

  lemma SetIsScript()
    ensures IsScript(SET)
  {
    CheckPartsAreBare();
    BareIsScript(SET);
  }

  lemma CheckIsScript()
    ensures IsScript(Check())
  {
    hide Run, Bare, Inside, InDoubleQuotes, Quote;
    CheckPartsAreBare();
    FormatPartsAreBare();
    LabelIsNulFree();
    var t7 := ")\"" + EQUALS;
    var t6 := InDoubleQuotes(NAME) + t7;
    var t5 := " " + t6;
    var t4 := Quote(LABEL) + t5;
    var t3 := FORMAT_OF + t4;
    var t2 := "\"$(" + t3;
    var t1 := THEN_TEST + t2;
    var t0 := InDoubleQuotes(NAME) + t1;
    RunAppend(START, INSPECT, t0);
    BareReads(START, INSPECT);
    var s0 := Run(START, INSPECT).value;
    RunAppend(s0, InDoubleQuotes(NAME), t1);
    InDoubleQuotesReads(s0, NAME);
    var s1 := Run(s0, InDoubleQuotes(NAME)).value;
    RunAppend(s1, THEN_TEST, t2);
    BareReads(s1, THEN_TEST);
    var s2 := Run(s1, THEN_TEST).value;
    RunAppend(s2, "\"$(", t3);
    OpensQuoted(s2);
    var s3 := Run(s2, "\"$(").value;
    RunAppend(s3, FORMAT_OF, t4);
    BareReads(s3, FORMAT_OF);
    var s4 := Run(s3, FORMAT_OF).value;
    RunAppend(s4, Quote(LABEL), t5);
    QuoteReads(s4, LABEL);
    var s5 := Run(s4, Quote(LABEL)).value;
    RunAppend(s5, " ", t6);
    SpaceReads(s5);
    var s6 := Closed(s5);
    RunAppend(s6, InDoubleQuotes(NAME), t7);
    InDoubleQuotesReads(s6, NAME);
    var s7 := Run(s6, InDoubleQuotes(NAME)).value;
    RunAppend(s7, ")\"", EQUALS);
    ClosesQuoted(s7);
    var s8 := Run(s7, ")\"").value;
    BareReads(s8, EQUALS);
  }

  /** The text before docker run leaves a substitution open, at the start of a word. */
  lemma OpenRunReads()
    ensures var end := Run(START, OpenRun());
            end.Some? && end.value.mode.Unquoted? && end.value.word.None? && exists word :: end.value.outer == [Outer(word, Unquoted)]
  {
    hide Run, Bare;
    RunPartsAreBare();
    RunAppend(START, ELSE, "(");
    BareReads(START, ELSE);
    var s := Run(START, ELSE).value;
    Opens(s);
    assert Enter(s).outer == [Outer(s.word, Unquoted)] + [] == [Outer(s.word, Unquoted)];
  }

  /** The text after it closes that one, opens and closes another, and ends the script. */
  lemma TailReads(s: State)
    requires s.mode.Unquoted? && |s.outer| == 1 && s.outer[0].mode.Unquoted?
    ensures var end := Run(s, Tail()); end.Some? && end.value.mode.Unquoted? && end.value.outer == []
  {
    hide Run, Bare, Inside, InDoubleQuotes;
    RunPartsAreBare();
    EndPartsAreBare();
    var t10 := InDoubleQuotes(CODE) + ZERO;
    var t9 := TEST + t10;
    var t8 := InDoubleQuotes(ID) + t9;
    var t7 := REMOVE + t8;
    var t6 := InDoubleQuotes(ID) + t7;
    var t5 := LOGS + t6;
    var t4 := ")" + t5;
    var t3 := InDoubleQuotes(ID) + t4;
    var t2 := DOCKER_WAIT + t3;
    var t1 := "(" + t2;
    var t0 := WAIT + t1;
    RunAppend(s, ")", t0);
    Closes(s);
    var s0 := Leave(s);
    RunAppend(s0, WAIT, t1);
    BareReads(s0, WAIT);
    var s1 := Run(s0, WAIT).value;
    RunAppend(s1, "(", t2);
    Opens(s1);
    var s2 := Enter(s1);
    RunAppend(s2, DOCKER_WAIT, t3);
    BareReads(s2, DOCKER_WAIT);
    var s3 := Run(s2, DOCKER_WAIT).value;
    RunAppend(s3, InDoubleQuotes(ID), t4);
    InDoubleQuotesReads(s3, ID);
    var s4 := Run(s3, InDoubleQuotes(ID)).value;
    RunAppend(s4, ")", t5);
    Closes(s4);
    EndReads(Leave(s4), t5);
  }

  lemma EndReads(s: State, text: string)
    requires s.mode.Unquoted? && s.outer == []
    requires text == LOGS + (InDoubleQuotes(ID) + (REMOVE + (InDoubleQuotes(ID) + (TEST + (InDoubleQuotes(CODE) + ZERO)))))
    ensures Run(s, text).Some? && Run(s, text).value.mode.Unquoted? && Run(s, text).value.outer == []
  {
    hide Run, Bare, Inside, InDoubleQuotes;
    RunPartsAreBare();
    EndPartsAreBare();
    var t4 := InDoubleQuotes(CODE) + ZERO;
    var t3 := TEST + t4;
    var t2 := InDoubleQuotes(ID) + t3;
    var t1 := REMOVE + t2;
    var t0 := InDoubleQuotes(ID) + t1;
    RunAppend(s, LOGS, t0);
    BareReads(s, LOGS);
    var s0 := Run(s, LOGS).value;
    RunAppend(s0, InDoubleQuotes(ID), t1);
    InDoubleQuotesReads(s0, ID);
    var s1 := Run(s0, InDoubleQuotes(ID)).value;
    RunAppend(s1, REMOVE, t2);
    BareReads(s1, REMOVE);
    var s2 := Run(s1, REMOVE).value;
    RunAppend(s2, InDoubleQuotes(ID), t3);
    InDoubleQuotesReads(s2, ID);
    var s3 := Run(s2, InDoubleQuotes(ID)).value;
    RunAppend(s3, TEST, t4);
    BareReads(s3, TEST);
    var s4 := Run(s3, TEST).value;
    RunAppend(s4, InDoubleQuotes(CODE), ZERO);
    InDoubleQuotesReads(s4, CODE);
    BareReads(Run(s4, InDoubleQuotes(CODE)).value, ZERO);
  }

  // ---------------------------------------------------------------- the whole script

  /** What is read of a text that can be read. */
  ghost function End(s: State, text: string): State {
    var end := Run(s, text);
    if end.Some? then end.value else s
  }

  /** What the shell has read when it comes to docker run, apart from what was before. */
  ghost function Opened(): State { End(START, OpenRun()) }

  /** The tokens of the tail, read inside that substitution. */
  ghost function TailTokens(): seq<Token> { Closed(End(Opened().(tokens := []), Tail())).tokens }

  /** A word in progress when a substitution is closed is the last word inside. */
  lemma ParenthesisCloses(s: State, text: string)
    requires s.mode.Unquoted? && s.outer != [] && text != [] && text[0] == ')'
    ensures Run(s, text) == Run(Closed(s), text)
  {
    assert Step(s, ')') == Step(Closed(s), ')') == Some(Leave(s));
  }

  lemma ClosedShifts(prefix: seq<Token>, s: State)
    ensures Closed(Shift(prefix, s)).tokens == prefix + Closed(s).tokens
  {
  }

  /** From the open substitution on: the arguments of docker run, each one word, then the tail. */
  lemma RunAndTailRead(s: State, spec: Spec)
    requires SpecNulFree(spec)
    requires s == Shift(s.tokens, Opened().(tokens := []))
    requires s.mode.Unquoted? && s.word.None? && |s.outer| == 1 && s.outer[0].mode.Unquoted?
    ensures Run(Opened().(tokens := []), Tail()).Some?
    ensures var end := Run(s, Join(RunArguments(spec)) + Tail());
            && end.Some? && end.value.mode.Unquoted? && end.value.outer == []
            && Closed(end.value).tokens == s.tokens + Literals(RunWords(spec)) + TailTokens()
  {
    hide Run, Join, RunArguments, RunWords, Literals, Words, SpecNulFree, Printable, OpenRun, Tail;
    RunArgumentsArePrintable(spec);
    RunMeanings(spec);
    JoinReads(s, RunArguments(spec));
    var end := Run(s, Join(RunArguments(spec))).value;
    RunAppend(s, Join(RunArguments(spec)), Tail());
    TailBegins();
    ParenthesisCloses(end, Tail());
    var base := Opened().(tokens := []);
    var read := s.tokens + Literals(RunWords(spec));
    assert Closed(end) == Shift(read, base);
    TailReads(base);
    RunShifts(read, base, Tail());
    ClosedShifts(read, Run(base, Tail()).value);
  }

  lemma TailBegins()
    ensures Tail() != [] && Tail()[0] == ')'
    ensures OpenRun() != [] && OpenRun()[0] == ';' && Check() != [] && Check()[0] == ';'
  {
  }

  lemma NameAndIdentityArePrintable(spec: Spec)
    requires SpecNulFree(spec)
    ensures forall a :: a in NameIs(spec) + IdentityIs(spec) ==> Printable(a)
    ensures Words(NameIs(spec)) == [Word(Literal("name=" + spec.containerName))] && Words(IdentityIs(spec)) == [Word(Literal(spec.identity))]
  {
    hide Literal;
    assert Ordinary("name=") && Ordinary("");
    assert "" + spec.identity == spec.identity;
  }

  /**
   The doubly quoted command as it is sent unquotes twice to its original arguments. The
   host's shell reads name and identity as they are and, inside the substitution, the
   words of docker run, the last of them being the helper's script; the helper's shell
   reads every repository argument and tag out of that. Everything else is constant.
   */
  lemma ArgumentsSurviveBothShells(spec: Spec)
    requires SpecNulFree(spec)
    ensures IsScript(SET) && IsScript(Check()) && Run(START, OpenRun()).Some? && Run(Opened().(tokens := []), Tail()).Some?
    ensures Read(HostScript(spec)) == Some(
              Tokens(SET) + [Word(Literal("name=" + spec.containerName))] + Tokens(Check()) + [Word(Literal(spec.identity))] +
              Opened().tokens + Literals(RunWords(spec)) + TailTokens())
    ensures RunWords(spec)[|RunWords(spec)| - 2..] == ["-ec", Inner(spec)]
    ensures IsScript(Head()) && IsScript(CREATE) && IsScript(RECONNECT) && IsScript(SNAPSHOT)
    ensures var args := Literals(RepositoryArgs(spec));
            Read(Inner(spec)) == Some(
              Tokens(Head()) + args + Tokens(CREATE) + args + Tokens(RECONNECT) + args + Tokens(SNAPSHOT) +
              [Word(Literal("--tags=migrationRun:" + spec.runId)), Word(Literal("--tags=volume:" + spec.sourceName))])
  {
    hide Run, Join, RunArguments, Literals, Words, IsScript, Tokens, SpecNulFree, Printable, OpenRun, Tail, Check, NameIs, IdentityIs, Inner, TailTokens;
    SetIsScript();
    CheckIsScript();
    OpenRunReads();
    TailBegins();
    NameAndIdentityArePrintable(spec);
    var name, identity := NameIs(spec), IdentityIs(spec);
    var runs := Join(RunArguments(spec)) + Tail();
    var opens := OpenRun() + runs;
    var rest := Join(identity) + opens;
    var checks := Check() + rest;
    var s0 := START.(tokens := START.tokens + Tokens(SET));
    ScriptReads(START, SET);
    RunAppend(START, SET, Join(name) + checks);
    ArgumentsThenScript(s0, name, Check());
    Regroup(s0, Join(name), Check(), rest);
    var s1 := s0.(tokens := s0.tokens + Words(name) + Tokens(Check()));
    JoinReads(s1, identity);
    RunAppend(s1, Join(identity), opens);
    var end := Run(s1, Join(identity)).value;
    BlankCloses(end, opens);
    var s2 := s1.(tokens := s1.tokens + Words(identity));
    RunAppend(s2, OpenRun(), runs);
    RunShifts(s2.tokens, START, OpenRun());
    assert Shift(s2.tokens, START) == s2;
    var s3 := Shift(s2.tokens, Opened());
    RunAndTailRead(s3, spec);
    InnerReads(spec);
    assert START.tokens + Tokens(SET) == Tokens(SET);
  }

  // ---------------------------------------------------------------- what is sent

  /** The words of docker run, as they reach the container runtime. */
  lemma RunWordsAre(spec: Spec)
    ensures RunWords(spec) ==
            ["docker", "run", "-d", "--name", spec.containerName, "--label", "migration." + "smartx.com/" + "operation=" + spec.identity,
             "--user", "0:0", "--entrypoint", "/bin/sh",
             "-e", "KOPIA_PASSWORD=" + spec.password, "-e", "AWS_ACCESS_KEY_ID=" + spec.accessKey,
             "-e", "AWS_SECRET_ACCESS_KEY=" + spec.secretKey, "-e", "ROOT_CA_PEM_BASE64=" + spec.caBundle,
             "-v", spec.mount, spec.image, "-ec", Inner(spec)]
    ensures RepositoryArgs(spec) ==
            ["--bucket=" + spec.bucket, "--endpoint=" + spec.endpoint, "--region=" + spec.region, "--prefix=" + spec.prefix] +
            (if spec.tlsVerify then [] else ["--disable-tls-verification"])
  {
    hide Inner;
  }

  /** Between the quoted values the helper's script is this text. */
  lemma InnerIs(spec: Spec)
    ensures var args := Join(Quoted(RepositoryArgs(spec)));
            Inner(spec) ==
            ("set -eu; if [ -n " + (("\"" + "${ROOT_CA_PEM_BASE64:-}" + "\"") + (" ]; then printf %s " + (("\"" + "$ROOT_CA_PEM_BASE64" + "\"") +
            ((" | base64 -d >/tmp/" + "sks-migration-root-ca.pem" + "; export SSL_CERT_FILE=/tmp/" + "sks-migration-root-ca.pem" + "; fi; ") +
            "if ! kopia repository connect s3 "))))) + (args + ((" >/dev/null 2>&1; then " + "kopia repository create s3 ") +
            (args + ((" >/dev/null 2>&1 || " + "kopia repository connect s3 ") + (args + ((" >/dev/null; fi; " + "kopia snapshot create /data --json ") +
            ("--tags=" + Quote("migrationRun:" + spec.runId) + " " + ("--tags=" + Quote("volume:" + spec.sourceName)))))))))
  {
    hide Quote, RepositoryArgs;
    var first, second := Argument("--tags=", Some("migrationRun:" + spec.runId)), Argument("--tags=", Some("volume:" + spec.sourceName));
    TwoArguments(first, second);
  }

  lemma TwoArguments(a: Argument, b: Argument)
    ensures Join([a, b]) == Print(a) + " " + Print(b)
  {
    assert [a, b][1..] == [b];
  }

  /** And the script of the host is this text. */
  lemma HostScriptIs(spec: Spec)
    ensures HostScript(spec) ==
            "set -eu; " + (("name=" + Quote(spec.containerName)) + ((("; if docker container " + "inspect ") + (("\"" + "$name" + "\"") +
            (" >/dev/null 2>&1; then test " + ("\"$(" + ("docker inspect --format " + (Quote("{{index .Config.Labels " +
            "\"migration.smartx.com/operation\"" + "}}") + (" " + (("\"" + "$name" + "\"") + ((")\"" + " = ")))))))))) + (Quote(spec.identity) +
            (("; id=$name; else id=$" + "(") + (Join(RunArguments(spec)) + (")" + ("; fi; code=$" + ("(" + ("docker wait " + (("\"" + "$id" + "\"") +
            (")" + ("; docker logs " + (("\"" + "$id" + "\"") + ("; docker rm " + (("\"" + "$id" + "\"") + (" >/dev/null; test " + (("\"" + "$code" +
            "\"") + (" = 0"))))))))))))))))))
  {
    hide Quote, Join, RunArguments;
    OneArgument(Argument("name=", Some(spec.containerName)));
    OneArgument(Argument("", Some(spec.identity)));
    assert "" + Quote(spec.identity) == Quote(spec.identity);
  }

  lemma OneArgument(a: Argument)
    ensures Join([a]) == Print(a)
  {
  }
}
