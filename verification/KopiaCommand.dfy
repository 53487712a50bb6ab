/**
 The Kopia snapshot command (kopiaSnapshotCommand, internal/adapter/ssh/compose.go:366-407):
 a script for the shell of the helper container, quoted once more for the shell of the
 Docker host.
 */
module KopiaCommand {
  import opened Wrappers
  import opened ShellQuoting

  /** What the validated specification provides; mount, identity and names are computed before. */
  datatype Spec = Spec(
    bucket: string, endpoint: string, region: string, prefix: string, tlsVerify: bool,
    password: string, accessKey: string, secretKey: string, caBundle: string, image: string,
    containerName: string, identity: string, mount: string, runId: string, sourceName: string)

  function RepositoryArgs(spec: Spec): seq<string> {
    ["--bucket=" + spec.bucket, "--endpoint=" + spec.endpoint, "--region=" + spec.region, "--prefix=" + spec.prefix] +
    (if spec.tlsVerify then [] else ["--disable-tls-verification"])
  }

  predicate NulFree(text: string) { '\0' !in text }

  predicate SpecNulFree(spec: Spec) {
    && NulFree(spec.bucket) && NulFree(spec.endpoint) && NulFree(spec.region) && NulFree(spec.prefix)
    && NulFree(spec.password) && NulFree(spec.accessKey) && NulFree(spec.secretKey) && NulFree(spec.caBundle) && NulFree(spec.image)
    && NulFree(spec.containerName) && NulFree(spec.identity) && NulFree(spec.mount) && NulFree(spec.runId) && NulFree(spec.sourceName)
  }

  // ---------------------------------------------------------------- the inner script

  const HEAD_0 := "set -eu; if [ -n "
  const VALUE_0 := "${ROOT_CA_PEM_BASE64:-}"
  const HEAD_1 := " ]; then printf %s "
  const VALUE_1 := "$ROOT_CA_PEM_BASE64"
  const HEAD_2 := " | base64 -d >/tmp/" + "sks-migration-root-ca.pem" + "; export SSL_CERT_FILE=/tmp/" + "sks-migration-root-ca.pem" + "; fi; "
  const CONNECT := "if ! kopia repository connect s3 "
  const CREATE := " >/dev/null 2>&1; then " + "kopia repository create s3 "
  const RECONNECT := " >/dev/null 2>&1 || " + "kopia repository connect s3 "
  const SNAPSHOT := " >/dev/null; fi; " + "kopia snapshot create /data --json "

  function InDoubleQuotes(text: string): string { "\"" + text + "\"" }

  function Head(): string { HEAD_0 + (InDoubleQuotes(VALUE_0) + (HEAD_1 + (InDoubleQuotes(VALUE_1) + (HEAD_2 + CONNECT)))) }

  function Tags(spec: Spec): seq<Argument> {
    [Argument("--tags=", Some("migrationRun:" + spec.runId)), Argument("--tags=", Some("volume:" + spec.sourceName))]
  }

  function Inner(spec: Spec): string {
    var args := Join(Quoted(RepositoryArgs(spec)));
    Head() + (args + (CREATE + (args + (RECONNECT + (args + (SNAPSHOT + Join(Tags(spec))))))))
  }

  // ---------------------------------------------------------------- the outer command

  const LABEL_OPTION := "migration." + "smartx.com/" + "operation="

  function Plain(text: string): Argument { Argument(text, None) }

  function RunHead(spec: Spec): seq<Argument> {
    [Plain("docker"), Plain("run"), Plain("-d"), Plain("--name"), Argument("", Some(spec.containerName)),
     Plain("--label"), Argument(LABEL_OPTION, Some(spec.identity)),
     Plain("--user"), Plain("0:0"), Plain("--entrypoint"), Plain("/bin/sh")]
  }

  function RunEnvironment(spec: Spec): seq<Argument> {
    [Plain("-e"), Argument("KOPIA_PASSWORD=", Some(spec.password)), Plain("-e"), Argument("AWS_ACCESS_KEY_ID=", Some(spec.accessKey)),
     Plain("-e"), Argument("AWS_SECRET_ACCESS_KEY=", Some(spec.secretKey)), Plain("-e"), Argument("ROOT_CA_PEM_BASE64=", Some(spec.caBundle))]
  }

  function RunTail(spec: Spec): seq<Argument> {
    [Plain("-v"), Argument("", Some(spec.mount)), Argument("", Some(spec.image)), Plain("-ec"), Argument("", Some(Inner(spec)))]
  }

  function RunArguments(spec: Spec): seq<Argument> { RunHead(spec) + RunEnvironment(spec) + RunTail(spec) }

  // ---------------------------------------------------------------- scripts are read from where they start

  function Shift(prefix: seq<Token>, s: State): State { s.(tokens := prefix + s.tokens) }

  lemma StepShifts(prefix: seq<Token>, s: State, c: char)
    ensures Step(Shift(prefix, s), c) == match Step(s, c) case None => None case Some(next) => Some(Shift(prefix, next))
  {
    assert prefix + (s.tokens + [Operator(c)]) == prefix + s.tokens + [Operator(c)];
    if s.word.Some? {
      assert prefix + (s.tokens + [Word(s.word.value)]) == prefix + s.tokens + [Word(s.word.value)];
      assert prefix + (s.tokens + [Word(s.word.value)] + [Operator(c)]) == prefix + s.tokens + [Word(s.word.value)] + [Operator(c)];
    }
  }

  /** What was read before does not change how a text is read. */
  lemma {:induction false} RunShifts(prefix: seq<Token>, s: State, text: string)
    ensures Run(Shift(prefix, s), text) == match Run(s, text) case None => None case Some(end) => Some(Shift(prefix, end))
    decreases |text|
  {
    hide Step;
    if text != [] {
      StepShifts(prefix, s, text[0]);
      if Step(s, text[0]).Some? {
        RunShifts(prefix, Step(s, text[0]).value, text[1..]);
      }
    }
  }

  /** A text that is read completely, from the start of a word to the start of a word. */
  ghost predicate IsScript(text: string) {
    Run(START, text).Some? && Run(START, text).value.mode.Unquoted? && Run(START, text).value.word.None? && Run(START, text).value.outer == []
  }

  ghost function Tokens(text: string): seq<Token>
    requires IsScript(text)
  {
    Run(START, text).value.tokens
  }

  lemma ScriptReads(s: State, text: string)
    requires s.mode.Unquoted? && s.word.None? && s.outer == [] && IsScript(text)
    ensures Run(s, text) == Some(s.(tokens := s.tokens + Tokens(text)))
  {
    assert Shift(s.tokens, START) == s;
    RunShifts(s.tokens, START, text);
  }

  // ---------------------------------------------------------------- the constant parts are scripts

  predicate Bare(text: string) { forall i :: 0 <= i < |text| ==> text[i] !in {'\0', '\'', '\"', '\\', '#', '(', ')'} }

  predicate Inside(text: string) { forall i :: 0 <= i < |text| ==> text[i] !in {'\0', '\"', '\\', '('} }

  lemma {:induction false} BareReads(s: State, text: string)
    requires s.mode.Unquoted? && Bare(text)
    ensures Run(s, text).Some? && Run(s, text).value.mode.Unquoted? && Run(s, text).value.outer == s.outer
    ensures text != [] && text[|text| - 1] == ' ' ==> Run(s, text).value.word.None?
    ensures text != [] && text[|text| - 1] == '$' ==> AfterDollar(Run(s, text).value)
    decreases |text|
  {
    if text != [] {
      assert text[0] !in {'\0', '\'', '\"', '\\', '#', '(', ')'};
      var next := Step(s, text[0]);
      assert next.Some? && next.value.mode.Unquoted?;
      if |text| > 1 {
        assert text[1..][|text[1..]| - 1] == text[|text| - 1];
      } else {
        NothingReads(next.value);
      }
      BareReads(next.value, text[1..]);
    }
  }

  lemma {:induction false} InsideReads(s: State, text: string)
    requires s.mode.DoubleQuoted? && Inside(text)
    ensures Run(s, text).Some? && Run(s, text).value.mode.DoubleQuoted? && Run(s, text).value.outer == s.outer
    decreases |text|
  {
    if text != [] {
      assert text[0] !in {'\0', '\"', '\\', '('};
      InsideReads(Step(s, text[0]).value, text[1..]);
    }
  }

  lemma InDoubleQuotesReads(s: State, text: string)
    requires s.mode.Unquoted? && Inside(text)
    ensures Run(s, InDoubleQuotes(text)).Some? && Run(s, InDoubleQuotes(text)).value.mode.Unquoted? && Run(s, InDoubleQuotes(text)).value.outer == s.outer
  {
    hide Run;
    var quote: string := ['\"'];
    assert InDoubleQuotes(text) == quote + (text + quote);
    var inside := s.(word := Some(Open(s)), mode := DoubleQuoted);
    assert Step(s, '\"') == Some(inside);
    OneStep(s, '\"', text + quote);
    RunAppend(inside, text, quote);
    InsideReads(inside, text);
    var end := Run(inside, text).value;
    assert quote + [] == quote;
    OneStep(end, '\"', []);
    NothingReads(end.(mode := Unquoted));
  }

  lemma BareAppend(a: string, b: string)
    requires Bare(a) && Bare(b)
    ensures Bare(a + b)
  {
  }

  lemma HeadIsBare()
    ensures Bare(HEAD_0) && Inside(VALUE_0) && Bare(HEAD_1)
  {
  }

  lemma ConnectIsBare()
    ensures Inside(VALUE_1) && Bare(CONNECT)
  {
  }

  lemma CertificatePartsAreBare()
    ensures Bare(" | base64 -d >/tmp/") && Bare("; export SSL_CERT_FILE=/tmp/") && Bare("; fi; ")
  {
  }

  lemma CertificateNameIsBare()
    ensures Bare("sks-migration-root-ca.pem")
  {
  }

  lemma CertificateIsBare()
    ensures Bare(HEAD_2)
  {
    hide Bare;
    var pem := "sks-migration-root-ca.pem";
    CertificatePartsAreBare();
    CertificateNameIsBare();
    BareAppend(" | base64 -d >/tmp/", pem);
    BareAppend(" | base64 -d >/tmp/" + pem, "; export SSL_CERT_FILE=/tmp/");
    BareAppend(" | base64 -d >/tmp/" + pem + "; export SSL_CERT_FILE=/tmp/", pem);
    BareAppend(" | base64 -d >/tmp/" + pem + "; export SSL_CERT_FILE=/tmp/" + pem, "; fi; ");
  }

  /** A bare text between blanks is a script. */
  lemma BareIsScript(text: string)
    requires Bare(text) && text != [] && text[|text| - 1] == ' '
    ensures IsScript(text)
  {
    BareReads(START, text);
  }

  lemma CreateIsScript()
    ensures IsScript(CREATE)
  {
    assert Bare(" >/dev/null 2>&1; then ") && Bare("kopia repository create s3 ");
    BareAppend(" >/dev/null 2>&1; then ", "kopia repository create s3 ");
    BareIsScript(CREATE);
  }

  lemma ReconnectIsScript()
    ensures IsScript(RECONNECT)
  {
    assert Bare(" >/dev/null 2>&1 || ") && Bare("kopia repository connect s3 ");
    BareAppend(" >/dev/null 2>&1 || ", "kopia repository connect s3 ");
    BareIsScript(RECONNECT);
  }

  lemma SnapshotIsScript()
    ensures IsScript(SNAPSHOT)
  {
    assert Bare(" >/dev/null; fi; ") && Bare("kopia snapshot create /data --json ");
    BareAppend(" >/dev/null; fi; ", "kopia snapshot create /data --json ");
    BareIsScript(SNAPSHOT);
  }

  lemma HeadIsScript()
    ensures IsScript(Head())
  {
    hide Run, Bare, Inside, InDoubleQuotes;
    HeadIsBare();
    CertificateIsBare();
    ConnectIsBare();
    var tail4 := HEAD_2 + CONNECT;
    var tail3 := InDoubleQuotes(VALUE_1) + tail4;
    var tail2 := HEAD_1 + tail3;
    var tail1 := InDoubleQuotes(VALUE_0) + tail2;
    BareReads(START, HEAD_0);
    RunAppend(START, HEAD_0, tail1);
    var s0 := Run(START, HEAD_0).value;
    InDoubleQuotesReads(s0, VALUE_0);
    RunAppend(s0, InDoubleQuotes(VALUE_0), tail2);
    var s1 := Run(s0, InDoubleQuotes(VALUE_0)).value;
    BareReads(s1, HEAD_1);
    RunAppend(s1, HEAD_1, tail3);
    var s2 := Run(s1, HEAD_1).value;
    InDoubleQuotesReads(s2, VALUE_1);
    RunAppend(s2, InDoubleQuotes(VALUE_1), tail4);
    var s3 := Run(s2, InDoubleQuotes(VALUE_1)).value;
    BareAppend(HEAD_2, CONNECT);
    assert tail4[|tail4| - 1] == ' ';
    BareReads(s3, tail4);
  }

  // ---------------------------------------------------------------- both shells

  lemma BlankCloses(s: State, text: string)
    requires s.mode.Unquoted? && text != [] && text[0] in {' ', ';'}
    ensures Run(s, text) == Run(Closed(s), text)
  {
  }

  /** Arguments, then a script that begins with a blank or a semicolon. */
  lemma ArgumentsThenScript(s: State, arguments: seq<Argument>, script: string)
    requires s.mode.Unquoted? && s.word.None? && s.outer == [] && forall a :: a in arguments ==> Printable(a)
    requires IsScript(script) && script != [] && script[0] in {' ', ';'}
    ensures Run(s, Join(arguments) + script) == Some(s.(tokens := s.tokens + Words(arguments) + Tokens(script)))
  {
    hide Run, Printable, Join, IsScript, Tokens;
    JoinReads(s, arguments);
    RunAppend(s, Join(arguments), script);
    var end := Run(s, Join(arguments)).value;
    BlankCloses(end, script);
    ScriptReads(Closed(end), script);
  }

  lemma QuotedArePrintable(values: seq<string>)
    requires forall v :: v in values ==> NulFree(v)
    ensures forall a :: a in Quoted(values) ==> Printable(a)
    ensures Words(Quoted(values)) == Literals(values)
  {
    forall i | 0 <= i < |values|
      ensures Meaning(Quoted(values)[i]) == values[i] && Printable(Quoted(values)[i])
    {
      assert values[i] in values;
    }
  }

  lemma TagsArePrintable(spec: Spec)
    requires SpecNulFree(spec)
    ensures forall a :: a in Tags(spec) ==> Printable(a)
  {
    assert Ordinary("--tags=");
    assert NulFree("migrationRun:") && NulFree("volume:");
  }

  lemma ArgsAreNulFree(spec: Spec)
    requires SpecNulFree(spec)
    ensures forall v :: v in RepositoryArgs(spec) ==> NulFree(v)
  {
    assert NulFree("--bucket=") && NulFree("--endpoint=") && NulFree("--region=") && NulFree("--prefix=") && NulFree("--disable-tls-verification");
  }

  /** The helper's shell reads the repository arguments back three times, unchanged, and both tags. */
  lemma InnerReads(spec: Spec)
    requires SpecNulFree(spec)
    ensures IsScript(Head()) && IsScript(CREATE) && IsScript(RECONNECT) && IsScript(SNAPSHOT)
    ensures var args := Literals(RepositoryArgs(spec));
            Read(Inner(spec)) == Some(
              Tokens(Head()) + args + Tokens(CREATE) + args + Tokens(RECONNECT) + args + Tokens(SNAPSHOT) +
              [Word(Literal("--tags=migrationRun:" + spec.runId)), Word(Literal("--tags=volume:" + spec.sourceName))])
  {
    hide Run, Join, Quoted, Words, Literals, IsScript, Tokens, Head, Printable, RepositoryArgs, SpecNulFree;
    HeadIsScript();
    CreateIsScript();
    ReconnectIsScript();
    SnapshotIsScript();
    ArgsAreNulFree(spec);
    QuotedArePrintable(RepositoryArgs(spec));
    var quoted := Quoted(RepositoryArgs(spec));
    var args := Join(quoted);
    var s0 := START.(tokens := START.tokens + Tokens(Head()));
    var s1 := s0.(tokens := s0.tokens + Words(quoted) + Tokens(CREATE));
    var s2 := s1.(tokens := s1.tokens + Words(quoted) + Tokens(RECONNECT));
    var s3 := s2.(tokens := s2.tokens + Words(quoted) + Tokens(SNAPSHOT));
    var last := Join(Tags(spec));
    var rest2 := args + (SNAPSHOT + last);
    var rest1 := args + (RECONNECT + rest2);
    var rest0 := args + (CREATE + rest1);
    ScriptReads(START, Head());
    RunAppend(START, Head(), rest0);
    ArgumentsThenScript(s0, quoted, CREATE);
    Regroup(s0, args, CREATE, rest1);
    ArgumentsThenScript(s1, quoted, RECONNECT);
    Regroup(s1, args, RECONNECT, rest2);
    ArgumentsThenScript(s2, quoted, SNAPSHOT);
    Regroup(s2, args, SNAPSHOT, last);
    TagsArePrintable(spec);
    JoinReads(s3, Tags(spec));
    TagWords(spec);
    assert START.tokens + Tokens(Head()) == Tokens(Head());
  }

  lemma TagWords(spec: Spec)
    ensures Words(Tags(spec)) == [Word(Literal("--tags=migrationRun:" + spec.runId)), Word(Literal("--tags=volume:" + spec.sourceName))]
  {
    assert "--tags=" + ("migrationRun:" + spec.runId) == "--tags=migrationRun:" + spec.runId;
    assert "--tags=" + ("volume:" + spec.sourceName) == "--tags=volume:" + spec.sourceName;
  }

  lemma Regroup(s: State, a: string, b: string, c: string)
    requires Run(s, a + b).Some?
    ensures Run(s, a + (b + c)) == Run(Run(s, a + b).value, c)
  {
    assert a + (b + c) == (a + b) + c;
    RunAppend(s, a + b, c);
  }

  /** What the Docker host's shell must pass on. */
  function HeadWords(spec: Spec): seq<string> {
    ["docker", "run", "-d", "--name", spec.containerName, "--label", LABEL_OPTION + spec.identity,
     "--user", "0:0", "--entrypoint", "/bin/sh"]
  }

  function EnvironmentWords(spec: Spec): seq<string> {
    ["-e", "KOPIA_PASSWORD=" + spec.password, "-e", "AWS_ACCESS_KEY_ID=" + spec.accessKey,
     "-e", "AWS_SECRET_ACCESS_KEY=" + spec.secretKey, "-e", "ROOT_CA_PEM_BASE64=" + spec.caBundle]
  }

  function TailWords(spec: Spec): seq<string> { ["-v", spec.mount, spec.image, "-ec", Inner(spec)] }

  function RunWords(spec: Spec): seq<string> { HeadWords(spec) + EnvironmentWords(spec) + TailWords(spec) }

  lemma MeaningOf(argument: Argument)
    ensures Meaning(argument) ==
            if argument.quoted.None? then argument.plain
            else if argument.plain == "" then argument.quoted.value
            else argument.plain + argument.quoted.value
  {
  }

  lemma HeadMeanings(spec: Spec)
    ensures Words(RunHead(spec)) == Literals(HeadWords(spec))
  {
    hide Literal, Meaning;
    forall i | 0 <= i < |RunHead(spec)|
      ensures Meaning(RunHead(spec)[i]) == HeadWords(spec)[i]
    {
      MeaningOf(RunHead(spec)[i]);
    }
  }

  lemma EnvironmentMeanings(spec: Spec)
    ensures Words(RunEnvironment(spec)) == Literals(EnvironmentWords(spec))
  {
    hide Literal, Meaning;
    forall i | 0 <= i < |RunEnvironment(spec)|
      ensures Meaning(RunEnvironment(spec)[i]) == EnvironmentWords(spec)[i]
    {
      MeaningOf(RunEnvironment(spec)[i]);
    }
  }

  lemma TailMeanings(spec: Spec)
    ensures Words(RunTail(spec)) == Literals(TailWords(spec))
  {
    hide Literal, Inner, Meaning;
    forall i | 0 <= i < |RunTail(spec)|
      ensures Meaning(RunTail(spec)[i]) == TailWords(spec)[i]
    {
      MeaningOf(RunTail(spec)[i]);
    }
  }

  lemma RunMeanings(spec: Spec)
    ensures Words(RunArguments(spec)) == Literals(RunWords(spec))
  {
    hide RunHead, RunEnvironment, RunTail, HeadWords, EnvironmentWords, TailWords, Literal, Meaning;
    HeadMeanings(spec);
    EnvironmentMeanings(spec);
    TailMeanings(spec);
    assert Words(RunArguments(spec)) == Words(RunHead(spec)) + Words(RunEnvironment(spec)) + Words(RunTail(spec));
    assert Literals(RunWords(spec)) == Literals(HeadWords(spec)) + Literals(EnvironmentWords(spec)) + Literals(TailWords(spec));
  }

  lemma NamesAreOrdinary()
    ensures Ordinary("docker") && Ordinary("run") && Ordinary("-d") && Ordinary("--name") && Ordinary("--label")
  {
  }

  lemma OptionsAreOrdinary()
    ensures Ordinary("--user") && Ordinary("0:0") && Ordinary("--entrypoint") && Ordinary("/bin/sh")
  {
  }

  lemma OrdinaryAppend(a: string, b: string)
    requires Ordinary(a) && Ordinary(b)
    ensures Ordinary(a + b)
  {
    hide IsOrdinary;
  }

  lemma LabelIsOrdinary()
    ensures Ordinary(LABEL_OPTION)
  {
    assert Ordinary("migration.") && Ordinary("smartx.com/") && Ordinary("operation=");
    OrdinaryAppend("migration.", "smartx.com/");
    OrdinaryAppend("migration." + "smartx.com/", "operation=");
  }

  lemma VariablesAreOrdinary()
    ensures Ordinary("-e") && Ordinary("KOPIA_PASSWORD=") && Ordinary("AWS_ACCESS_KEY_ID=")
  {
  }

  lemma SecretVariableIsOrdinary()
    ensures Ordinary("AWS_SECRET_ACCESS_KEY=")
  {
  }

  lemma CertificateVariableIsOrdinary()
    ensures Ordinary("ROOT_CA_PEM_BASE64=")
  {
  }

  lemma FlagsAreOrdinary()
    ensures Ordinary("-v") && Ordinary("-ec") && Ordinary("")
  {
  }

  /** A text the inner shell can read holds no NUL. */
  lemma {:induction false} ReadableIsNulFree(s: State, text: string)
    requires Run(s, text).Some?
    ensures NulFree(text)
    decreases |text|
  {
    hide Step;
    if text != [] {
      NulStops(s);
      assert text == [text[0]] + text[1..];
      ReadableIsNulFree(Step(s, text[0]).value, text[1..]);
    }
  }

  lemma NulStops(s: State)
    ensures Step(s, '\0').None?
  {
  }

  lemma RunHeadIsPrintable(spec: Spec)
    requires SpecNulFree(spec)
    ensures forall a :: a in RunHead(spec) ==> Printable(a)
  {
    hide Ordinary;
    NamesAreOrdinary();
    OptionsAreOrdinary();
    LabelIsOrdinary();
    FlagsAreOrdinary();
  }

  lemma RunEnvironmentIsPrintable(spec: Spec)
    requires SpecNulFree(spec)
    ensures forall a :: a in RunEnvironment(spec) ==> Printable(a)
  {
    hide Ordinary;
    VariablesAreOrdinary();
    SecretVariableIsOrdinary();
    CertificateVariableIsOrdinary();
  }

  lemma RunTailIsPrintable(spec: Spec)
    requires SpecNulFree(spec)
    ensures forall a :: a in RunTail(spec) ==> Printable(a)
  {
    hide Inner, Run, Ordinary;
    FlagsAreOrdinary();
    InnerReads(spec);
    ReadableIsNulFree(START, Inner(spec));
  }

  lemma RunArgumentsArePrintable(spec: Spec)
    requires SpecNulFree(spec)
    ensures forall a :: a in RunArguments(spec) ==> Printable(a)
  {
    hide RunHead, RunEnvironment, RunTail, Printable, SpecNulFree;
    RunHeadIsPrintable(spec);
    RunEnvironmentIsPrintable(spec);
    RunTailIsPrintable(spec);
  }
}
