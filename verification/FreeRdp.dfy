/** The argument list FreeRDP reads from its standard input, one argument a line. */
module FreeRdp {
  import opened Options
  import opened Strings
  import opened Hosts

  // A decoded configuration; fields missing from the JSON have their defaults.
  datatype Config = Config(
    fullscreen: bool, dynamic: bool, audio: bool, microphone: bool, clipboard: bool, drives: bool, printers: bool,
    smartcards: bool, reconnect: bool, certificateName: string, certificateMode: string)

  // `config` is None when the JSON does not decode.
  datatype Manifest = Manifest(
    host: string, port: int, credentialType: string, username: string, password: string, config: Option<Config>)

  predicate OneLine(s: string) {
    '\r' !in s && '\n' !in s
  }

  function HomeOf(environment: string): string {
    if environment == "" then "/home/thinpi" else environment
  }

  function ModeOf(c: Config): string {
    if c.certificateMode == "" then "tofu" else c.certificateMode
  }

  predicate Accepted(m: Manifest, environment: string) {
    && ValidHost(m.host, m.port)
    && m.credentialType != "ssh_private_key"
    && OneLine(m.username) && OneLine(m.password)
    && m.config.Some?
    && var c := m.config.value;
    && (c.drives ==> OneLine(HomeOf(environment)))
    && OneLine(c.certificateName) && '/' !in c.certificateName
    && (ModeOf(c) == "tofu" || ModeOf(c) == "deny" || ModeOf(c) == "ignore")
  }

  function HostPort(host: string, port: nat): string {
    if ':' in host then "[" + host + "]:" + Itoa(port) else host + ":" + Itoa(port)
  }

  // ---- The argument list ----

  const LINES: nat := 14

  function When(condition: bool, line: string): Option<string> {
    if condition then Some(line) else None
  }

  // The line in place `k`, if there is one.
  function Line(m: Manifest, environment: string, k: nat): Option<string>
    requires Accepted(m, environment)
  {
    var c := m.config.value;
    match k
    case 0 => Some("/v:" + HostPort(m.host, m.port))
    case 1 => When(m.username != "", "/u:" + m.username)
    case 2 => When(m.password != "", "/p:" + m.password)
    case 3 => When(c.fullscreen, "/f")
    case 4 => When(c.dynamic, "/dynamic-resolution")
    case 5 => When(c.audio, "/sound")
    case 6 => When(c.microphone, "/microphone")
    case 7 => Some("+clipboard")
    case 8 => When(c.drives, "/drive:home," + HomeOf(environment))
    case 9 => When(c.printers, "+printer")
    case 10 => When(c.smartcards, "/smartcard")
    case 11 => When(c.reconnect, "+auto-reconnect")
    case 12 => When(c.certificateName != "", "/cert-name:" + c.certificateName)
    case 13 => Some("/cert:" + ModeOf(c))
    case _ => None
  }

  function Push(args: seq<string>, line: Option<string>): seq<string> {
    if line.Some? then args + [line.value] else args
  }

  function Arguments(m: Manifest, environment: string, count: nat): (args: seq<string>)
    requires Accepted(m, environment)
  {
    if count == 0 then [] else Push(Arguments(m, environment, count - 1), Line(m, environment, count - 1))
  }

  // ---- Reading a list back ----

  // The place a line belongs to.
  function Place(line: string): nat {
    if "/v:" <= line then 0
    else if "/u:" <= line then 1
    else if "/p:" <= line then 2
    else if line == "/f" then 3
    else if line == "/dynamic-resolution" then 4
    else if line == "/sound" then 5
    else if line == "/microphone" then 6
    else if line == "+clipboard" then 7
    else if "/drive:home," <= line then 8
    else if line == "+printer" then 9
    else if line == "/smartcard" then 10
    else if line == "+auto-reconnect" then 11
    else if "/cert-name:" <= line then 12
    else if "/cert:" <= line then 13
    else LINES
  }

  function Find(lines: seq<string>, k: nat): Option<string> {
    if lines == [] then None
    else if Place(lines[|lines| - 1]) == k then Some(lines[|lines| - 1])
    else Find(lines[..|lines| - 1], k)
  }

  lemma PlaceOfPrefixed(x: string)
    ensures Place("/v:" + x) == 0 && Place("/u:" + x) == 1 && Place("/p:" + x) == 2
  {
    assert ("/v:" + x)[..3] == "/v:" && ("/u:" + x)[..3] == "/u:" && ("/p:" + x)[..3] == "/p:";
    assert ("/u:" + x)[1] == 'u' && ("/p:" + x)[1] == 'p';
  }

  lemma Differ(p: string, s: string, i: nat)
    requires i < |p| && i < |s| && p[i] != s[i]
    ensures !(p <= s) && p != s
  {
  }

  lemma NotValue(s: string)
    requires |s| > 1 && (s[0] == '+' || s[1] in "csmd")
    ensures !("/v:" <= s) && !("/u:" <= s) && !("/p:" <= s) && s != "/f"
  {
    var i := if s[0] == '+' then 0 else 1;
    Differ("/v:", s, i);
    Differ("/u:", s, i);
    Differ("/p:", s, i);
    Differ("/f", s, i);
  }

  lemma PlaceOfSwitches()
    ensures Place("/f") == 3 && Place("/dynamic-resolution") == 4 && Place("/sound") == 5 && Place("/microphone") == 6
    ensures Place("+clipboard") == 7 && Place("+printer") == 9 && Place("/smartcard") == 10 && Place("+auto-reconnect") == 11
  {
    NotValue("/dynamic-resolution");
    NotValue("/sound");
    NotValue("/microphone");
    NotValue("+clipboard");
    NotValue("+printer");
    NotValue("/smartcard");
    NotValue("+auto-reconnect");
    Differ("/drive:home,", "+auto-reconnect", 0);
    Differ("+clipboard", "/smartcard", 0);
  }

  // A line that begins like no switch, user name or password.
  lemma NotEarly(s: string)
    requires |s| > 2 && s[0] == '/' && (s[1] == 'c' || s[1..3] == "dr")
    ensures Place(s) == if "/drive:home," <= s then 8 else if "/cert-name:" <= s then 12 else if "/cert:" <= s then 13 else LINES
  {
    assert s[1] == 'c' || s[2] == s[1..3][1];
    NotValue(s);
    Differ("/sound", s, 1);
    Differ("/microphone", s, 1);
    Differ("+clipboard", s, 0);
    Differ("+printer", s, 0);
    Differ("/smartcard", s, 1);
    Differ("+auto-reconnect", s, 0);
    if s[1] == 'c' {
      Differ("/dynamic-resolution", s, 1);
    } else {
      Differ("/dynamic-resolution", s, 2);
    }
  }

  lemma PlaceOfDrive(x: string)
    ensures Place("/drive:home," + x) == 8
  {
    hide Place;
    var s := "/drive:home," + x;
    assert s[..12] == "/drive:home,";
    assert s[1..3] == "dr";
    NotEarly(s);
  }

  lemma PlaceOfName(x: string)
    ensures Place("/cert-name:" + x) == 12
  {
    hide Place;
    var s := "/cert-name:" + x;
    assert s[..11] == "/cert-name:";
    assert s[1] == 'c';
    NotEarly(s);
    Differ("/drive:home,", s, 1);
  }

  lemma PlaceOfMode(x: string)
    ensures Place("/cert:" + x) == 13
  {
    hide Place;
    var s := "/cert:" + x;
    assert s[..6] == "/cert:";
    assert s[1] == 'c' && s[5] == ':';
    NotEarly(s);
    Differ("/drive:home,", s, 1);
    Differ("/cert-name:", s, 5);
  }

  lemma PlaceOfLine(m: Manifest, environment: string, k: nat)
    requires Accepted(m, environment) && k < LINES && Line(m, environment, k).Some?
    ensures Place(Line(m, environment, k).value) == k
  {
    var c := m.config.value;
    hide Accepted, HostPort, Place;
    PlaceOfSwitches();
    if k <= 2 {
      PlaceOfPrefixed(if k == 0 then HostPort(m.host, m.port) else if k == 1 then m.username else m.password);
    } else if k == 8 {
      PlaceOfDrive(HomeOf(environment));
    } else if k == 12 {
      PlaceOfName(c.certificateName);
    } else if k == 13 {
      PlaceOfMode(ModeOf(c));
    }
  }

  lemma FindPush(args: seq<string>, line: Option<string>, k: nat)
    ensures Find(Push(args, line), k)
            == if line.Some? && Place(line.value) == k then line else Find(args, k)
  {
    hide Place;
    if line.Some? {
      assert (args + [line.value])[..|args|] == args;
    }
  }

  // Every line is found in its place, and nothing else is.
  lemma {:induction false} FindLine(m: Manifest, environment: string, count: nat, k: nat)
    requires Accepted(m, environment) && count <= LINES && k < LINES
    ensures Find(Arguments(m, environment, count), k) == if k < count then Line(m, environment, k) else None
  {
    hide Accepted, Line, Place, Push;
    if count > 0 {
      FindLine(m, environment, count - 1, k);
      var line := Line(m, environment, count - 1);
      FindPush(Arguments(m, environment, count - 1), line, k);
      if line.Some? {
        PlaceOfLine(m, environment, count - 1);
      }
    }
  }

  lemma {:induction false} InArguments(m: Manifest, environment: string, count: nat, line: string)
    requires Accepted(m, environment) && count <= LINES
    ensures line in Arguments(m, environment, count) <==> Place(line) < count && Line(m, environment, Place(line)) == Some(line)
  {
    hide Accepted, Line, Place;
    if count > 0 {
      InArguments(m, environment, count - 1, line);
      if Line(m, environment, count - 1).Some? {
        PlaceOfLine(m, environment, count - 1);
      }
    }
  }

  lemma Reads(m: Manifest, environment: string, line: string)
    requires Accepted(m, environment) && Place(line) < LINES
    ensures line in Arguments(m, environment, LINES) <==> Line(m, environment, Place(line)) == Some(line)
  {
    hide Accepted, Line, Place, Arguments;
    InArguments(m, environment, LINES, line);
  }

  lemma SwitchMeans(m: Manifest, environment: string, k: nat, on: bool, line: string)
    requires Accepted(m, environment) && k < LINES && Place(line) == k && Line(m, environment, k) == When(on, line)
    ensures line in Arguments(m, environment, LINES) <==> on
  {
    hide Accepted, Line, Place, Arguments;
    Reads(m, environment, line);
  }

  // Which switches a manifest gives, word by word.
  lemma ScreenMeans(m: Manifest, environment: string)
    requires Accepted(m, environment)
    ensures var args, c := Arguments(m, environment, LINES), m.config.value;
            && ("/f" in args <==> c.fullscreen) && ("/dynamic-resolution" in args <==> c.dynamic)
            && ("/sound" in args <==> c.audio) && ("/microphone" in args <==> c.microphone)
  {
    PlaceOfSwitches();
    var c := m.config.value;
    hide Accepted, Place, Arguments, HostPort, HomeOf, ModeOf;
    SwitchMeans(m, environment, 3, c.fullscreen, "/f");
    SwitchMeans(m, environment, 4, c.dynamic, "/dynamic-resolution");
    SwitchMeans(m, environment, 5, c.audio, "/sound");
    SwitchMeans(m, environment, 6, c.microphone, "/microphone");
  }

  lemma DevicesMean(m: Manifest, environment: string)
    requires Accepted(m, environment)
    ensures var args, c := Arguments(m, environment, LINES), m.config.value;
            && "+clipboard" in args && ("+printer" in args <==> c.printers)
            && ("/smartcard" in args <==> c.smartcards) && ("+auto-reconnect" in args <==> c.reconnect)
  {
    PlaceOfSwitches();
    var c := m.config.value;
    hide Accepted, Place, Arguments, HostPort, HomeOf, ModeOf;
    SwitchMeans(m, environment, 7, true, "+clipboard");
    SwitchMeans(m, environment, 9, c.printers, "+printer");
    SwitchMeans(m, environment, 10, c.smartcards, "/smartcard");
    SwitchMeans(m, environment, 11, c.reconnect, "+auto-reconnect");
  }

  // The credentials, and the drive's home directory when the environment names none.
  lemma CredentialsMean(m: Manifest, environment: string)
    requires Accepted(m, environment)
    ensures var args := Arguments(m, environment, LINES);
            && ("/u:" + m.username in args <==> m.username != "")
            && ("/p:" + m.password in args <==> m.password != "")
  {
    PlaceOfPrefixed(m.username);
    PlaceOfPrefixed(m.password);
    Reads(m, environment, "/u:" + m.username);
    Reads(m, environment, "/p:" + m.password);
    hide Accepted, Place, Arguments, HostPort, HomeOf, ModeOf;
  }

  lemma DriveMeans(m: Manifest, environment: string)
    requires Accepted(m, environment) && m.config.value.drives
    ensures (if environment == "" then "/drive:home,/home/thinpi" else "/drive:home," + environment)
            in Arguments(m, environment, LINES)
  {
    PlaceOfDrive(HomeOf(environment));
    Reads(m, environment, "/drive:home," + HomeOf(environment));
    hide Accepted, Place, Arguments, HostPort, ModeOf;
    assert "/drive:home," + "/home/thinpi" == "/drive:home,/home/thinpi";
  }

  // The certificate's name and its mode, which is tofu for a manifest without one.
  lemma CertificateMeans(m: Manifest, environment: string)
    requires Accepted(m, environment)
    ensures var args, c := Arguments(m, environment, LINES), m.config.value;
            && ("/cert-name:" + c.certificateName in args <==> c.certificateName != "")
            && (if c.certificateMode == "" then "/cert:tofu" else "/cert:" + c.certificateMode) in args
  {
    var c := m.config.value;
    PlaceOfName(c.certificateName);
    PlaceOfMode(ModeOf(c));
    Reads(m, environment, "/cert-name:" + c.certificateName);
    Reads(m, environment, "/cert:" + ModeOf(c));
    hide Accepted, Place, Arguments, HostPort, HomeOf;
    assert "/cert:" + "tofu" == "/cert:tofu";
  }

  // ---- The bytes on standard input ----

  function Stdin(m: Manifest, environment: string): string
    requires Accepted(m, environment)
  {
    Join(Arguments(m, environment, LINES), '\n') + "\n"
  }

  lemma HostPortOneLine(host: string, port: int)
    requires ValidHost(host, port)
    ensures OneLine(HostPort(host, port))
  {
    assert AllDigits(Itoa(port));
  }

  lemma PrefixOneLine(prefix: string, value: string)
    requires OneLine(prefix) && OneLine(value)
    ensures OneLine(prefix + value)
  {
  }

  lemma PiecesOneLine(m: Manifest, environment: string)
    requires Accepted(m, environment)
    ensures OneLine("/v:" + HostPort(m.host, m.port)) && OneLine("/u:" + m.username) && OneLine("/p:" + m.password)
    ensures var c := m.config.value;
            && (c.drives ==> OneLine("/drive:home," + HomeOf(environment)))
            && OneLine("/cert-name:" + c.certificateName) && OneLine("/cert:" + ModeOf(c))
  {
    var c := m.config.value;
    hide HostPort, HomeOf;
    HostPortOneLine(m.host, m.port);
    hide ValidHost, OneLine;
    PrefixOneLine("/v:", HostPort(m.host, m.port));
    PrefixOneLine("/u:", m.username);
    PrefixOneLine("/p:", m.password);
    PrefixOneLine("/cert-name:", c.certificateName);
    if c.drives {
      PrefixOneLine("/drive:home,", HomeOf(environment));
    }
  }

  lemma ScreenSwitches()
    ensures OneLine("/f") && OneLine("/dynamic-resolution") && OneLine("/sound")
  {
  }

  lemma DeviceSwitches()
    ensures OneLine("/microphone") && OneLine("+clipboard") && OneLine("+printer")
  {
  }

  lemma OtherSwitches()
    ensures OneLine("/smartcard") && OneLine("+auto-reconnect")
  {
  }

  lemma LineIsOneLine(m: Manifest, environment: string, k: nat)
    requires Accepted(m, environment) && Line(m, environment, k).Some?
    ensures OneLine(Line(m, environment, k).value)
  {
    PiecesOneLine(m, environment);
    ScreenSwitches();
    DeviceSwitches();
    OtherSwitches();
    hide Accepted, HostPort, HomeOf, ModeOf, OneLine;
  }

  lemma {:induction false} ArgumentsAreLines(m: Manifest, environment: string, count: nat)
    requires Accepted(m, environment)
    ensures forall i :: 0 <= i < |Arguments(m, environment, count)| ==> OneLine(Arguments(m, environment, count)[i])
    ensures count > 0 ==> Arguments(m, environment, count) != []
  {
    hide Accepted, Line, OneLine;
    if count > 0 {
      ArgumentsAreLines(m, environment, count - 1);
      if Line(m, environment, count - 1).Some? {
        LineIsOneLine(m, environment, count - 1);
      }
      assert Line(m, environment, 0).Some? by { FirstLine(m, environment); }
    }
  }

  lemma FirstLine(m: Manifest, environment: string)
    requires Accepted(m, environment)
    ensures Line(m, environment, 0).Some?
  {
    hide Accepted, HostPort;
  }

  // Splitting the input on newlines gives the argument list back.
  lemma SplitStdin(m: Manifest, environment: string)
    requires Accepted(m, environment)
    ensures Split(Stdin(m, environment), '\n') == Arguments(m, environment, LINES) + [""]
  {
    hide Accepted, Arguments;
    var args := Arguments(m, environment, LINES);
    ArgumentsAreLines(m, environment, LINES);
    JoinTerminated(args, '\n');
    SplitJoin(args + [""], '\n');
  }

  // ---- What the list says ----

  // The manifest as FreeRDP sees it: the certificate mode and the drive's home
  // directory filled in, the clipboard always on.
  datatype Settings = Settings(
    host: string, port: nat, username: string, password: string, fullscreen: bool, dynamic: bool, audio: bool,
    microphone: bool, drive: Option<string>, printers: bool, smartcards: bool, reconnect: bool,
    certificateName: string, certificateMode: string)

  function Normal(m: Manifest, environment: string): Settings
    requires Accepted(m, environment)
  {
    var c := m.config.value;
    Settings(m.host, m.port, m.username, m.password, c.fullscreen, c.dynamic, c.audio, c.microphone,
             When(c.drives, HomeOf(environment)), c.printers, c.smartcards, c.reconnect, c.certificateName, ModeOf(c))
  }

  // The text after a prefix of the line in place `k`.
  function Value(lines: seq<string>, k: nat, prefix: nat): string {
    match Find(lines, k)
    case Some(line) => if prefix <= |line| then line[prefix..] else ""
    case None => ""
  }

  function ParseHost(text: string): string {
    if text != "" && text[0] == '[' then Split(text[1..], ']')[0] else Split(text, ':')[0]
  }

  function PortText(text: string): string {
    var parts := Split(text, ':');
    parts[|parts| - 1]
  }

  function ParsePort(text: string): nat {
    if AllDigits(PortText(text)) then Atoi(PortText(text)) else 0
  }

  function Parse(lines: seq<string>): Settings {
    var address := Value(lines, 0, 3);
    Settings(
      ParseHost(address), ParsePort(address), Value(lines, 1, 3), Value(lines, 2, 3),
      Find(lines, 3).Some?, Find(lines, 4).Some?, Find(lines, 5).Some?, Find(lines, 6).Some?,
      if Find(lines, 8).Some? then Some(Value(lines, 8, 12)) else None,
      Find(lines, 9).Some?, Find(lines, 10).Some?, Find(lines, 11).Some?,
      Value(lines, 12, 11), Value(lines, 13, 6))
  }

  lemma {:induction false} LastPart(a: string, sep: char, b: string)
    requires sep !in b
    ensures var parts := Split(a + [sep] + b, sep); parts[|parts| - 1] == b
  {
    SplitPart(b, sep);
    if sep !in a {
      SplitAt(a, sep, b);
    } else {
      var head := Split(a, sep)[0];
      SplitHead(a, sep);
      var rest := a[|head| + 1..];
      assert a + [sep] + b == head + [sep] + (rest + [sep] + b);
      SplitAt(head, sep, rest + [sep] + b);
      LastPart(rest, sep, b);
    }
  }

  lemma AddressBack(host: string, port: int)
    requires ValidHost(host, port)
    ensures ParseHost(HostPort(host, port)) == host && ParsePort(HostPort(host, port)) == port
  {
    var digits := Itoa(port);
    AtoiItoa(port);
    NoColon(digits);
    if ':' in host {
      var text := "[" + host + "]:" + digits;
      assert text[1..] == host + "]" + (":" + digits);
      NoBracket(host, port);
      SplitAt(host, ']', ":" + digits);
      assert text == ("[" + host + "]") + [':'] + digits;
      LastPart("[" + host + "]", ':', digits);
    } else {
      assert host + ":" + digits == host + [':'] + digits;
      assert (host + ":" + digits)[0] == host[0] != '[';
      SplitAt(host, ':', digits);
      SplitPart(digits, ':');
    }
  }

  lemma NoColon(digits: string)
    requires AllDigits(digits)
    ensures ':' !in digits
  {
  }

  lemma NoBracket(host: string, port: int)
    requires ValidHost(host, port)
    ensures ']' !in host && '[' !in host
  {
  }

  lemma FindAppend(args: seq<string>, k: nat)
    requires k < LINES
    ensures Find(args + [""], k) == Find(args, k)
  {
    assert (args + [""])[..|args|] == args;
  }

  lemma AllFound(m: Manifest, environment: string, k: nat)
    requires Accepted(m, environment) && k < LINES
    ensures Find(Split(Stdin(m, environment), '\n'), k) == Line(m, environment, k)
  {
    hide Accepted, Arguments, Line, Stdin;
    SplitStdin(m, environment);
    FindAppend(Arguments(m, environment, LINES), k);
    FindLine(m, environment, LINES, k);
  }

  // Reading the input back line by line gives what was put in.
  lemma ParseBack(m: Manifest, environment: string)
    requires Accepted(m, environment)
    ensures Parse(Split(Stdin(m, environment), '\n')) == Normal(m, environment)
  {
    hide Stdin, HostPort, ParseHost, ParsePort, Split, HomeOf, Find;
    var lines := Split(Stdin(m, environment), '\n');
    forall k: nat | k < LINES ensures Find(lines, k) == Line(m, environment, k) {
      AllFound(m, environment, k);
    }
    AddressBack(m.host, m.port);
    var c := m.config.value;
    hide Accepted;
    assert Value(lines, 0, 3) == HostPort(m.host, m.port);
  }

  // So two manifests with the same input are the same to FreeRDP.
  lemma StdinInjective(m: Manifest, n: Manifest, environment: string, other: string)
    requires Accepted(m, environment) && Accepted(n, other) && Stdin(m, environment) == Stdin(n, other)
    ensures Normal(m, environment) == Normal(n, other)
  {
    ParseBack(m, environment);
    ParseBack(n, other);
  }

  // ---- The command ----

  // The list so far is the one that an accepted manifest has.
  ghost predicate SoFar(m: Manifest, environment: string, k: nat, args: seq<string>) {
    Accepted(m, environment) ==> args == Arguments(m, environment, k)
  }

  lemma EmptyOneLine()
    ensures OneLine("")
  {
  }

  lemma First(m: Manifest, environment: string)
    ensures SoFar(m, environment, 0, [])
  {
  }

  lemma Complete(m: Manifest, environment: string, args: seq<string>)
    requires Accepted(m, environment) && SoFar(m, environment, LINES, args)
    ensures Stdin(m, environment) == Join(args, '\n') + "\n"
  {
    hide Accepted, Arguments;
  }

  lemma Next(m: Manifest, environment: string, k: nat, before: seq<string>, after: seq<string>)
    requires SoFar(m, environment, k, before)
    requires Accepted(m, environment) ==> after == Push(before, Line(m, environment, k))
    ensures SoFar(m, environment, k + 1, after)
  {
    hide Accepted, Line, Push;
  }

  // The address and the credentials.
  method Credentials(m: Manifest, environment: string) returns (args: seq<string>)
    requires ValidHost(m.host, m.port) && m.config.Some?
    ensures SoFar(m, environment, 3, args)
  {
    hide HostPort, OneLine, Arguments, SoFar;
    ghost var before := [];
    First(m, environment);
    args := ["/v:" + HostPort(m.host, m.port)];
    Next(m, environment, 0, before, args);
    before := args;
    if m.username != "" {
      args := args + ["/u:" + m.username];
    }
    Next(m, environment, 1, before, args);
    before := args;
    if m.password != "" {
      args := args + ["/p:" + m.password];
    }
    Next(m, environment, 2, before, args);
  }

  // The display, sound and clipboard switches.
  method Screen(m: Manifest, c: Config, environment: string, credentials: seq<string>) returns (args: seq<string>)
    requires m.config.Some? && c == m.config.value.(clipboard := true)
    requires SoFar(m, environment, 3, credentials)
    ensures SoFar(m, environment, 8, args)
  {
    hide HostPort, OneLine, Arguments, SoFar, ValidHost;
    args := credentials;
    ghost var before := args;
    if c.fullscreen {
      args := args + ["/f"];
    }
    Next(m, environment, 3, before, args);
    before := args;
    if c.dynamic {
      args := args + ["/dynamic-resolution"];
    }
    Next(m, environment, 4, before, args);
    before := args;
    if c.audio {
      args := args + ["/sound"];
    }
    Next(m, environment, 5, before, args);
    before := args;
    if c.microphone {
      args := args + ["/microphone"];
    }
    Next(m, environment, 6, before, args);
    before := args;
    if c.clipboard {
      args := args + ["+clipboard"];
    } else {
      args := args + ["-clipboard"];
    }
    Next(m, environment, 7, before, args);
  }

  // The standard input of the client, or None for a manifest it refuses.
  method FreeRDPCommand(m: Manifest, environment: string) returns (stdin: Option<string>)
    ensures stdin == if Accepted(m, environment) then Some(Stdin(m, environment)) else None
  {
    hide HostPort, OneLine, Arguments, SoFar, Stdin, ValidHost;
    assert OneLine("") by { EmptyOneLine(); }
    stdin := None;
    if !ValidHost(m.host, m.port) {
      return;
    }
    if m.credentialType == "ssh_private_key" {
      return;
    }
    if !OneLine(m.username) || !OneLine(m.password) {
      return;
    }
    if m.config.None? {
      return;
    }
    var c := m.config.value.(clipboard := true);
    var args := Credentials(m, environment);
    args := Screen(m, c, environment, args);
    ghost var before := args;
    if c.drives {
      var home := environment;
      if home == "" {
        home := "/home/thinpi";
      }
      if !OneLine(home) {
        return;
      }
      args := args + ["/drive:home," + home];
    }
    Next(m, environment, 8, before, args);
    before := args;
    if c.printers {
      args := args + ["+printer"];
    }
    Next(m, environment, 9, before, args);
    before := args;
    if c.smartcards {
      args := args + ["/smartcard"];
    }
    Next(m, environment, 10, before, args);
    before := args;
    if c.reconnect {
      args := args + ["+auto-reconnect"];
    }
    Next(m, environment, 11, before, args);
    before := args;
    if c.certificateName != "" {
      if !OneLine(c.certificateName) || '/' in c.certificateName {
        return;
      }
      args := args + ["/cert-name:" + c.certificateName];
    }
    Next(m, environment, 12, before, args);
    var certificateMode := if c.certificateMode == "" then "tofu" else c.certificateMode;
    before := args;
    if certificateMode != "tofu" && certificateMode != "deny" && certificateMode != "ignore" {
      return;
    }
    args := args + ["/cert:" + certificateMode];
    Next(m, environment, 13, before, args);
    if Accepted(m, environment) {
      Complete(m, environment, args);
    }
    stdin := Some(Join(args, '\n') + "\n");
  }
}
