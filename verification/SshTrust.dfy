/** The SSH host-key store: a text file of lines that behaves as a map from
  * endpoints to their keys.
  */
module SshTrust {
  import opened Options
  import opened Strings
  import opened Sorting
  import opened Hosts

  datatype Endpoint = Endpoint(host: string, port: nat)

  // ---- Hosts ----

  predicate ValidEndpoint(e: Endpoint) {
    ValidHost(e.host, e.port)
  }

  function KnownHost(e: Endpoint): string {
    if e.port == 22 then e.host else "[" + e.host + "]:" + Itoa(e.port)
  }

  lemma KnownHostChars(e: Endpoint)
    requires ValidEndpoint(e)
    ensures IsToken(KnownHost(e)) && ',' !in KnownHost(e) && '\n' !in KnownHost(e)
  {
    var h := KnownHost(e);
    forall i | 0 <= i < |h|
      ensures !IsSpace(h[i]) && h[i] != ',' && h[i] != '\n'
    {
      if e.port != 22 && |e.host| + 3 <= i { assert h[i] == Itoa(e.port)[i - |e.host| - 3]; }
    }
  }

  lemma BracketedInjective(g: string, h: string, a: string, b: string)
    requires ']' !in g && ']' !in h && "[" + g + "]:" + a == "[" + h + "]:" + b
    ensures g == h && a == b
  {
    var s := "[" + g + "]:" + a;
    assert s[1..] == g + [']'] + (":" + a);
    assert ("[" + h + "]:" + b)[1..] == h + [']'] + (":" + b);
    SplitAt(g, ']', ":" + a);
    SplitAt(h, ']', ":" + b);
    assert [g] + Split(":" + a, ']') == [h] + Split(":" + b, ']');
    assert g == ([g] + Split(":" + a, ']'))[0] == ([h] + Split(":" + b, ']'))[0] == h;
    assert s[3 + |g|..] == a && s[3 + |h|..] == b;
  }

  lemma KnownHostHead(e: Endpoint)
    requires ValidEndpoint(e)
    ensures KnownHost(e)[0] == '[' <==> e.port != 22
  {
  }

  // Different endpoints are written differently.
  lemma KnownHostInjective(d: Endpoint, e: Endpoint)
    requires ValidEndpoint(d) && ValidEndpoint(e) && KnownHost(d) == KnownHost(e)
    ensures d == e
  {
    KnownHostHead(d);
    KnownHostHead(e);
    if d.port != 22 {
      BracketedInjective(d.host, e.host, Itoa(d.port), Itoa(e.port));
      ItoaInjective(d.port, e.port);
    }
  }

  // The endpoint a name stands for: port 22 unless the name has brackets.
  function ReadName(name: string): (string, nat) {
    if name == "" || name[0] != '[' then (name, 22)
    else
      var parts := Split(name[1..], ']');
      var rest := parts[|parts| - 1];
      (parts[0], if rest != "" && AllDigits(rest[1..]) then Atoi(rest[1..]) else 0)
  }

  lemma NameReadsBack(e: Endpoint)
    requires ValidEndpoint(e)
    ensures ReadName(KnownHost(e)) == (e.host, e.port)
    ensures e.port == 22 ==> KnownHost(e) == e.host
  {
    if e.port != 22 {
      var digits := Itoa(e.port);
      var name := "[" + e.host + "]:" + digits;
      assert name[1..] == e.host + [']'] + (":" + digits);
      NoBrackets(e.host, e.port);
      SplitAt(e.host, ']', ":" + digits);
      NoBracketIn(":" + digits, digits);
      SplitPart(":" + digits, ']');
      AtoiItoa(e.port);
      assert (":" + digits)[1..] == digits;
    }
  }

  lemma NoBrackets(host: string, port: int)
    requires ValidHost(host, port)
    ensures ']' !in host && host[0] != '['
  {
  }

  lemma NoBracketIn(s: string, digits: string)
    requires s == ":" + digits && AllDigits(digits)
    ensures ']' !in s
  {
  }

  // ---- Lines ----

  // A scanned key: a type and a blob separated by one space.
  ghost predicate IsKey(key: string) {
    exists kind, blob :: IsToken(kind) && IsToken(blob) && key == kind + " " + blob
  }

  ghost predicate AreKeys(keys: seq<string>) {
    forall i :: 0 <= i < |keys| ==> IsKey(keys[i])
  }

  function Line(target: string, key: string): string {
    target + " " + key
  }

  function LinesOf(target: string, keys: seq<string>): (lines: seq<string>)
    ensures |lines| == |keys| && forall i :: 0 <= i < |keys| ==> lines[i] == Line(target, keys[i])
  {
    if keys == [] then [] else [Line(target, keys[0])] + LinesOf(target, keys[1..])
  }

  predicate Matches(line: string, target: string) {
    var fields := Fields(line);
    |fields| >= 3 && target in Split(fields[0], ',')
  }

  function Matching(lines: seq<string>, target: string): seq<string> {
    if lines == [] then []
    else if Matches(lines[0], target) then [lines[0]] + Matching(lines[1..], target)
    else Matching(lines[1..], target)
  }

  function Others(lines: seq<string>, target: string): seq<string> {
    if lines == [] then []
    else if Matches(lines[0], target) then Others(lines[1..], target)
    else [lines[0]] + Others(lines[1..], target)
  }

  lemma FieldsOfKey(kind: string, blob: string)
    requires IsToken(kind) && IsToken(blob)
    ensures Fields(kind + " " + blob) == [kind, blob]
  {
    FieldsToken(kind, " " + blob);
    assert kind + " " + blob == kind + (" " + blob);
    assert (" " + blob)[1..] == blob + "";
    FieldsToken(blob, "");
    assert blob + "" == blob;
  }

  // A stored line matches its own endpoint and no other.
  lemma LineMatches(d: Endpoint, key: string, e: Endpoint)
    requires ValidEndpoint(d) && ValidEndpoint(e) && IsKey(key)
    ensures Matches(Line(KnownHost(d), key), KnownHost(e)) <==> d == e
  {
    var kind, blob :| IsToken(kind) && IsToken(blob) && key == kind + " " + blob;
    var target := KnownHost(d);
    KnownHostChars(d);
    FieldsToken(target, " " + key);
    assert Line(target, key) == target + (" " + key);
    assert (" " + key)[1..] == key;
    FieldsOfKey(kind, blob);
    SplitPart(target, ',');
    if KnownHost(d) == KnownHost(e) { KnownHostInjective(d, e); }
  }

  // A line written by hand may list several hosts; it matches each of them.
  lemma ListMatches(hosts: seq<string>, kind: string, blob: string, target: string)
    requires hosts != [] && forall h :: h in hosts ==> ',' !in h
    requires IsToken(Join(hosts, ',')) && IsToken(kind) && IsToken(blob)
    ensures Matches(Join(hosts, ',') + " " + kind + " " + blob, target) <==> target in hosts
  {
    var list := Join(hosts, ',');
    var line := list + " " + kind + " " + blob;
    assert line == list + (" " + (kind + " " + blob));
    FieldsToken(list, " " + (kind + " " + blob));
    FieldsSpace(kind + " " + blob);
    FieldsOfKey(kind, blob);
    SplitJoin(hosts, ',');
  }

  lemma FieldsSpace(s: string)
    ensures Fields(" " + s) == Fields(s)
  {
    assert (" " + s)[1..] == s;
  }

  // ---- The file ----

  // What readLines keeps of one line of the file.
  function Clean(lines: seq<string>): seq<string> {
    if lines == [] then []
    else if Trim(lines[0]) != "" then [Trim(lines[0])] + Clean(lines[1..])
    else Clean(lines[1..])
  }

  // A missing file reads as no lines.
  function Read(file: Option<string>): seq<string> {
    if file.None? then [] else Clean(Split(file.value, '\n'))
  }

  function Write(lines: seq<string>): Option<string> {
    Some(Join(lines, '\n') + "\n")
  }

  predicate Storable(line: string) {
    line != "" && '\n' !in line && !IsSpace(line[0]) && !IsSpace(line[|line| - 1])
  }

  predicate AllStorable(lines: seq<string>) {
    forall i :: 0 <= i < |lines| ==> Storable(lines[i])
  }

  lemma {:induction false} CleanStorable(lines: seq<string>)
    requires AllStorable(lines)
    ensures Clean(lines + [""]) == lines
  {
    if lines == [] {
      assert Clean([""]) == Clean([]);
    } else {
      assert (lines + [""])[1..] == lines[1..] + [""];
      CleanStorable(lines[1..]);
      assert Storable(lines[0]) && Trim(lines[0]) == lines[0];
    }
  }

  // What is written is what is read back.
  lemma ReadWrite(lines: seq<string>)
    requires AllStorable(lines)
    ensures Read(Write(lines)) == lines
  {
    if lines == [] {
      var file := "\n";
      assert Join(lines, '\n') + "\n" == file;
      assert file == "" + ['\n'] + "";
      SplitAt("", '\n', "");
      assert Clean([""] + [""]) == Clean([""]) == [];
    } else {
      JoinTerminated(lines, '\n');
      assert forall i :: 0 <= i < |lines + [""]| ==> '\n' !in (lines + [""])[i] by {
        assert forall i :: 0 <= i < |lines| ==> Storable(lines[i]);
      }
      SplitJoin(lines + [""], '\n');
      CleanStorable(lines);
    }
  }

  lemma LineStorable(e: Endpoint, key: string)
    requires ValidEndpoint(e) && IsKey(key)
    ensures Storable(Line(KnownHost(e), key))
  {
    var kind, blob :| IsToken(kind) && IsToken(blob) && key == kind + " " + blob;
    KnownHostChars(e);
    var line := Line(KnownHost(e), key);
    assert line == KnownHost(e) + " " + kind + " " + blob;
    assert IsSpace('\n');
    assert line[|line| - 1] == blob[|blob| - 1];
  }

  // ---- Comparing scans ----

  // equalStringSets: equal length and equal sorted copies.
  method EqualStringSets(a: seq<string>, b: seq<string>) returns (equal: bool)
    ensures equal <==> multiset(a) == multiset(b)
  {
    if |a| != |b| {
      assert |multiset(a)| == |a| && |multiset(b)| == |b|;
      return false;
    }
    var aa, bb := Sort(a), Sort(b);
    SortSorted(a);
    SortSorted(b);
    if multiset(a) == multiset(b) { SortedUnique(aa, bb); }
    for i := 0 to |aa|
      invariant aa[..i] == bb[..i]
    {
      if aa[i] != bb[i] {
        return false;
      }
    }
    assert aa == aa[..|aa|] && bb == bb[..|bb|];
    equal := true;
  }

  // ---- The file as a map ----

  datatype Entry = Entry(endpoint: Endpoint, key: string)

  ghost predicate EntriesOk(entries: seq<Entry>) {
    forall i :: 0 <= i < |entries| ==> ValidEndpoint(entries[i].endpoint) && IsKey(entries[i].key)
  }

  function Text(entries: seq<Entry>): (lines: seq<string>)
    ensures |lines| == |entries|
  {
    if entries == [] then []
    else [Line(KnownHost(entries[0].endpoint), entries[0].key)] + Text(entries[1..])
  }

  function EntriesFor(e: Endpoint, keys: seq<string>): seq<Entry> {
    if keys == [] then [] else [Entry(e, keys[0])] + EntriesFor(e, keys[1..])
  }

  function Without(entries: seq<Entry>, e: Endpoint): seq<Entry> {
    if entries == [] then []
    else if entries[0].endpoint == e then Without(entries[1..], e)
    else [entries[0]] + Without(entries[1..], e)
  }

  // The keys known for one endpoint, in file order.
  function KeysOf(entries: seq<Entry>, e: Endpoint): seq<string> {
    if entries == [] then []
    else if entries[0].endpoint == e then [entries[0].key] + KeysOf(entries[1..], e)
    else KeysOf(entries[1..], e)
  }

  lemma {:induction false} TextOk(entries: seq<Entry>)
    requires EntriesOk(entries)
    ensures AllStorable(Text(entries))
  {
    if entries != [] {
      TextOk(entries[1..]);
      LineStorable(entries[0].endpoint, entries[0].key);
    }
  }

  lemma {:induction false} TextAppend(a: seq<Entry>, b: seq<Entry>)
    ensures Text(a + b) == Text(a) + Text(b)
  {
    if a == [] {
      assert a + b == b;
    } else {
      assert (a + b)[1..] == a[1..] + b;
      TextAppend(a[1..], b);
    }
  }

  lemma {:induction false} TextFor(e: Endpoint, keys: seq<string>)
    ensures Text(EntriesFor(e, keys)) == LinesOf(KnownHost(e), keys)
  {
    if keys != [] {
      TextFor(e, keys[1..]);
      var first, rest := [Entry(e, keys[0])], EntriesFor(e, keys[1..]);
      assert (first + rest)[1..] == rest;
    }
  }

  lemma {:induction false} KeysAppend(a: seq<Entry>, b: seq<Entry>, e: Endpoint)
    ensures KeysOf(a + b, e) == KeysOf(a, e) + KeysOf(b, e)
  {
    if a == [] {
      assert a + b == b;
    } else {
      assert (a + b)[1..] == a[1..] + b;
      KeysAppend(a[1..], b, e);
    }
  }

  lemma {:induction false} KeysFor(e: Endpoint, keys: seq<string>, other: Endpoint)
    ensures KeysOf(EntriesFor(e, keys), other) == if other == e then keys else []
  {
    if keys != [] {
      KeysFor(e, keys[1..], other);
      var first, rest := [Entry(e, keys[0])], EntriesFor(e, keys[1..]);
      assert (first + rest)[1..] == rest;
      assert keys == [keys[0]] + keys[1..];
    }
  }

  lemma {:induction false} KeysWithout(entries: seq<Entry>, e: Endpoint, other: Endpoint)
    ensures KeysOf(Without(entries, e), other) == if other == e then [] else KeysOf(entries, other)
  {
    if entries != [] {
      KeysWithout(entries[1..], e, other);
      if entries[0].endpoint != e {
        var first, rest := [entries[0]], Without(entries[1..], e);
        assert (first + rest)[1..] == rest;
      }
    }
  }

  // Filtering lines by host is filtering entries by endpoint.
  lemma {:induction false} MatchingText(entries: seq<Entry>, e: Endpoint)
    requires EntriesOk(entries) && ValidEndpoint(e)
    ensures Matching(Text(entries), KnownHost(e)) == LinesOf(KnownHost(e), KeysOf(entries, e))
    ensures Others(Text(entries), KnownHost(e)) == Text(Without(entries, e))
  {
    if entries != [] {
      MatchingText(entries[1..], e);
      LineMatches(entries[0].endpoint, entries[0].key, e);
      hide Matches, KnownHost, Line, IsKey;
      var lines := Text(entries);
      assert lines[1..] == Text(entries[1..]);
      if entries[0].endpoint == e {
        assert KeysOf(entries, e)[1..] == KeysOf(entries[1..], e);
      } else {
        assert Without(entries, e)[1..] == Without(entries[1..], e);
      }
    }
  }

  lemma ForOk(e: Endpoint, keys: seq<string>)
    requires ValidEndpoint(e) && AreKeys(keys)
    ensures EntriesOk(EntriesFor(e, keys))
  {
  }

  lemma WithoutOk(entries: seq<Entry>, e: Endpoint)
    requires EntriesOk(entries)
    ensures EntriesOk(Without(entries, e))
  {
  }

  // Lines of one endpoint agree as multisets exactly when the keys do.
  lemma {:induction false} LineCount(target: string, keys: seq<string>, key: string)
    ensures multiset(LinesOf(target, keys))[Line(target, key)] == multiset(keys)[key]
  {
    if keys != [] {
      LineCount(target, keys[1..], key);
      assert keys == [keys[0]] + keys[1..];
      assert Line(target, keys[0])[|target| + 1..] == keys[0] && Line(target, key)[|target| + 1..] == key;
    }
  }

  lemma LinesMultiset(target: string, a: seq<string>, b: seq<string>)
    ensures multiset(LinesOf(target, a)) == multiset(LinesOf(target, b)) <==> multiset(a) == multiset(b)
  {
    if multiset(LinesOf(target, a)) == multiset(LinesOf(target, b)) {
      forall key
        ensures multiset(a)[key] == multiset(b)[key]
      {
        LineCount(target, a, key);
        LineCount(target, b, key);
      }
    }
    if multiset(a) == multiset(b) {
      forall line
        ensures multiset(LinesOf(target, a))[line] == multiset(LinesOf(target, b))[line]
      {
        LineOrNot(target, a, line);
        LineOrNot(target, b, line);
      }
    }
  }

  lemma LinesPrefixed(target: string, keys: seq<string>, line: string)
    requires line in LinesOf(target, keys)
    ensures target + " " <= line
  {
    var lines := LinesOf(target, keys);
    var i :| 0 <= i < |lines| && lines[i] == line;
    assert target + " " <= Line(target, keys[i]);
  }

  lemma LineOrNot(target: string, keys: seq<string>, line: string)
    ensures multiset(LinesOf(target, keys))[line]
         == if target + " " <= line then multiset(keys)[line[|target| + 1..]] else 0
  {
    if target + " " <= line {
      var key := line[|target| + 1..];
      LineCount(target, keys, key);
      assert line == (target + " ") + key;
    } else if line in LinesOf(target, keys) {
      LinesPrefixed(target, keys, line);
    }
  }

  // ---- Prepare and Accept ----

  datatype Pending = Pending(host: string, port: nat, lines: seq<string>)

  datatype Error = InvalidHost | ScanFailed | Changed(pending: Pending) | InvalidPending

  // What Prepare does to the file, and what it reports, for a scan that worked.
  function Prepared(file: Option<string>, e: Endpoint, keys: seq<string>): (Option<string>, Result<(), Error>) {
    var target := KnownHost(e);
    var newLines := LinesOf(target, keys);
    var existing := Read(file);
    var current := Matching(existing, target);
    if |current| == 0 then (Write(existing + newLines), Ok(()))
    else if multiset(current) == multiset(newLines) then (file, Ok(()))
    else (file, Err(Changed(Pending(e.host, e.port, newLines))))
  }

  function Accepted(file: Option<string>, e: Endpoint, lines: seq<string>): Option<string> {
    Write(Others(Read(file), KnownHost(e)) + lines)
  }

  // The file holds these entries, or is still missing and holds none.
  ghost predicate Holds(file: Option<string>, entries: seq<Entry>) {
    EntriesOk(entries) && Read(file) == Text(entries)
  }

  lemma FileHolds(entries: seq<Entry>)
    requires EntriesOk(entries)
    ensures Holds(Write(Text(entries)), entries)
  {
    TextOk(entries);
    ReadWrite(Text(entries));
  }

  // ---- The map it behaves as ----

  type Trust = map<Endpoint, multiset<string>>

  function Known(trust: Trust, e: Endpoint): multiset<string> {
    if e in trust then trust[e] else multiset{}
  }

  // First use adds, an equal scan is trusted, a changed scan changes nothing.
  function TrustPrepared(trust: Trust, e: Endpoint, keys: seq<string>): (Trust, bool) {
    if Known(trust, e) == multiset{} then (trust[e := multiset(keys)], true)
    else (trust, Known(trust, e) == multiset(keys))
  }

  function TrustAccepted(trust: Trust, e: Endpoint, keys: seq<string>): Trust {
    trust[e := multiset(keys)]
  }

  ghost predicate Agrees(entries: seq<Entry>, trust: Trust) {
    forall e :: ValidEndpoint(e) ==> multiset(KeysOf(entries, e)) == Known(trust, e)
  }

  ghost predicate Represents(file: Option<string>, trust: Trust) {
    exists entries :: Holds(file, entries) && Agrees(entries, trust)
  }

  lemma MissingFile()
    ensures Represents(None, map[])
  {
    assert Holds(None, []) && Agrees([], map[]);
  }

  // The lines Prepare finds for an endpoint, compared as it compares them.
  lemma PrepareSees(file: Option<string>, entries: seq<Entry>, e: Endpoint, keys: seq<string>)
    requires Holds(file, entries) && ValidEndpoint(e)
    ensures var current := Matching(Read(file), KnownHost(e));
            && (|current| == 0 <==> multiset(KeysOf(entries, e)) == multiset{})
            && (multiset(current) == multiset(LinesOf(KnownHost(e), keys))
                <==> multiset(KeysOf(entries, e)) == multiset(keys))
  {
    MatchingText(entries, e);
    LinesMultiset(KnownHost(e), KeysOf(entries, e), keys);
    assert |multiset(KeysOf(entries, e))| == |KeysOf(entries, e)|;
  }

  // Adding keys for an endpoint that had none.
  lemma AddRepresents(entries: seq<Entry>, trust: Trust, e: Endpoint, keys: seq<string>)
    requires EntriesOk(entries) && Agrees(entries, trust) && ValidEndpoint(e) && AreKeys(keys)
    requires Known(trust, e) == multiset{}
    ensures Represents(Write(Text(entries) + LinesOf(KnownHost(e), keys)), trust[e := multiset(keys)])
  {
    var added := EntriesFor(e, keys);
    ForOk(e, keys);
    FileHolds(entries + added);
    TextAppend(entries, added);
    TextFor(e, keys);
    forall d | ValidEndpoint(d)
      ensures multiset(KeysOf(entries + added, d)) == Known(trust[e := multiset(keys)], d)
    {
      KeysAppend(entries, added, d);
      KeysFor(e, keys, d);
      assert multiset(KeysOf(entries, d)) == Known(trust, d);
    }
    assert Agrees(entries + added, trust[e := multiset(keys)]);
  }

  lemma PrepareRefines(file: Option<string>, trust: Trust, e: Endpoint, keys: seq<string>)
    requires Represents(file, trust) && ValidEndpoint(e) && AreKeys(keys)
    ensures var (file', r) := Prepared(file, e, keys);
            var (trust', trusted) := TrustPrepared(trust, e, keys);
            && Represents(file', trust')
            && (r.Ok? <==> trusted)
            && (r.Err? ==> r.error == Changed(Pending(e.host, e.port, LinesOf(KnownHost(e), keys))))
  {
    var entries :| Holds(file, entries) && Agrees(entries, trust);
    PrepareSees(file, entries, e, keys);
    assert multiset(KeysOf(entries, e)) == Known(trust, e);
    if Known(trust, e) == multiset{} {
      AddRepresents(entries, trust, e, keys);
    }
  }

  lemma AcceptRefines(file: Option<string>, trust: Trust, e: Endpoint, keys: seq<string>)
    requires Represents(file, trust) && ValidEndpoint(e) && AreKeys(keys)
    ensures Represents(Accepted(file, e, LinesOf(KnownHost(e), keys)), TrustAccepted(trust, e, keys))
  {
    hide Represents, Agrees, KnownHost;
    var entries := EntriesIn(file, trust);
    MatchingText(entries, e);
    WithoutOk(entries, e);
    WithoutAgrees(entries, trust, e);
    AddRepresents(Without(entries, e), trust - {e}, e, keys);
    assert (trust - {e})[e := multiset(keys)] == TrustAccepted(trust, e, keys);
  }

  ghost function EntriesIn(file: Option<string>, trust: Trust): (entries: seq<Entry>)
    requires Represents(file, trust)
    ensures Holds(file, entries) && Agrees(entries, trust)
  {
    var entries :| Holds(file, entries) && Agrees(entries, trust);
    entries
  }

  // Taking an endpoint's lines out of the file takes it out of the map.
  lemma WithoutAgrees(entries: seq<Entry>, trust: Trust, e: Endpoint)
    requires Agrees(entries, trust)
    ensures Agrees(Without(entries, e), trust - {e})
  {
    forall d | ValidEndpoint(d)
      ensures multiset(KeysOf(Without(entries, e), d)) == Known(trust - {e}, d)
    {
      KeysWithout(entries, e, d);
      assert multiset(KeysOf(entries, d)) == Known(trust, d);
    }
  }

  // ---- Whole histories ----

  datatype Request = PrepareReq(e: Endpoint, keys: seq<string>) | AcceptReq(e: Endpoint, keys: seq<string>)

  ghost predicate Proper(requests: seq<Request>) {
    forall i :: 0 <= i < |requests| ==> ValidEndpoint(requests[i].e) && AreKeys(requests[i].keys)
  }

  // The file after a history, and which requests left the caller trusting.
  function FileAfter(file: Option<string>, requests: seq<Request>): (Option<string>, seq<bool>)
    decreases requests
  {
    if requests == [] then (file, []) else
    var q := requests[0];
    var (file', ok) := match q
      case PrepareReq(e, keys) => (var (f, r) := Prepared(file, e, keys); (f, r.Ok?))
      case AcceptReq(e, keys) => (Accepted(file, e, LinesOf(KnownHost(e), keys)), true);
    var (last, oks) := FileAfter(file', requests[1..]);
    (last, [ok] + oks)
  }

  function TrustAfter(trust: Trust, requests: seq<Request>): (Trust, seq<bool>)
    decreases requests
  {
    if requests == [] then (trust, []) else
    var q := requests[0];
    var (trust', ok) := match q
      case PrepareReq(e, keys) => TrustPrepared(trust, e, keys)
      case AcceptReq(e, keys) => (TrustAccepted(trust, e, keys), true);
    var (last, oks) := TrustAfter(trust', requests[1..]);
    (last, [ok] + oks)
  }

  lemma {:induction false} HistoryRefines(file: Option<string>, trust: Trust, requests: seq<Request>)
    requires Represents(file, trust) && Proper(requests)
    ensures Represents(FileAfter(file, requests).0, TrustAfter(trust, requests).0)
    ensures FileAfter(file, requests).1 == TrustAfter(trust, requests).1
    decreases requests
  {
    hide Represents, Prepared, TrustPrepared, Accepted, TrustAccepted;
    if requests != [] {
      match requests[0]
      case PrepareReq(e, keys) =>
        PrepareRefines(file, trust, e, keys);
        HistoryRefines(Prepared(file, e, keys).0, TrustPrepared(trust, e, keys).0, requests[1..]);
      case AcceptReq(e, keys) =>
        AcceptRefines(file, trust, e, keys);
        HistoryRefines(Accepted(file, e, LinesOf(KnownHost(e), keys)), TrustAccepted(trust, e, keys), requests[1..]);
    }
  }

  // From a missing file the text always behaves as the map.
  lemma FileIsMap(requests: seq<Request>)
    requires Proper(requests)
    ensures Represents(FileAfter(None, requests).0, TrustAfter(map[], requests).0)
    ensures FileAfter(None, requests).1 == TrustAfter(map[], requests).1
  {
    MissingFile();
    HistoryRefines(None, map[], requests);
  }

  // Keys once known stay known until another acceptance for the same endpoint.
  lemma {:induction false} KnownKept(trust: Trust, requests: seq<Request>, e: Endpoint)
    requires Known(trust, e) != multiset{}
    requires forall i :: 0 <= i < |requests| && requests[i].AcceptReq? ==> requests[i].e != e
    ensures Known(TrustAfter(trust, requests).0, e) == Known(trust, e)
    decreases requests
  {
    if requests != [] {
      match requests[0]
      case PrepareReq(d, keys) => KnownKept(TrustPrepared(trust, d, keys).0, requests[1..], e);
      case AcceptReq(d, keys) => KnownKept(TrustAccepted(trust, d, keys), requests[1..], e);
    }
  }

  // After an acceptance, whatever happens to other endpoints and however often
  // changed scans are refused, the accepted keys are trusted again.
  lemma AcceptedIsTrusted(file: Option<string>, trust: Trust, e: Endpoint, keys: seq<string>,
                          requests: seq<Request>, again: seq<string>)
    requires Represents(file, trust) && ValidEndpoint(e) && AreKeys(keys) && keys != [] && Proper(requests)
    requires AreKeys(again) && multiset(again) == multiset(keys)
    requires forall i :: 0 <= i < |requests| && requests[i].AcceptReq? ==> requests[i].e != e
    ensures var accepted := Accepted(file, e, LinesOf(KnownHost(e), keys));
            Prepared(FileAfter(accepted, requests).0, e, again).1.Ok?
  {
    hide Represents, Prepared, Accepted;
    var accepted := Accepted(file, e, LinesOf(KnownHost(e), keys));
    var trust' := TrustAccepted(trust, e, keys);
    AcceptRefines(file, trust, e, keys);
    HistoryRefines(accepted, trust', requests);
    assert keys[0] in multiset(keys);
    KnownKept(trust', requests, e);
    PrepareRefines(FileAfter(accepted, requests).0, TrustAfter(trust', requests).0, e, again);
  }

  // ---- The object ----

  lemma {:induction false} OthersAppend(a: seq<string>, line: string, target: string)
    ensures Others(a + [line], target) == Others(a, target) + (if Matches(line, target) then [] else [line])
  {
    if a == [] {
      assert a + [line] == [line] && [line][1..] == [];
    } else {
      assert (a + [line])[1..] == a[1..] + [line];
      OthersAppend(a[1..], line, target);
    }
  }

  lemma {:induction false} MatchingAppend(a: seq<string>, line: string, target: string)
    ensures Matching(a + [line], target) == Matching(a, target) + (if Matches(line, target) then [line] else [])
  {
    if a == [] {
      assert a + [line] == [line] && [line][1..] == [];
    } else {
      assert (a + [line])[1..] == a[1..] + [line];
      MatchingAppend(a[1..], line, target);
    }
  }

  lemma {:induction false} CleanAppend(a: seq<string>, line: string)
    ensures Clean(a + [line]) == Clean(a) + (if Trim(line) != "" then [Trim(line)] else [])
  {
    if a == [] {
      assert a + [line] == [line] && [line][1..] == [];
    } else {
      assert (a + [line])[1..] == a[1..] + [line];
      CleanAppend(a[1..], line);
    }
  }

  // The in-place filter of Accept: it writes behind the place it reads.
  method KeepOthers(lines: array<string>, target: string) returns (kept: nat)
    modifies lines
    ensures kept <= lines.Length
    ensures lines[..kept] == Others(old(lines[..]), target)
  {
    ghost var before := lines[..];
    kept := 0;
    for i := 0 to lines.Length
      invariant kept <= i
      invariant lines[..kept] == Others(before[..i], target)
      invariant lines[i..] == before[i..]
    {
      hide Matches;
      OthersAppend(before[..i], before[i], target);
      assert before[..i + 1] == before[..i] + [before[i]];
      assert lines[i] == lines[i..][0] == before[i];
      if !Matches(lines[i], target) {
        lines[kept] := lines[i];
        kept := kept + 1;
      }
      assert lines[i + 1..] == before[i + 1..];
    }
    assert before[..lines.Length] == before;
  }

  class SshTrustStore {
    var file: Option<string>

    constructor ()
      ensures file == None
    {
      file := None;
    }

    method ReadLines() returns (lines: seq<string>)
      ensures lines == Read(file)
    {
      lines := [];
      if file.None? {
        return;
      }
      var scanned := Split(file.value, '\n');
      for i := 0 to |scanned|
        invariant lines == Clean(scanned[..i])
      {
        CleanAppend(scanned[..i], scanned[i]);
        assert scanned[..i + 1] == scanned[..i] + [scanned[i]];
        var line := Trim(scanned[i]);
        if line != "" {
          lines := lines + [line];
        }
      }
      assert scanned[..|scanned|] == scanned;
    }

    method WriteLines(lines: seq<string>)
      modifies this
      ensures file == Write(lines)
    {
      file := Some(Join(lines, '\n') + "\n");
    }

    method MatchingLines(lines: seq<string>, target: string) returns (matches: seq<string>)
      ensures matches == Matching(lines, target)
    {
      matches := [];
      for i := 0 to |lines|
        invariant matches == Matching(lines[..i], target)
      {
        hide Matches;
        MatchingAppend(lines[..i], lines[i], target);
        assert lines[..i + 1] == lines[..i] + [lines[i]];
        if Matches(lines[i], target) {
          matches := matches + [lines[i]];
        }
      }
      assert lines[..|lines|] == lines;
    }

    // `scan` is what ssh-keyscan gives: an error, or at least one key.
    method Prepare(host: string, port: nat, scan: Result<seq<string>, ()>) returns (r: Result<(), Error>)
      requires scan.Ok? ==> scan.value != []
      modifies this
      ensures !ValidHost(host, port) ==> r == Err(InvalidHost) && file == old(file)
      ensures ValidHost(host, port) && scan.Err? ==> r == Err(ScanFailed) && file == old(file)
      ensures ValidHost(host, port) && scan.Ok? ==>
                (file, r) == Prepared(old(file), Endpoint(host, port), scan.value)
    {
      if !ValidHost(host, port) {
        return Err(InvalidHost);
      }
      if scan.Err? {
        return Err(ScanFailed);
      }
      var target := KnownHost(Endpoint(host, port));
      var newLines := [];
      for i := 0 to |scan.value|
        invariant newLines == LinesOf(target, scan.value)[..i]
      {
        newLines := newLines + [Line(target, scan.value[i])];
      }
      assert newLines == LinesOf(target, scan.value);
      var existing := ReadLines();
      var current := MatchingLines(existing, target);
      if |current| == 0 {
        WriteLines(existing + newLines);
        return Ok(());
      }
      var same := EqualStringSets(current, newLines);
      if same {
        return Ok(());
      }
      r := Err(Changed(Pending(host, port, newLines)));
    }

    method Accept(pending: Option<Pending>) returns (r: Result<(), Error>)
      modifies this
      ensures r.Ok? <==> pending.Some? && pending.value.lines != []
      ensures r.Err? ==> r == Err(InvalidPending) && file == old(file)
      ensures r.Ok? ==> file == Accepted(old(file), Endpoint(pending.value.host, pending.value.port), pending.value.lines)
    {
      if pending.None? || pending.value.lines == [] {
        return Err(InvalidPending);
      }
      var lines := ReadLines();
      var existing := new string[|lines|](i requires 0 <= i < |lines| => lines[i]);
      assert existing[..] == lines;
      var kept := KeepOthers(existing, KnownHost(Endpoint(pending.value.host, pending.value.port)));
      WriteLines(existing[..kept] + pending.value.lines);
      r := Ok(());
    }
  }
}
