/** The migration runner: from an empty database, through any number of failures
  * and crashes, the applied migrations are always a prefix of the planned list.
  */
module Migrations {
  import opened Options
  import opened Strings
  import opened Sorting

  const MAX_INT: nat := 0x7fff_ffff_ffff_ffff

  // strconv.Atoi.
  function ParseInt(s: string): Option<int> {
    var digits := if s != "" && (s[0] == '+' || s[0] == '-') then s[1..] else s;
    if digits == "" || !AllDigits(digits) then None
    else
      var value: int := Atoi(digits);
      if s[0] == '-' then (if value <= MAX_INT + 1 then Some(-value) else None)
      else if value <= MAX_INT then Some(value) else None
  }

  predicate IsMigration(name: string, directories: set<string>) {
    name !in directories && |name| >= 4 && name[|name| - 4..] == ".sql"
  }

  function Version(name: string): Option<int> {
    ParseInt(Split(name, '_')[0])
  }

  // The versions still to come, after `done`: files in order, a version once, up
  // to the first name without a version.
  function Plan(names: seq<string>, directories: set<string>, done: seq<int>): seq<int> {
    if names == [] then done
    else if !IsMigration(names[0], directories) then Plan(names[1..], directories, done)
    else match Version(names[0])
      case None => done
      case Some(v) => Plan(names[1..], directories, if v in done then done else done + [v])
  }

  function Planned(names: seq<string>, directories: set<string>): seq<int> {
    Plan(Sort(names), directories, [])
  }

  predicate AllNamed(names: seq<string>, directories: set<string>) {
    forall name :: name in names && IsMigration(name, directories) ==> Version(name).Some?
  }

  predicate NoRepeats(s: seq<int>) {
    forall i, j :: 0 <= i < j < |s| ==> s[i] != s[j]
  }

  lemma {:induction false} PlanExtends(names: seq<string>, directories: set<string>, done: seq<int>)
    requires NoRepeats(done)
    ensures done <= Plan(names, directories, done) && NoRepeats(Plan(names, directories, done))
  {
    hide IsMigration, Version;
    if names != [] {
      var v := Version(names[0]);
      if IsMigration(names[0], directories) && v.Some? && v.value !in done {
        PlanExtends(names[1..], directories, done + [v.value]);
      } else {
        PlanExtends(names[1..], directories, done);
      }
    }
  }

  // Every migration file's version is in the plan of a fully named list.
  lemma {:induction false} PlanHasAll(names: seq<string>, directories: set<string>, done: seq<int>, name: string)
    requires NoRepeats(done) && AllNamed(names, directories) && name in names && IsMigration(name, directories)
    ensures Version(name).Some? && Version(name).value in Plan(names, directories, done)
  {
    hide IsMigration, Version;
    var v := Version(names[0]);
    var next := if IsMigration(names[0], directories) && v.Some? && v.value !in done then done + [v.value] else done;
    PlanExtends(names[1..], directories, next);
    if name != names[0] {
      PlanHasAll(names[1..], directories, next, name);
    } else {
      assert v.value in next;
    }
  }

  // The plan follows the order of the names: each of its versions is that of a
  // migration file, and their places in the list rise.
  lemma {:induction false} PlanPlaces(names: seq<string>, directories: set<string>, done: seq<int>) returns (places: seq<nat>)
    requires NoRepeats(done)
    ensures var plan := Plan(names, directories, done);
            && |plan| == |done| + |places|
            && (forall k :: 0 <= k < |places| ==>
                  && places[k] < |names| && IsMigration(names[places[k]], directories)
                  && Version(names[places[k]]) == Some(plan[|done| + k]))
            && forall k, l :: 0 <= k < l < |places| ==> places[k] < places[l]
  {
    hide IsMigration, Version;
    places := [];
    if names != [] {
      var v := Version(names[0]);
      if !IsMigration(names[0], directories) || (v.Some? && v.value in done) {
        var rest := PlanPlaces(names[1..], directories, done);
        places := seq(|rest|, k requires 0 <= k < |rest| => rest[k] + 1);
      } else if v.Some? {
        PlanExtends(names[1..], directories, done + [v.value]);
        var rest := PlanPlaces(names[1..], directories, done + [v.value]);
        places := [0] + seq(|rest|, k requires 0 <= k < |rest| => rest[k] + 1);
      }
    }
  }

  // So migrations are applied in the order of their file names.
  lemma PlannedInOrder(names: seq<string>, directories: set<string>, i: nat, j: nat) returns (a: string, b: string)
    requires i < j < |Planned(names, directories)|
    ensures IsMigration(a, directories) && Version(a) == Some(Planned(names, directories)[i])
    ensures IsMigration(b, directories) && Version(b) == Some(Planned(names, directories)[j])
    ensures a in Sort(names) && b in Sort(names) && !Less(b, a)
  {
    hide IsMigration, Version;
    var places := PlanPlaces(Sort(names), directories, []);
    SortSorted(names);
    a, b := Sort(names)[places[i]], Sort(names)[places[j]];
  }

  // The version of a file is the number before its first underscore.
  lemma VersionMeans(digits: string, rest: string)
    requires digits != "" && AllDigits(digits) && Atoi(digits) <= MAX_INT
    ensures Version(digits + "_" + rest) == Some(Atoi(digits))
  {
    assert '_' !in digits;
    SplitAt(digits, '_', rest);
    assert digits + "_" + rest == digits + ['_'] + rest;
    assert IsDigit(digits[0]);
  }

  // Where a database that is a prefix of the plan stands when the runner comes to
  // the next new version: at it, or past it.
  lemma NextInPlan(plan: seq<int>, done: seq<int>, applied: seq<int>, v: int)
    requires NoRepeats(plan) && done <= applied <= plan && done + [v] <= plan
    ensures v in applied ==> done + [v] <= applied
    ensures v !in applied ==> applied == done
  {
    assert (done + [v])[|done|] == v == plan[|done|];
    assert forall k :: 0 <= k < |applied| ==> applied[k] == plan[k];
    if v in applied {
      var p :| 0 <= p < |applied| && applied[p] == v;
      assert plan[p] == v;
      assert p == |done|;
    } else {
      assert |applied| <= |done| || v in applied;
    }
  }

  lemma SortKeepsNames(names: seq<string>, directories: set<string>)
    ensures AllNamed(Sort(names), directories) <==> AllNamed(names, directories)
  {
    hide IsMigration, Version;
    forall name ensures name in names <==> name in Sort(names) {
      assert name in multiset(names) <==> name in multiset(Sort(names));
      assert name in names <==> name in multiset(names);
    }
  }

  // The database was valid after each migration beyond the first `start`.
  ghost predicate AllIntact(applied: seq<int>, start: nat, intact: seq<int> -> bool) {
    forall n :: start < n <= |applied| ==> intact(applied[..n])
  }

  lemma AllChecked(before: seq<int>, version: int, start: nat, intact: seq<int> -> bool)
    requires intact(before + [version]) && AllIntact(before, start, intact)
    ensures AllIntact(before + [version], start, intact)
  {
    var after := before + [version];
    forall n | start < n <= |after| ensures intact(after[..n]) {
      if n == |after| {
        assert after[..n] == after;
      } else {
        assert after[..n] == before[..n];
      }
    }
  }

  lemma NamedMore(entries: seq<string>, i: nat, directories: set<string>)
    requires i < |entries| && AllNamed(entries[..i], directories)
    ensures IsMigration(entries[i], directories) && Version(entries[i]).None? ==> !AllNamed(entries, directories)
    ensures !IsMigration(entries[i], directories) || Version(entries[i]).Some? ==> AllNamed(entries[..i + 1], directories)
  {
    hide IsMigration, Version;
    assert entries[..i + 1] == entries[..i] + [entries[i]];
    assert entries[i] in entries;
  }

  // What one directory entry means for a database that is a prefix of the plan.
  lemma PlanStep(entries: seq<string>, i: nat, directories: set<string>, done: seq<int>, applied: seq<int>)
    requires i < |entries| && NoRepeats(done) && done <= applied <= Plan(entries[i..], directories, done)
    ensures var plan, v := Plan(entries[i..], directories, done), Version(entries[i]);
            if !IsMigration(entries[i], directories) then plan == Plan(entries[i + 1..], directories, done)
            else v.Some? ==>
              var next := if v.value in done then done else done + [v.value];
              && plan == Plan(entries[i + 1..], directories, next) && NoRepeats(next) && next <= plan
              && (if v.value in applied then next <= applied else applied == done && next == applied + [v.value])
  {
    hide IsMigration, Version;
    assert entries[i..][0] == entries[i] && entries[i..][1..] == entries[i + 1..];
    PlanExtends(entries[i..], directories, done);
    var v := Version(entries[i]);
    if IsMigration(entries[i], directories) && v.Some? {
      var next := if v.value in done then done else done + [v.value];
      PlanExtends(entries[i + 1..], directories, next);
      if v.value !in done {
        NextInPlan(Plan(entries[i..], directories, done), done, applied, v.value);
      }
    }
  }

  lemma PlanEnd(directories: set<string>, done: seq<int>)
    ensures Plan([], directories, done) == done
  {
  }

  // ---- The runner ----

  // A statement succeeds, fails without effect, or the process dies at it, before
  // or after its effect.
  datatype Fate = Fine | Fails | Dies | DiesAfter

  datatype Outcome = Completed | Stopped | Died

  // Whether the foreign keys are valid after these bodies.
  type Intact = seq<int> -> bool

  class Database {
    // schema_migrations, and the bodies that have been committed.
    var applied: seq<int>
    var schema: seq<int>
    // The foreign-key switch of the one connection.
    var enforced: bool
    var fates: seq<Fate>
    // A pragma that should have turned the switch on has failed.
    ghost var switchFailed: bool
    // How many migrations were applied when the foreign keys were last found valid.
    ghost var checked: nat

    constructor ()
      ensures applied == [] && schema == [] && checked == 0 && fates == []
    {
      applied, schema, enforced, fates := [], [], false, [];
      switchFailed, checked := false, 0;
    }

    ghost predicate Known(intact: Intact)
      reads this
    {
      schema == applied && checked <= |applied| && (checked > 0 ==> intact(applied[..checked]))
    }

    // Applied migrations are a prefix of the plan, body and record together.
    ghost predicate Consistent(names: seq<string>, directories: set<string>, intact: Intact)
      reads this
    {
      Known(intact) && applied <= Planned(names, directories)
    }

    method Execute() returns (fate: Fate)
      modifies this`fates
      ensures fate == (if old(fates) == [] then Fine else old(fates)[0])
      ensures fates == if old(fates) == [] then [] else old(fates)[1..]
    {
      fate := Fine;
      if fates != [] {
        fate, fates := fates[0], fates[1..];
      }
    }

    // PRAGMA foreign_keys.
    method Enforce(on: bool) returns (fate: Fate)
      modifies this`fates, this`enforced, this`switchFailed
      ensures fate.Fine? ==> enforced == on
      ensures fate.Fails? ==> enforced == old(enforced)
      ensures switchFailed == (old(switchFailed) || (on && fate.Fails?))
      ensures old(fates) == [] ==> fate.Fine? && fates == []
    {
      fate := Execute();
      if fate.Fine? || fate.DiesAfter? {
        enforced := on;
      }
      switchFailed := switchFailed || (on && fate.Fails?);
    }

    // One migration's transaction: its body and its row, or neither.
    method Transaction(version: int) returns (fate: Fate)
      modifies this`fates, this`applied, this`schema
      ensures (applied, schema) == (old(applied), old(schema))
              || (applied, schema) == (old(applied) + [version], old(schema) + [version])
      ensures fate.Fine? ==> applied == old(applied) + [version]
      ensures fate.Fails? ==> applied == old(applied)
      ensures old(fates) == [] ==> fate.Fine? && fates == []
    {
      // BEGIN, the body, the row.
      for i := 0 to 3
        invariant applied == old(applied) && schema == old(schema)
        invariant old(fates) == [] ==> fates == []
      {
        fate := Execute();
        if fate.Fails? {
          return;
        }
        if !fate.Fine? {
          return Dies;
        }
      }
      // COMMIT.
      fate := Execute();
      if fate.Fine? || fate.DiesAfter? {
        applied, schema := applied + [version], schema + [version];
      }
    }

    // PRAGMA foreign_key_check: a query that fails, or finds a broken key, fails.
    method Check(intact: Intact) returns (fate: Fate)
      modifies this`fates, this`checked
      ensures fate.Fine? ==> intact(applied) && checked == |applied|
      ensures !fate.Fine? ==> checked == old(checked)
      ensures old(fates) == [] ==> fates == [] && fate == if intact(applied) then Fine else Fails
    {
      fate := Execute();
      if fate.Fine? {
        if intact(applied) {
          checked := |applied|;
        } else {
          fate := Fails;
        }
      }
    }

    // Pauses the switch, applies one migration, restores the switch and checks.
    method ApplyOne(version: int, intact: Intact) returns (fate: Fate)
      requires enforced && !switchFailed && Known(intact)
      modifies this
      ensures Known(intact) && (applied == old(applied) || applied == old(applied) + [version])
      ensures fate.Fine? || fate.Fails? ==> (enforced <==> !switchFailed)
      ensures fate.Fine? ==> enforced && applied == old(applied) + [version] && checked == |applied| && intact(applied)
      ensures !fate.Fine? ==> checked == old(checked)
      ensures old(fates) == [] ==>
                && fates == [] && !switchFailed
                && (fate.Fine? || (fate.Fails? && applied == old(applied) + [version] && !intact(applied)))
    {
      fate := Enforce(false);
      if !fate.Fine? {
        return;
      }
      fate := Transaction(version);
      assert applied[..checked] == old(applied)[..checked];
      if !fate.Fine? && !fate.Fails? {
        return;
      }
      var back := Enforce(true);
      if !back.Fine? {
        return back;
      }
      if fate.Fails? {
        return;
      }
      assert applied[..|applied|] == applied;
      fate := Check(intact);
    }

    method Migrate(names: seq<string>, directories: set<string>, intact: Intact) returns (outcome: Outcome)
      requires enforced && !switchFailed && Consistent(names, directories, intact)
      modifies this
      ensures Consistent(names, directories, intact) && old(applied) <= applied
      // Unless a switch-on pragma failed, foreign keys are enforced at every return.
      ensures !outcome.Died? ==> (enforced <==> !switchFailed)
      ensures outcome.Completed? ==> applied == Planned(names, directories) && AllNamed(names, directories)
      // What it applied was valid, and the result was checked exactly if it applied
      // something or found a checked database.
      ensures outcome.Completed? ==> AllIntact(applied, |old(applied)|, intact)
      ensures outcome.Completed? ==>
                (checked == |applied| <==> |applied| > |old(applied)| || old(checked) == |old(applied)|)
      // Without failing statements only a bad name or a broken key stops it.
      ensures old(fates) == [] ==> fates == [] && !outcome.Died? && !switchFailed
      ensures old(fates) == [] && outcome.Stopped? ==>
                !AllNamed(names, directories) || (|applied| > |old(applied)| && !intact(applied))
    {
      hide IsMigration, Version, Split, Sort;
      outcome := Died;
      var fate := Execute();
      if !fate.Fine? {
        return if fate.Fails? then Stopped else Died;
      }
      var entries := Sort(names);
      SortKeepsNames(names, directories);
      ghost var plan, done := Planned(names, directories), [];
      assert entries[..0] == [] && entries[0..] == entries;
      assert plan == Plan(entries[0..], directories, done) && NoRepeats(done) && AllNamed(entries[..0], directories);
      hide Plan, NoRepeats, AllNamed, AllIntact, Planned, Known;
      for i := 0 to |entries|
        invariant Known(intact) && old(applied) <= applied
        invariant NoRepeats(done) && done <= applied <= plan == Plan(entries[i..], directories, done)
        invariant enforced && !switchFailed && (old(fates) == [] ==> fates == [])
        invariant AllNamed(entries[..i], directories)
        invariant checked == if |applied| > |old(applied)| then |applied| else old(checked)
        invariant AllIntact(applied, |old(applied)|, intact)
      {
        PlanStep(entries, i, directories, done, applied);
        NamedMore(entries, i, directories);
        if IsMigration(entries[i], directories) {
          var parsed := Version(entries[i]);
          if parsed.None? {
            return Stopped;
          }
          var version := parsed.value;
          fate := Execute();
          if !fate.Fine? {
            return if fate.Fails? then Stopped else Died;
          }
          done := if version in done then done else done + [version];
          if version !in applied {
            ghost var before := applied;
            fate := ApplyOne(version, intact);
            if !fate.Fine? {
              return if fate.Fails? then Stopped else Died;
            }
            AllChecked(before, version, |old(applied)|, intact);
          }
        }
      }
      assert entries[..|entries|] == entries && entries[|entries|..] == [];
      assert plan == done by { PlanEnd(directories, done); }
      outcome := Completed;
    }

    // Opening the database: a new connection, its switch, and the migrations.
    method Open(names: seq<string>, directories: set<string>, intact: Intact) returns (outcome: Outcome)
      requires Consistent(names, directories, intact)
      modifies this
      ensures Consistent(names, directories, intact) && old(applied) <= applied
      ensures !outcome.Died? ==> (enforced <==> !switchFailed)
      ensures outcome.Completed? ==> applied == Planned(names, directories) && AllNamed(names, directories)
      ensures outcome.Completed? ==>
                (checked == |applied| <==> |applied| > |old(applied)| || old(checked) == |old(applied)|)
      ensures outcome.Completed? ==> AllIntact(applied, |old(applied)|, intact)
      ensures old(fates) == [] ==> fates == [] && !outcome.Died? && !switchFailed
      ensures old(fates) == [] && outcome.Stopped? ==>
                !AllNamed(names, directories) || (|applied| > |old(applied)| && !intact(applied))
    {
      enforced, switchFailed := false, false;
      var fate := Enforce(true);
      if !fate.Fine? {
        return if fate.Fails? then Stopped else Died;
      }
      outcome := Migrate(names, directories, intact);
    }

    // Lives of the process one after the other, each opening the database anew.
    method Restart(names: seq<string>, directories: set<string>, intact: Intact, lives: seq<seq<Fate>>)
      returns (outcome: Outcome)
      requires applied == [] && schema == [] && checked == 0
      modifies this
      ensures Consistent(names, directories, intact) && NoRepeats(applied)
      ensures lives != [] && !outcome.Died? ==> (enforced <==> !switchFailed)
      ensures outcome.Completed? ==> applied == Planned(names, directories)
    {
      outcome := Stopped;
      PlanExtends(Sort(names), directories, []);
      for i := 0 to |lives|
        invariant Consistent(names, directories, intact)
        invariant i > 0 && !outcome.Died? ==> (enforced <==> !switchFailed)
        invariant outcome.Completed? ==> applied == Planned(names, directories)
      {
        fates := lives[i];
        outcome := Open(names, directories, intact);
      }
    }
  }

  // ---- A broken migration ----

  lemma OnePlanned()
    ensures Planned(["1_a.sql"], {}) == [1] && AllNamed(["1_a.sql"], {})
  {
    SplitAt("1", '_', "a.sql");
    assert "1_a.sql" == "1" + ['_'] + "a.sql";
    assert Version("1_a.sql") == Some(1);
    assert "1_a.sql"[3..] == ".sql";
    assert Sort(["1_a.sql"]) == ["1_a.sql"];
  }

  // A migration that breaks the foreign keys stops the run that applies it; the
  // next run completes over the broken database.
  method BrokenOnce(intact: Intact) returns (first: Outcome, second: Outcome, applied: seq<int>)
    requires !intact([1])
    ensures first.Stopped? && second.Completed? && applied == [1] && !intact(applied)
  {
    OnePlanned();
    hide Planned, AllNamed;
    var db := new Database();
    first := db.Open(["1_a.sql"], {}, intact);
    assert db.applied[..|db.applied|] == db.applied;
    second := db.Open(["1_a.sql"], {}, intact);
    applied := db.applied;
  }
}
