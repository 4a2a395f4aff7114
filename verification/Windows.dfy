/** Minimising the windows of a session and bringing them back: the text kept in
  * between names the window to activate and every window to map.
  */
module Windows {
  import opened Options
  import opened Strings

  // What the window tool answers: the visible windows of the process, the active
  // window, its name, and the visible windows of that window's process.
  datatype Desktop = Desktop(
    visible: Option<string>, active: Option<string>, name: string, related: Option<string>)

  datatype Choice = Choice(primary: string, ids: seq<string>)

  function WithPrimary(primary: string, ids: seq<string>): seq<string> {
    if primary in ids then ids else ids + [primary]
  }

  // The windows to minimise.
  function Choose(d: Desktop): Option<Choice> {
    if d.visible.Some? && Fields(d.visible.value) != [] then
      var ids := Fields(d.visible.value);
      Some(Choice(ids[|ids| - 1], ids))
    else if d.active.None? || Trim(d.active.value) == "" || Trim(d.name) == "ThinPi" then None
    else
      var primary := Trim(d.active.value);
      var ids := if d.related.Some? && Fields(d.related.value) != [] then Fields(d.related.value) else [primary];
      Some(Choice(primary, WithPrimary(primary, ids)))
  }

  function StateText(c: Choice): string {
    c.primary + "|" + Join(c.ids, ',')
  }

  predicate All(ids: seq<string>, gone: set<string>) {
    forall i :: 0 <= i < |ids| ==> ids[i] !in gone
  }

  // `gone` are the windows the tool fails on; `minimized` is what it was told.
  method Minimize(d: Desktop, gone: set<string>) returns (state: Option<string>, minimized: seq<string>)
    ensures state.Some? <==> Choose(d).Some? && All(Choose(d).value.ids, gone)
    ensures state.Some? ==> state.value == StateText(Choose(d).value) && minimized == Choose(d).value.ids
  {
    hide Fields, Trim, Join;
    state, minimized := None, [];
    var windowIds := if d.visible.Some? then Fields(d.visible.value) else [];
    var primary := "";
    if |windowIds| > 0 {
      primary := windowIds[|windowIds| - 1];
    } else {
      primary := if d.active.Some? then Trim(d.active.value) else "";
      if d.active.None? || primary == "" {
        return;
      }
      if Trim(d.name) == "ThinPi" {
        return;
      }
      windowIds := [primary];
      if d.related.Some? && Fields(d.related.value) != [] {
        windowIds := Fields(d.related.value);
      }
    }
    var included := false;
    for i := 0 to |windowIds|
      invariant included <==> primary in windowIds[..i]
    {
      assert windowIds[..i + 1] == windowIds[..i] + [windowIds[i]];
      included := included || windowIds[i] == primary;
    }
    assert windowIds[..|windowIds|] == windowIds;
    if !included {
      windowIds := windowIds + [primary];
    }
    assert Choose(d) == Some(Choice(primary, windowIds));
    for i := 0 to |windowIds|
      invariant minimized == windowIds[..i] && forall k :: 0 <= k < i ==> windowIds[k] !in gone
    {
      if windowIds[i] in gone {
        return;
      }
      minimized := minimized + [windowIds[i]];
    }
    state := Some(primary + "|" + Join(windowIds, ','));
  }

  // ---- Resume ----

  function NonEmpty(parts: seq<string>): (r: seq<string>)
    ensures forall x :: x in r <==> x in parts && x != ""
  {
    if parts == [] then []
    else if parts[0] == "" then NonEmpty(parts[1..])
    else [parts[0]] + NonEmpty(parts[1..])
  }

  // What a state text asks for: cut at the first bar, then at every comma.
  function ReadState(text: string): Option<Choice> {
    if '|' !in text then None
    else
      var primary := Split(text, '|')[0];
      SplitHead(text, '|');
      var rest := text[|primary| + 1..];
      if primary == "" || rest == "" then None
      else Some(Choice(primary, NonEmpty(Split(rest, ','))))
  }

  method Resume(text: string, gone: set<string>) returns (ok: bool, mapped: seq<string>, activated: Option<string>)
    ensures ok <==> ReadState(text).Some? && All(ReadState(text).value.ids, gone) && ReadState(text).value.primary !in gone
    ensures ok ==> mapped == ReadState(text).value.ids && activated == Some(ReadState(text).value.primary)
    ensures !ok ==> activated.None?
  {
    hide Split;
    ok, mapped, activated := false, [], None;
    if '|' !in text {
      return;
    }
    var primary := Split(text, '|')[0];
    SplitHead(text, '|');
    var rest := text[|primary| + 1..];
    if primary == "" || rest == "" {
      return;
    }
    var parts := Split(rest, ',');
    for i := 0 to |parts|
      invariant mapped == NonEmpty(parts[..i]) && forall k :: 0 <= k < |mapped| ==> mapped[k] !in gone
    {
      NonEmptyMore(parts[..i], parts[i]);
      assert parts[..i + 1] == parts[..i] + [parts[i]];
      if parts[i] != "" {
        if parts[i] in gone {
          assert parts[i] in NonEmpty(parts);
          return;
        }
        mapped := mapped + [parts[i]];
      }
    }
    assert parts[..|parts|] == parts;
    if primary in gone {
      return;
    }
    ok, activated := true, Some(primary);
  }

  lemma {:induction false} NonEmptyMore(parts: seq<string>, last: string)
    ensures NonEmpty(parts + [last]) == NonEmpty(parts) + if last == "" then [] else [last]
  {
    if parts == [] {
      assert parts + [last] == [last];
    } else {
      assert (parts + [last])[1..] == parts[1..] + [last];
      NonEmptyMore(parts[1..], last);
    }
  }

  lemma {:induction false} NonEmptyAll(parts: seq<string>)
    requires "" !in parts
    ensures NonEmpty(parts) == parts
  {
    if parts != [] {
      assert parts[0] in parts && "" !in parts[1..];
      NonEmptyAll(parts[1..]);
    }
  }

  // ---- The round trip ----

  lemma {:induction false} PartsHaveNoSeparator(a: string, sep: char)
    ensures forall x :: x in Split(a, sep) ==> sep !in x
  {
    if a != "" {
      PartsHaveNoSeparator(a[1..], sep);
    }
  }

  lemma {:induction false} JoinNotEmpty(parts: seq<string>, sep: char)
    requires parts != [] && parts[0] != ""
    ensures Join(parts, sep) != ""
  {
  }

  // Resume restores exactly what was minimised, in the same order, and activates
  // the same window, if and only if no comma is in a window id and no bar in the
  // primary one.
  lemma StateReadsBack(c: Choice)
    requires c.primary in c.ids && forall x :: x in c.ids ==> x != ""
    ensures ReadState(StateText(c)) == Some(c) <==> '|' !in c.primary && forall x :: x in c.ids ==> ',' !in x
  {
    hide Join, Split;
    var text, rest := StateText(c), Join(c.ids, ',');
    assert text == c.primary + ['|'] + rest;
    assert text[|c.primary|] == '|';
    SplitHead(text, '|');
    if '|' !in c.primary {
      SplitAt(c.primary, '|', rest);
      assert text[|c.primary| + 1..] == rest;
      assert c.ids[0] in c.ids;
      JoinNotEmpty(c.ids, ',');
      if forall x :: x in c.ids ==> ',' !in x {
        SplitJoin(c.ids, ',');
        NonEmptyAll(c.ids);
      } else {
        PartsHaveNoSeparator(rest, ',');
      }
    }
  }

  // The primary window is always among the minimised ones, and none is nameless. It
  // is the last visible window of the process, or the active one if it has none.
  lemma ChosenWell(d: Desktop)
    requires Choose(d).Some?
    ensures Choose(d).value.primary in Choose(d).value.ids
    ensures forall x :: x in Choose(d).value.ids ==> x != ""
    ensures d.visible.Some? && Fields(d.visible.value) != [] ==>
              var ids := Fields(d.visible.value);
              Choose(d).value.ids == ids && Choose(d).value.primary == ids[|ids| - 1]
    ensures d.visible.None? || Fields(d.visible.value) == [] ==>
              && d.active.Some? && Choose(d).value.primary == Trim(d.active.value) && Trim(d.name) != "ThinPi"
              && (d.related.Some? && Fields(d.related.value) != [] ==> Fields(d.related.value) <= Choose(d).value.ids)
  {
    hide Fields, Trim;
    if d.visible.Some? {
      FieldsNotEmpty(d.visible.value);
    }
    if d.related.Some? {
      FieldsNotEmpty(d.related.value);
    }
  }

  lemma {:induction false} FieldsNotEmpty(s: string)
    ensures forall x :: x in Fields(s) ==> x != ""
    decreases |s|
  {
    if s != "" {
      if IsSpace(s[0]) {
        FieldsNotEmpty(s[1..]);
      } else {
        FieldsNotEmpty(s[TokenLength(s)..]);
      }
    }
  }

  // From the desktop through the text and back: what is restored is what was
  // minimised, in its order, with the same primary window, exactly when no chosen
  // id has a comma and the primary has no bar.
  lemma DesktopReadsBack(d: Desktop)
    requires Choose(d).Some?
    ensures var c := Choose(d).value;
            ReadState(StateText(c)) == Some(c) <==> '|' !in c.primary && forall x :: x in c.ids ==> ',' !in x
  {
    hide Choose, ReadState, StateText;
    ChosenWell(d);
    StateReadsBack(Choose(d).value);
  }

  // So minimising and resuming with windows that stay maps exactly the minimised
  // windows again and activates the primary.
  method MinimizeAndResume(d: Desktop, gone: set<string>)
    returns (state: Option<string>, minimized: seq<string>, mapped: seq<string>, activated: Option<string>)
    ensures state.Some? <==> Choose(d).Some? && All(Choose(d).value.ids, gone)
    ensures state.Some? && '|' !in Choose(d).value.primary && (forall x :: x in Choose(d).value.ids ==> ',' !in x) ==>
              mapped == minimized == Choose(d).value.ids && activated == Some(Choose(d).value.primary)
  {
    hide Choose, ReadState, StateText;
    mapped, activated := [], None;
    state, minimized := Minimize(d, gone);
    if state.Some? {
      var ok;
      ok, mapped, activated := Resume(state.value, gone);
      DesktopReadsBack(d);
      ChosenWell(d);
    }
  }
}
