/** The bounded copy of a client's output and the channel that wakes its reader. */
module Output {
  function Last<T>(s: seq<T>, n: nat): seq<T> {
    if |s| > n then s[|s| - n..] else s
  }

  lemma LastOfSuffix<T>(a: seq<T>, b: seq<T>, n: nat)
    requires |b| >= n
    ensures Last(a + b, n) == Last(b, n)
  {
    assert (a + b)[|a| + |b| - n..] == b[|b| - n..];
  }

  // Trimming early loses nothing: the copy is always the end of everything written.
  lemma LastAppend<T>(history: seq<T>, n: nat, p: seq<T>)
    ensures Last(Last(history, n) + p, n) == Last(history + p, n)
  {
    if |history| > n {
      var start, kept := history[..|history| - n], history[|history| - n..];
      assert start + (kept + p) == history + p;
      LastOfSuffix(start, kept + p, n);
    }
  }

  type Byte = bv8

  class BoundedOutput {
    const limit: nat
    const wakes: bool
    var data: seq<Byte>
    // One place in the channel.
    var signal: bool
    ghost var history: seq<Byte>

    ghost predicate Valid()
      reads this
    {
      data == Last(history, limit)
    }

    constructor (limit: nat, wakes: bool)
      ensures Valid() && history == [] && !signal && this.limit == limit && this.wakes == wakes
    {
      this.limit, this.wakes := limit, wakes;
      data, signal, history := [], false, [];
    }

    method Write(p: seq<Byte>) returns (written: nat)
      requires Valid()
      modifies this
      ensures Valid() && history == old(history) + p && written == |p|
      ensures signal == (old(signal) || wakes)
    {
      LastAppend(history, limit, p);
      data := data + p;
      if |data| > limit {
        data := data[|data| - limit..];
      }
      history := history + p;
      if wakes && !signal {
        signal := true;
      }
      written := |p|;
    }

    // What the copy shows, in terms of what was written.
    method Text() returns (text: seq<Byte>)
      requires Valid()
      ensures |text| <= limit && |text| <= |history| && text == history[|history| - |text|..]
      ensures |text| < limit ==> text == history
    {
      text := data;
    }
  }

  // ---- Waking the reader ----

  // `writers` have released the lock and not yet sent; `received` says that the
  // reader took a signal and has not yet read; `seen` bytes were there when it
  // last read, and `view` is what it read.
  datatype Wake = Wake(
    history: seq<Byte>, data: seq<Byte>, signal: bool, writers: nat, received: bool, seen: nat, view: seq<Byte>)

  datatype Step = Append(p: seq<Byte>) | Send | Receive | Read

  const QUIET := Wake([], [], false, 0, false, 0, [])

  predicate Enabled(w: Wake, step: Step) {
    match step
    case Append(_) => true
    case Send => w.writers > 0
    case Receive => w.signal && !w.received
    case Read => w.received
  }

  function Apply(w: Wake, step: Step, limit: nat): Wake
    requires Enabled(w, step)
  {
    match step
    case Append(p) => w.(history := w.history + p, data := Last(w.data + p, limit), writers := w.writers + 1)
    case Send => w.(signal := true, writers := w.writers - 1)
    case Receive => w.(signal := false, received := true)
    case Read => w.(received := false, seen := |w.history|, view := w.data)
  }

  ghost predicate Run(states: seq<Wake>, steps: seq<Step>, limit: nat) {
    && |states| == |steps| + 1
    && states[0] == QUIET
    && forall i :: 0 <= i < |steps| ==> Enabled(states[i], steps[i]) && states[i + 1] == Apply(states[i], steps[i], limit)
  }

  // Output the reader has not seen has a wake-up on its way.
  ghost predicate NoneLost(w: Wake) {
    w.seen < |w.history| ==> w.signal || w.writers > 0 || w.received
  }

  lemma {:induction false} WakeUps(states: seq<Wake>, steps: seq<Step>, limit: nat, i: nat)
    requires Run(states, steps, limit) && i <= |steps|
    ensures var w := states[i];
            && NoneLost(w) && w.seen <= |w.history|
            && w.data == Last(w.history, limit) && w.view == Last(w.history[..w.seen], limit)
  {
    if i > 0 {
      WakeUps(states, steps, limit, i - 1);
      var w := states[i - 1];
      assert Enabled(w, steps[i - 1]) && states[i] == Apply(w, steps[i - 1], limit);
      match steps[i - 1]
      case Append(p) =>
        LastAppend(w.history, limit, p);
        assert (w.history + p)[..w.seen] == w.history[..w.seen];
      case Send =>
      case Receive =>
      case Read =>
        assert w.history[..|w.history|] == w.history;
    }
  }

  // When nobody but a new writer can move, the reader has read the whole copy.
  lemma QuietIsSeen(states: seq<Wake>, steps: seq<Step>, limit: nat, i: nat)
    requires Run(states, steps, limit) && i <= |steps|
    requires forall step :: Enabled(states[i], step) ==> step.Append?
    ensures states[i].seen == |states[i].history| && states[i].view == states[i].data
  {
    WakeUps(states, steps, limit, i);
    var w := states[i];
    assert !Enabled(w, Send) && !Enabled(w, Receive) && !Enabled(w, Read);
    assert w.history[..|w.history|] == w.history;
  }
}
