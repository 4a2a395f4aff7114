/** The environment of a native client and the audio it prepares. */
module Environment {
  import opened Options
  import opened Strings

  function LowerChar(c: char): char {
    if 'A' <= c <= 'Z' then ((c as int) + 32) as char else c
  }

  function Lower(s: string): string {
    seq(|s|, i requires 0 <= i < |s| => LowerChar(s[i]))
  }

  predicate Truthy(value: string) {
    var v := Lower(Trim(value));
    v == "1" || v == "true" || v == "yes"
  }

  predicate Sets(entry: string, name: string) {
    name + "=" <= entry
  }

  // The last entry that sets a name decides.
  ghost predicate Flag(environment: seq<string>, name: string) {
    exists i ::
      && 0 <= i < |environment| && Sets(environment[i], name) && Truthy(environment[i][|name| + 1..])
      && forall k :: i < k < |environment| ==> !Sets(environment[k], name)
  }

  method NativeEnvironmentFlag(environment: seq<string>, name: string) returns (flag: bool)
    ensures flag <==> Flag(environment, name)
  {
    hide Truthy;
    var i := |environment| - 1;
    while i >= 0
      invariant -1 <= i < |environment|
      invariant forall k :: i < k < |environment| ==> !Sets(environment[k], name)
    {
      if Sets(environment[i], name) {
        flag := Truthy(environment[i][|name| + 1..]);
        return;
      }
      i := i - 1;
    }
    flag := false;
  }

  // What probing or preparing the audio output would answer.
  datatype Probe = Unavailable | Usable(sink: string)

  // An audio error, or the sink to attach; no sink is the empty text.
  method PrepareMoonlightAudio(moonlight: bool, environment: seq<string>, driver: string, pi: bool, probe: Probe)
    returns (sink: Option<string>)
    ensures !moonlight || Flag(environment, "THINPI_AUDIO_DISABLED") || driver != "pulseaudio" ==> sink == Some("")
    ensures moonlight && !Flag(environment, "THINPI_AUDIO_DISABLED") && driver == "pulseaudio" ==>
              sink == if probe.Unavailable? then None else if pi then Some(probe.sink) else Some("")
  {
    var disabled := NativeEnvironmentFlag(environment, "THINPI_AUDIO_DISABLED");
    if !moonlight || disabled || driver != "pulseaudio" {
      return Some("");
    }
    if probe.Unavailable? {
      return None;
    }
    if !pi {
      return Some("");
    }
    sink := Some(probe.sink);
  }

  lemma OneIsTruthy()
    ensures Truthy("1")
  {
    assert TrimLeft("1") == "1" && TrimRight("1") == "1";
    assert Lower("1") == "1";
  }

  // The restart that follows an accepted question neither asks for a sink nor
  // fails for want of audio, whatever the environment said before.
  lemma RestartIsSilent(environment: seq<string>)
    ensures Flag(environment + ["THINPI_AUDIO_DISABLED=1"], "THINPI_AUDIO_DISABLED")
  {
    var entry, name := "THINPI_AUDIO_DISABLED=1", "THINPI_AUDIO_DISABLED";
    assert entry == name + "=" + "1";
    assert entry[|name| + 1..] == "1";
    OneIsTruthy();
    var all := environment + [entry];
    assert all[|environment|] == entry && Sets(all[|environment|], name);
  }
}
