/**
 * The enum `AllowedApps` (AllowedApps.kt): the applications the internet radio
 * can run, each carrying an `app` string.
 */
module Apps {
  import opened Options

  datatype AllowedApps = radio1 | radio2 | music | video

  /** The enum's `entries`, in declaration order. */
  function Entries(): (r: seq<AllowedApps>)
    ensures |r| == 4
    ensures r[0] == radio1 && r[1] == radio2 && r[2] == music && r[3] == video
    ensures radio1 in r && radio2 in r && music in r && video in r
    ensures forall i, j :: 0 <= i < j < |r| ==> r[i] != r[j]
  {
    [radio1, radio2, music, video]
  }

  /** The `app` property of each variant. Only the two radios carry a non-empty string. */
  function App(a: AllowedApps): (r: string)
    ensures r == "" <==> (a == music || a == video)
    ensures r != "" ==> FromApp(r) == Some(a)
  {
    match a
    case radio1 => "radio1"
    case radio2 => "radio2"
    case music => ""
    case video => ""
  }

  /**
   * The variant whose `app` string is `s`, when exactly one variant has it.
   * Used to state how far the `app` table can be inverted.
   */
  function FromApp(s: string): Option<AllowedApps>
  {
    if s == "radio1" then Some(radio1)
    else if s == "radio2" then Some(radio2)
    else None
  }

  /** The radios are recovered from their `app` string; music and video are not. */
  lemma AppRecoverable(a: AllowedApps)
    ensures FromApp(App(a)) == Some(a) <==> (a == radio1 || a == radio2)
  {
  }

  /** `app` is not injective: music and video share the empty string. */
  lemma AppNotInjective()
    ensures music != video && App(music) == App(video) == ""
    ensures App(radio1) == "radio1" && App(radio2) == "radio2" && App(radio1) != App(radio2)
  {
  }
}
