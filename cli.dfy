/**
 * The command-line vocabulary of the controller: the effect kinds a client can
 * ask for, the web-status switch, and their case-insensitive lookups.
 */
module Cli {
  import opened Led

  /** The closed set of effects a client can select, in declaration order. */
  datatype ClientType = TestEffect | RainbowEffect | RandomEffect | CodingEffect

  datatype WebStatus = On | Off

  /** Parsed command-line flags. */
  datatype Args = Args(effect: Option<ClientType>, webStatus: Option<WebStatus>, test: bool, kill: bool)

  /** Every variant exactly once, in declaration order (what the help text lists). */
  function AllClientTypes(): (all: seq<ClientType>)
    ensures |all| == 4
    ensures forall k: ClientType :: Position(k) < |all| && all[Position(k)] == k
    ensures forall i, j :: 0 <= i < j < |all| ==> all[i] != all[j]
  {
    [TestEffect, RainbowEffect, RandomEffect, CodingEffect]
  }

  /** Declaration index of a variant. */
  function Position(k: ClientType): nat {
    match k
    case TestEffect => 0
    case RainbowEffect => 1
    case RandomEffect => 2
    case CodingEffect => 3
  }

  /** The variant's own identifier, as it is printed and serialized. */
  function Name(k: ClientType): string {
    match k
    case TestEffect => "TestEffect"
    case RainbowEffect => "RainbowEffect"
    case RandomEffect => "RandomEffect"
    case CodingEffect => "CodingEffect"
  }

  /** The lower-case keyword the lookup compares against. */
  function Keyword(k: ClientType): string {
    match k
    case TestEffect => "testeffect"
    case RainbowEffect => "rainboweffect"
    case RandomEffect => "randomeffect"
    case CodingEffect => "codingeffect"
  }

  function LowerChar(c: char): char {
    if 'A' <= c <= 'Z' then (c as int + 32) as char else c
  }

  /** Lower-casing, character by character. */
  function ToLower(s: string): (l: string)
    ensures |l| == |s|
    ensures forall i :: 0 <= i < |s| ==> l[i] == LowerChar(s[i])
  {
    seq(|s|, i requires 0 <= i < |s| => LowerChar(s[i]))
  }

  /** `s` and `t` spell the same word up to the case of their letters. */
  predicate EqualIgnoringCase(s: string, t: string) {
    |s| == |t| && forall i :: 0 <= i < |s| ==> LowerChar(s[i]) == LowerChar(t[i])
  }

  /**
   * Case-insensitive lookup of an effect name; `None` stands for the panic on
   * an unknown name.
   */
  function ParseClientType(s: string): (r: Option<ClientType>)
    ensures forall k: ClientType :: r == Some(k) <==> ToLower(s) == Keyword(k)
    ensures r.None? <==> forall k: ClientType :: ToLower(s) != Keyword(k)
  {
    var l := ToLower(s);
    if l == "rainboweffect" then Some(RainbowEffect)
    else if l == "randomeffect" then Some(RandomEffect)
    else if l == "testeffect" then Some(TestEffect)
    else if l == "codingeffect" then Some(CodingEffect)
    else None
  }

  lemma KeywordIsLowerName(k: ClientType)
    ensures ToLower(Name(k)) == Keyword(k)
  {
    match k
    case TestEffect => LowersTo("TestEffect", "testeffect");
    case RainbowEffect => LowersTo("RainbowEffect", "rainboweffect");
    case RandomEffect => LowersTo("RandomEffect", "randomeffect");
    case CodingEffect => LowersTo("CodingEffect", "codingeffect");
  }

  /** A string lower-cases to `l` when each of its characters lower-cases to the matching one. */
  lemma LowersTo(s: string, l: string)
    requires |s| == |l| && forall i :: 0 <= i < |s| ==> LowerChar(s[i]) == l[i]
    ensures ToLower(s) == l
  {
  }

  /** Parsing a variant's own identifier gives that variant back. */
  lemma NameRoundTrip(k: ClientType)
    ensures ParseClientType(Name(k)) == Some(k)
  {
    KeywordIsLowerName(k);
  }

  /** Any spelling of a variant's name, in any mix of cases, selects that variant. */
  lemma ParseIgnoresCase(s: string, k: ClientType)
    requires EqualIgnoringCase(s, Name(k))
    ensures ParseClientType(s) == Some(k)
  {
    KeywordIsLowerName(k);
    assert ToLower(s) == ToLower(Name(k));
  }

  /** Words that switch the web status off; every other word switches it on. */
  const OffWords: set<string> := {"off", "false", "0"}
  const OnWords: set<string> := {"on", "true", "1"}

  /** Total, case-insensitive lookup of the web-status switch. */
  function ParseWebStatus(s: string): (w: WebStatus)
    ensures w == Off <==> ToLower(s) in OffWords
    ensures ToLower(s) in OnWords ==> w == On
    ensures ToLower(s) !in OnWords + OffWords ==> w == On
  {
    var l := ToLower(s);
    if l == "on" then On
    else if l == "off" then Off
    else if l == "true" then On
    else if l == "false" then Off
    else if l == "1" then On
    else if l == "0" then Off
    else On
  }

  /** Every casing of "OFF", "False" or "0" and nothing else turns the status off. */
  lemma WebStatusIgnoresCase(s: string, t: string)
    requires EqualIgnoringCase(s, t)
    ensures ParseWebStatus(s) == ParseWebStatus(t)
  {
    assert ToLower(s) == ToLower(t);
  }
}
