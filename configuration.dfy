/** Configuration decisions of EAF.Core/Base/Session.cs that do not touch the
    browser: how a parameter string becomes a flag, and which command-line
    arguments the Chrome and Edge option builders add. */
module Configuration {
  import opened Outcomes
  import opened Sequences

  function AsciiUpper(c: char): char
  {
    if 'a' <= c <= 'z' then (c as int - 32) as char else c
  }

  function AsciiLower(c: char): char
  {
    if 'A' <= c <= 'Z' then (c as int + 32) as char else c
  }

  function LowerCased(s: string): string
  {
    seq(|s|, i requires 0 <= i < |s| => AsciiLower(s[i]))
  }

  /** `string.Equals(a, b, StringComparison.OrdinalIgnoreCase)` on two
      non-null strings: same length, and equal character by character once
      both are upper-cased. */
  predicate EqualsOrdinalIgnoreCase(a: string, b: string)
  {
    |a| == |b| && forall i :: 0 <= i < |a| ==> AsciiUpper(a[i]) == AsciiUpper(b[i])
  }

  /** A flag parameter (`PipelineRun`, `EnableIncognito`): a missing parameter
      is null and compares unequal; otherwise the text is compared with
      "true" ignoring case. */
  function ParseFlag(value: Option<string>): (r: bool)
    ensures r ==> value.Some? && |value.value| == 4
  {
    value.Some? && EqualsOrdinalIgnoreCase(value.value, "true")
  }

  /** The flag holds exactly when the parameter is present and its text,
      lower-cased, is "true": "true", "TRUE" and "True" all set it; "yes",
      "1", " true" and a missing parameter do not. */
  lemma ParseFlagMeansTrue(value: Option<string>)
    ensures ParseFlag(value) <==> value.Some? && LowerCased(value.value) == "true"
  {
  }

  /** The order in which the Chrome builder can add its arguments. */
  const ChromeArgumentOrder: seq<string> :=
    ["--incognito", "--headless", "--disable-gpu", "--window-size=1920,960", "--start-maximized"]

  /** For each argument of `ChromeArgumentOrder`, whether the flags ask for it. */
  function ChromeWanted(enableIncognito: bool, runHeadless: bool, pipelineRun: bool): seq<bool>
  {
    [enableIncognito, runHeadless, pipelineRun, pipelineRun, !pipelineRun]
  }

  /** The order in which the Edge builder can add its arguments. */
  const EdgeArgumentOrder: seq<string> :=
    ["headless", "disable-gpu", "window-size=1920,960", "start-maximized"]

  /** For each argument of `EdgeArgumentOrder`, whether the flags ask for it. */
  function EdgeWanted(runHeadless: bool, pipelineRun: bool): seq<bool>
  {
    [runHeadless, pipelineRun, pipelineRun, !pipelineRun]
  }

  /** The Chrome argument list for the given flags: each argument present
      exactly when its flag asks for it, nothing else, in builder order. */
  predicate IsChromeArgumentList(args: seq<string>, enableIncognito: bool, runHeadless: bool, pipelineRun: bool)
  {
    IsSubsequence(args, ChromeArgumentOrder) &&
    ("--incognito" in args <==> enableIncognito) &&
    ("--headless" in args <==> runHeadless) &&
    ("--disable-gpu" in args <==> pipelineRun) &&
    ("--window-size=1920,960" in args <==> pipelineRun) &&
    ("--start-maximized" in args <==> !pipelineRun)
  }

  /** The Edge argument list: the same headless and pipeline mapping without
      the `--` prefix, and no incognito flag at all. */
  predicate IsEdgeArgumentList(args: seq<string>, runHeadless: bool, pipelineRun: bool)
  {
    IsSubsequence(args, EdgeArgumentOrder) &&
    ("headless" in args <==> runHeadless) &&
    ("disable-gpu" in args <==> pipelineRun) &&
    ("window-size=1920,960" in args <==> pipelineRun) &&
    ("start-maximized" in args <==> !pipelineRun)
  }

  /** No argument occurs twice in either builder order. */
  lemma ChromeOrderDistinct()
    ensures Distinct(ChromeArgumentOrder)
  {
    var o := ChromeArgumentOrder;
    forall i, j | 0 <= i < j < |o|
      ensures o[i] != o[j]
    {
      assert |o[i]| != |o[j]|;
    }
  }

  lemma EdgeOrderDistinct()
    ensures Distinct(EdgeArgumentOrder)
  {
    var o := EdgeArgumentOrder;
    forall i, j | 0 <= i < j < |o|
      ensures o[i] != o[j]
    {
      assert |o[i]| != |o[j]|;
    }
  }

  /** Choosing the wanted Chrome arguments from the builder order gives an
      argument list with exactly the arguments the flags ask for. */
  lemma ChromeChoiceIsArgumentList(enableIncognito: bool, runHeadless: bool, pipelineRun: bool)
    ensures IsChromeArgumentList(ChosenFrom(ChromeArgumentOrder, ChromeWanted(enableIncognito, runHeadless, pipelineRun), 0),
                                 enableIncognito, runHeadless, pipelineRun)
  {
    var o, w := ChromeArgumentOrder, ChromeWanted(enableIncognito, runHeadless, pipelineRun);
    ChromeOrderDistinct();
    ChosenFromIsSubsequence(o, w, 0);
    ChosenFromMembership(o, w, 0);
    assert o[0..] == o;
    assert o[0] == "--incognito" && o[1] == "--headless" && o[2] == "--disable-gpu";
    assert o[3] == "--window-size=1920,960" && o[4] == "--start-maximized";
  }

  /** Choosing the wanted Edge arguments from the builder order gives an
      argument list with exactly the arguments the flags ask for. */
  lemma EdgeChoiceIsArgumentList(runHeadless: bool, pipelineRun: bool)
    ensures IsEdgeArgumentList(ChosenFrom(EdgeArgumentOrder, EdgeWanted(runHeadless, pipelineRun), 0),
                               runHeadless, pipelineRun)
  {
    var o, w := EdgeArgumentOrder, EdgeWanted(runHeadless, pipelineRun);
    EdgeOrderDistinct();
    ChosenFromIsSubsequence(o, w, 0);
    ChosenFromMembership(o, w, 0);
    assert o[0..] == o;
    assert o[0] == "headless" && o[1] == "disable-gpu";
    assert o[2] == "window-size=1920,960" && o[3] == "start-maximized";
  }

  /** The `AddArgument` calls of the Chrome option builder: the arguments of
      the builder order that the flags ask for. */
  method ChromeArguments(enableIncognito: bool, runHeadless: bool, pipelineRun: bool) returns (args: seq<string>)
    ensures args == ChosenFrom(ChromeArgumentOrder, ChromeWanted(enableIncognito, runHeadless, pipelineRun), 0)
  {
    ghost var o, w := ChromeArgumentOrder, ChromeWanted(enableIncognito, runHeadless, pipelineRun);
    args := [];
    if enableIncognito {
      args := args + ["--incognito"];
    }
    if runHeadless {
      args := args + ["--headless"];
    }
    if pipelineRun {
      args := args + ["--disable-gpu"];
      args := args + ["--window-size=1920,960"];
    } else {
      args := args + ["--start-maximized"];
    }
    assert ChosenFrom(o, w, 4) == (if w[4] then [o[4]] else []) + ChosenFrom(o, w, 5);
    assert ChosenFrom(o, w, 3) == (if w[3] then [o[3]] else []) + ChosenFrom(o, w, 4);
    assert ChosenFrom(o, w, 2) == (if w[2] then [o[2]] else []) + ChosenFrom(o, w, 3);
    assert ChosenFrom(o, w, 1) == (if w[1] then [o[1]] else []) + ChosenFrom(o, w, 2);
  }

  /** The `AddArgument` calls of the Edge option builder: the arguments of the
      builder order that the flags ask for. */
  method EdgeArguments(runHeadless: bool, pipelineRun: bool) returns (args: seq<string>)
    ensures args == ChosenFrom(EdgeArgumentOrder, EdgeWanted(runHeadless, pipelineRun), 0)
  {
    ghost var o, w := EdgeArgumentOrder, EdgeWanted(runHeadless, pipelineRun);
    args := [];
    if runHeadless {
      args := args + ["headless"];
    }
    if pipelineRun {
      args := args + ["disable-gpu"];
      args := args + ["window-size=1920,960"];
    } else {
      args := args + ["start-maximized"];
    }
    assert ChosenFrom(o, w, 3) == (if w[3] then [o[3]] else []) + ChosenFrom(o, w, 4);
    assert ChosenFrom(o, w, 2) == (if w[2] then [o[2]] else []) + ChosenFrom(o, w, 3);
    assert ChosenFrom(o, w, 1) == (if w[1] then [o[1]] else []) + ChosenFrom(o, w, 2);
  }

  /** An Edge argument list never asks for an incognito (or any other
      unlisted) window, whatever the session's incognito flag says. */
  lemma EdgeArgumentsNeverIncognito(args: seq<string>, runHeadless: bool, pipelineRun: bool)
    requires IsEdgeArgumentList(args, runHeadless, pipelineRun)
    ensures forall i :: 0 <= i < |args| ==> args[i] in EdgeArgumentOrder
    ensures "--incognito" !in args && "incognito" !in args
  {
    forall i | 0 <= i < |args|
      ensures args[i] in EdgeArgumentOrder
    {
      SubsequenceElements(args, EdgeArgumentOrder, i);
    }
  }
}
