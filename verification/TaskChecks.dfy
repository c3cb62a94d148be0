/** Which tasks are taken for the app's own, whoever wrote them. */
module TaskChecks {
  import opened Wrappers
  import opened Strings
  import opened Arguments
  import opened TaskXml
  import Utf16

  /** The pattern is somewhere in the text. */
  ghost predicate Within(pattern: string, text: string) {
    exists before: string, behind: string :: text == before + pattern + behind
  }

  lemma WithinIsContained(pattern: string, text: string)
    requires pattern != []
    ensures Within(pattern, text) <==> Contains(text, pattern)
  {
    hide FindFrom;
    if Within(pattern, text) {
      var before, behind :| text == before + pattern + behind;
      assert text[|before|..|before| + |pattern|] == pattern;
      assert OccursAt(pattern, text, |before|);
    }
    if Contains(text, pattern) {
      var i := Find(text, pattern).value;
      assert text == text[..i] + pattern + text[i + |pattern|..];
    }
  }

  /** An element with this text, as it stands in the file. */
  function Tagged(name: string, text: string): string { "<" + name + ">" + text + "</" + name + ">" }

  lemma MarkerIsTagged(name: string, text: string)
    ensures Marker(name, text) == Tagged(name, text) && Marker(name, text) != []
    ensures Opening(name, "") == "<" + name + ">"
  {
  }

  /** A task that is disabled or restarts on failure is never taken for the wanted one, nor one that lacks a marker. */
  lemma MarkedTasksOnly(
      xml: string, appName: string, appPath: string, args: seq<string>, sid: string, stem: string -> Option<string>)
    requires TaskMatches(xml, appName, appPath, args, sid, stem)
    ensures !Within(Tagged("Enabled", "false"), xml) && !Within("<" + "RestartOnFailure" + ">", xml)
    ensures Within(Tagged("LogonType", "InteractiveToken"), xml) && Within(Tagged("RunLevel", "HighestAvailable"), xml)
    ensures Within(Tagged("Delay", "PT10S"), xml) && Within(Tagged("ExecutionTimeLimit", "PT0S"), xml)
  {
    MarkerIsTagged("Enabled", "false");
    MarkerIsTagged("RestartOnFailure", "");
    MarkerIsTagged("LogonType", "InteractiveToken");
    MarkerIsTagged("RunLevel", "HighestAvailable");
    MarkerIsTagged("Delay", "PT10S");
    MarkerIsTagged("ExecutionTimeLimit", "PT0S");
    hide Tagged, Within, Contains, Marker, Opening, ElementText, TaskIsOwned, BuildArguments;
    WithinIsContained(Tagged("Enabled", "false"), xml);
    WithinIsContained("<" + "RestartOnFailure" + ">", xml);
    WithinIsContained(Tagged("LogonType", "InteractiveToken"), xml);
    WithinIsContained(Tagged("RunLevel", "HighestAvailable"), xml);
    WithinIsContained(Tagged("Delay", "PT10S"), xml);
    WithinIsContained(Tagged("ExecutionTimeLimit", "PT0S"), xml);
  }

  /** The matcher on a text of which the three lookups and the six searches are known. */
  lemma MatchesByLookups(
      text: string, appName: string, appPath: string, args: seq<string>, sid: string, stem: string -> Option<string>,
      command: string, user: string, line: Option<string>)
    requires ElementText(text, "Command") == Some(command) && ElementText(text, "UserId") == Some(user)
    requires ElementText(text, "Arguments") == line
    requires Contains(text, Marker("LogonType", "InteractiveToken"))
    requires Contains(text, Marker("RunLevel", "HighestAvailable"))
    requires Contains(text, Marker("Delay", "PT10S"))
    requires Contains(text, Marker("ExecutionTimeLimit", "PT0S"))
    requires !Contains(text, Opening("RestartOnFailure", "")) && !Contains(text, Marker("Enabled", "false"))
    ensures TaskMatches(text, appName, appPath, args, sid, stem) <==>
      && EqIgnoreAsciiCase(command, appPath) && EqIgnoreAsciiCase(user, sid)
      && (if line.Some? then line.value else "") == BuildArguments(args)
      && stem(command).Some? && EqIgnoreAsciiCase(stem(command).value, appName)
  {
    hide Opening, Marker, EqIgnoreAsciiCase, ElementText, BuildArguments, Contains;
  }

  /**
   A task written for one path, command line and user is taken for the wanted one of another exactly if path and user
   are the same but for case, and the command line is the same, all trimmed as they are read back; and if its file
   stem is the app's name.
   */
  lemma MatchesAsWritten(
      appName: string, appPath: string, args: seq<string>, sid: string,
      name: string, path: string, others: seq<string>, user: string, parent: Option<string>,
      stem: string -> Option<string>, utf8: seq<Utf16.Byte> -> string)
    ensures var read := Utf16.DecodeCommandOutput(Utf16.Encoded(TaskText(name, path, others, user, parent)), utf8);
      TaskMatches(read, appName, appPath, args, sid, stem) <==>
        && EqIgnoreAsciiCase(Trim(path), appPath) && EqIgnoreAsciiCase(Trim(user), sid)
        && Trim(BuildArguments(others)) == BuildArguments(args)
        && stem(Trim(path)).Some? && EqIgnoreAsciiCase(stem(Trim(path)).value, appName)
  {
    assert Trim("") == "";
    hide *;
    Utf16.EncodedReadsBack(TaskText(name, path, others, user, parent), utf8);
    TaskReads(name, path, others, user, parent);
    MatchesByLookups(
      TaskText(name, path, others, user, parent), appName, appPath, args, sid, stem, Trim(path), Trim(user),
      if BuildArguments(others) == "" then None else Some(Trim(BuildArguments(others))));
  }

  /** So other arguments, if trimmed, are never taken for the wanted ones. */
  lemma OtherArgumentsAreNoticed(
      appName: string, appPath: string, args: seq<string>, sid: string, others: seq<string>, parent: Option<string>,
      stem: string -> Option<string>, utf8: seq<Utf16.Byte> -> string)
    requires others != args && Trimmed(BuildArguments(others))
    ensures var read := Utf16.DecodeCommandOutput(Utf16.Encoded(TaskText(appName, appPath, others, sid, parent)), utf8);
      !TaskMatches(read, appName, appPath, args, sid, stem)
  {
    MatchesAsWritten(appName, appPath, args, sid, appName, appPath, others, sid, parent, stem, utf8);
    TrimKeepsTrimmed(BuildArguments(others));
    if BuildArguments(others) == BuildArguments(args) {
      BuildIsInjective(others, args);
    }
    hide TaskMatches, TaskText, Trim, BuildArguments, Utf16.DecodeCommandOutput, Utf16.Encoded;
  }
}
