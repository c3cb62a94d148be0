/**
 The scheduled task that starts the app: writing its XML, looking elements up again by text search, and deciding
 whether an existing task is the wanted one.
 */
module TaskXml {
  import opened Wrappers
  import opened Strings
  import opened Arguments
  import opened Xml
  import Utf16

  // ----- looking things up in the text

  /** Text between the first start tag and the next end tag, trimmed. */
  function XmlElement(xml: string, element: string): Option<string> {
    var startTag, endTag := "<" + element + ">", "</" + element + ">";
    match Find(xml, startTag)
    case None => None
    case Some(i) =>
      var start := i + |startTag|;
      match Find(xml[start..], endTag)
      case None => None
      case Some(j) => Some(Trim(xml[start..start + j]))
  }

  function ElementText(xml: string, element: string): Option<string> {
    match XmlElement(xml, element)
    case None => None
    case Some(text) => Some(Unescape(text))
  }

  function Opening(name: string, text: string): string { "<" + (name + ">" + text) }

  /** `<name>text</name>`. */
  function Marker(name: string, text: string): string { Opening(name, text) + "</" + name + ">" }

  /** `stem` is the file stem of a path, a library call. */
  predicate TaskIsOwned(xml: string, appName: string, stem: string -> Option<string>) {
    match ElementText(xml, "Command")
    case None => false
    case Some(command) => stem(command).Some? && EqIgnoreAsciiCase(stem(command).value, appName)
  }

  predicate TaskMatches(xml: string, appName: string, appPath: string, args: seq<string>, sid: string,
                        stem: string -> Option<string>)
  {
    TaskIsOwned(xml, appName, stem) &&
    var command, user, arguments := ElementText(xml, "Command"), ElementText(xml, "UserId"),
        ElementText(xml, "Arguments");
    && command.Some? && EqIgnoreAsciiCase(command.value, appPath)
    && (if arguments.Some? then arguments.value else "") == BuildArguments(args)
    && user.Some? && EqIgnoreAsciiCase(user.value, sid)
    && Contains(xml, Marker("LogonType", "InteractiveToken"))
    && Contains(xml, Marker("RunLevel", "HighestAvailable"))
    && Contains(xml, Marker("Delay", "PT10S"))
    && Contains(xml, Marker("ExecutionTimeLimit", "PT0S"))
    && !Contains(xml, Opening("RestartOnFailure", ""))
    && !Contains(xml, Marker("Enabled", "false"))
  }

  // ----- writing it: the template, cut before every '<'

  /** `<name>text` or `</name>text`. */
  datatype Tag = Open(name: string, text: string) | Close(name: string, text: string)

  function Render(tag: Tag): string {
    (if tag.Close? then "/" + tag.name else tag.name) + ">" + tag.text
  }

  function Rendered(tags: seq<Tag>): seq<string> {
    if tags == [] then [] else [Render(tags[0])] + Rendered(tags[1..])
  }

  function Markup(tags: seq<string>): string {
    if tags == [] then [] else "<" + tags[0] + Markup(tags[1..])
  }

  /** The line break after a tag and the indentation of the next one. */
  function Line(depth: nat): string { "\n" + Repeat(' ', 2 * depth) }

  function Element(name: string, text: string, depth: nat): seq<Tag> {
    [Open(name, text), Close(name, Line(depth))]
  }

  const ROOT: string := "Task version=\"1.4\" xmlns=\"http://schemas."
  const NAMESPACE: string := "microsoft.com/windows/2004/02/mit/task\""

  const PROLOGUE: seq<Tag> :=
    [Open("?xml version=\"1.0\" encoding=\"UTF-16\"?", Line(0)),
     Open(ROOT + NAMESPACE, Line(1)),
     Open("RegistrationInfo", Line(2))]

  const LOGON: seq<Tag> :=
    [Close("RegistrationInfo", Line(1)), Open("Triggers", Line(2)), Open("LogonTrigger", Line(3))]
    + Element("Enabled", "true", 3) + Element("Delay", "PT10S", 3)

  const PRINCIPAL: seq<Tag> :=
    [Close("LogonTrigger", Line(1)), Close("Triggers", Line(1)),
     Open("Principals", Line(2)), Open("Principal id=\"Author\"", Line(3))]

  const RIGHTS: seq<Tag> :=
    Element("LogonType", "InteractiveToken", 3) + Element("RunLevel", "HighestAvailable", 2)
    + [Close("Principal", Line(1)), Close("Principals", Line(1)), Open("Settings", Line(2))]

  const POWER: seq<Tag> :=
    Element("MultipleInstancesPolicy", "IgnoreNew", 2) + Element("DisallowStartIfOnBatteries", "false", 2)
    + Element("StopIfGoingOnBatteries", "false", 2)

  const STARTING: seq<Tag> :=
    Element("AllowHardTerminate", "false", 2) + Element("StartWhenAvailable", "true", 2)
    + Element("RunOnlyIfNetworkAvailable", "false", 2)

  const IDLENESS: seq<Tag> :=
    [Open("IdleSettings", Line(3))] + Element("StopOnIdleEnd", "false", 3) + Element("RestartOnIdle", "false", 2)
    + [Close("IdleSettings", Line(2))]

  const RUNNING: seq<Tag> :=
    Element("AllowStartOnDemand", "true", 2) + Element("Enabled", "true", 2) + Element("Hidden", "false", 2)
    + Element("RunOnlyIfIdle", "false", 2) + Element("WakeToRun", "false", 2)

  const LIMITS: seq<Tag> :=
    Element("ExecutionTimeLimit", "PT0S", 2) + Element("Priority", "7", 1)
    + [Close("Settings", Line(1)), Open("Actions Context=\"Author\"", Line(2)), Open("Exec", Line(3))]

  const CLOSING: seq<Tag> := [Close("Exec", Line(1)), Close("Actions", Line(0)), Close("Task", Line(0))]

  const AFTER_USER: seq<Tag> := RIGHTS + POWER + STARTING + IDLENESS + RUNNING + LIMITS

  /** Up to the trigger's user. */
  function Before(appName: string): seq<Tag> {
    PROLOGUE + Element("Description", Escape("Start " + appName + " when the user logs on"), 1) + LOGON
  }

  /** From there up to the command. */
  function Middle(sid: string): seq<Tag> {
    PRINCIPAL + Element("UserId", Escape(sid), 3) + AFTER_USER
  }

  function ArgumentTags(arguments: string, depth: nat): seq<Tag> {
    if arguments == "" then [] else Element("Arguments", Escape(arguments), depth)
  }

  function DirectoryTags(parent: Option<string>): seq<Tag> {
    match parent
    case None => []
    case Some(path) => Element("WorkingDirectory", Escape(path), 2)
  }

  /** `parent` is the parent directory of the path, a library call. */
  function TaskTags(appName: string, appPath: string, args: seq<string>, sid: string,
      parent: Option<string>): seq<Tag> {
    var arguments := BuildArguments(args);
    var last := if parent.Some? then 3 else 2;   // indentation after the element before
    Before(appName)
    + (Element("UserId", Escape(sid), 2)
    + (Middle(sid)
    + (Element("Command", Escape(appPath), if arguments != "" then 3 else last)
    + (ArgumentTags(arguments, last) + (DirectoryTags(parent) + CLOSING)))))
  }

  function TaskText(appName: string, appPath: string, args: seq<string>, sid: string, parent: Option<string>): string {
    Markup(Rendered(TaskTags(appName, appPath, args, sid, parent)))
  }

  // ----- searching marked-up text for a tag

  ghost predicate Clean(tags: seq<string>) { forall t :: t in tags ==> '<' !in t }

  ghost predicate NoneStarts(tags: seq<string>, pattern: string) { forall t :: t in tags ==> !(pattern <= t) }

  lemma {:induction false} MarkupAppends(a: seq<string>, b: seq<string>)
    ensures Markup(a + b) == Markup(a) + Markup(b)
  {
    if a == [] {
      assert a + b == b;
    } else {
      MarkupAppends(a[1..], b);
      assert (a + b)[1..] == a[1..] + b;
    }
  }

  lemma Earliest(text: string, pattern: string, i: nat)
    requires pattern != [] && OccursAt(pattern, text, i)
    requires forall k :: 0 <= k < i ==> !OccursAt(pattern, text, k)
    ensures Find(text, pattern) == Some(i)
  {
    var r := Find(text, pattern);
    assert r.Some?;
    assert r.value == i;
  }

  lemma Shift(a: string, b: string, sought: string, k: nat)
    ensures OccursAt(sought, a + b, |a| + k) <==> OccursAt(sought, b, k)
  {
    if k + |sought| <= |b| {
      assert (a + b)[|a| + k..|a| + k + |sought|] == b[k..k + |sought|];
    }
  }

  lemma AtFront(c: char, pattern: string, text: string)
    ensures OccursAt([c] + pattern, [c] + text, 0) <==> pattern <= text
  {
    var whole := [c] + text;
    assert whole[1..] == text;
    if |pattern| <= |text| {
      assert whole[0..1 + |pattern|] == [c] + text[..|pattern|];
      assert ([c] + pattern)[1..] == pattern && ([c] + text[..|pattern|])[1..] == text[..|pattern|];
    }
  }

  lemma TagPrefix(tag: string, rest: string, pattern: string)
    requires '<' !in pattern && (rest == [] || rest[0] == '<')
    ensures pattern <= tag + rest <==> pattern <= tag
  {
    if |pattern| <= |tag| {
      assert (tag + rest)[..|pattern|] == tag[..|pattern|];
    } else if rest != [] {
      assert (tag + rest)[|tag|] == rest[0] && pattern[|tag|] in pattern;
    }
  }

  lemma NotInside(lead: string, text: string, pattern: string, k: nat)
    requires '<' !in lead && k < |lead|
    ensures !OccursAt("<" + pattern, lead + text, k)
  {
    assert (lead + text)[k] == lead[k] && lead[k] in lead;
    assert forall n :: k < n <= |lead + text| ==> (lead + text)[k..n][0] == lead[k];
  }

  /** A pattern that begins with '<' and has no other can only occur where a tag starts with it. */
  lemma {:induction false} NoEarlier(lead: string, tags: seq<string>, rest: string, pattern: string, k: nat)
    requires '<' !in lead && Clean(tags) && '<' !in pattern && NoneStarts(tags, pattern)
    requires rest == [] || rest[0] == '<'
    requires k < |lead + Markup(tags)|
    ensures !OccursAt("<" + pattern, lead + (Markup(tags) + rest), k)
    decreases |tags|
  {
    var sought := "<" + pattern;
    if k < |lead| {
      NotInside(lead, Markup(tags) + rest, pattern, k);
    } else {
      var tag, after := tags[0], Markup(tags[1..]) + rest;
      assert tag in tags && Markup(tags) + rest == "<" + (tag + after);
      assert |Markup(tags)| == 1 + |tag + Markup(tags[1..])|;
      hide Markup, OccursAt;
      if k == |lead| {
        Shift(lead, "<" + (tag + after), sought, 0);
        AtFront('<', pattern, tag + after);
        MarkupStarts(tags[1..], rest);
        TagPrefix(tag, after, pattern);
      } else {
        var m: nat := k - |lead| - 1;
        Shift(lead + "<", tag + after, sought, m);
        assert lead + ("<" + (tag + after)) == lead + "<" + (tag + after);
        assert forall t :: t in tags[1..] ==> t in tags;
        NoEarlier(tag, tags[1..], rest, pattern, m);
      }
    }
  }

  lemma MarkupStarts(tags: seq<string>, rest: string)
    requires rest == [] || rest[0] == '<'
    ensures var text := Markup(tags) + rest; text == [] || text[0] == '<'
  {
  }

  lemma TagOccurs(at: string, tag: string, later: seq<string>, pattern: string)
    requires pattern <= tag
    ensures OccursAt("<" + pattern, at + Markup([tag] + later), |at|)
    ensures Markup([tag] + later)[0] == '<'
  {
    var rest, after := Markup([tag] + later), tag + Markup(later);
    assert ([tag] + later)[1..] == later;
    assert rest == "<" + after;
    hide Markup;
    assert after[..|pattern|] == tag[..|pattern|];
    AtFront('<', pattern, after);
    Shift(at, rest, "<" + pattern, 0);
  }

  lemma Associates(a: string, b: string, c: string)
    ensures a + b + c == a + (b + c)
  {
  }

  /** The first tag that starts with the pattern is where the search stops. */
  lemma FirstTag(lead: string, before: seq<string>, tag: string, later: seq<string>, pattern: string)
    requires '<' !in lead && Clean(before) && '<' !in pattern && NoneStarts(before, pattern) && pattern <= tag
    ensures Find(lead + Markup(before + ([tag] + later)), "<" + pattern) == Some(|lead| + |Markup(before)|)
  {
    var rest, sought, at := Markup([tag] + later), "<" + pattern, lead + Markup(before);
    MarkupAppends(before, [tag] + later);
    TagOccurs(at, tag, later, pattern);
    hide Markup, OccursAt, Find;
    forall k | 0 <= k < |at|
      ensures !OccursAt(sought, lead + (Markup(before) + rest), k)
    {
      NoEarlier(lead, before, rest, pattern, k);
    }
    Associates(lead, Markup(before), rest);
    Earliest(lead + (Markup(before) + rest), sought, |at|);
  }

  lemma NoTag(tags: seq<string>, pattern: string)
    requires Clean(tags) && '<' !in pattern && NoneStarts(tags, pattern)
    ensures Find(Markup(tags), "<" + pattern).None?
  {
    var text := Markup(tags);
    var r := Find(text, "<" + pattern);
    assert [] + (text + []) == text;
    if r.Some? {
      NoEarlier("", tags, "", pattern, r.value);
    }
  }

  /** The two searches of the lookup, and what lies between them. */
  lemma Between(xml: string, element: string, i: nat, body: string, after: string)
    requires Find(xml, "<" + element + ">") == Some(i) && i + |"<" + element + ">"| <= |xml|
    requires xml[i + |"<" + element + ">"|..] == body + after
    requires Find(body + after, "</" + element + ">") == Some(|body|)
    ensures XmlElement(xml, element) == Some(Trim(body))
  {
    hide Find;
    var start := i + |"<" + element + ">"|;
    assert xml[start..start + |body|] == xml[start..][..|body|] == body;
  }

  lemma TagTexts(element: string)
    ensures "<" + element + ">" == "<" + (element + ">") && "</" + element + ">" == "<" + ("/" + element + ">")
    ensures '<' !in element ==> '<' !in element + ">" && '<' !in "/" + element + ">"
  {
  }

  /** The start tag is found, and what follows it begins with the body. */
  lemma StartFound(before: seq<string>, tag: string, later: seq<string>, element: string)
    requires Clean(before) && '<' !in element && NoneStarts(before, element + ">") && element + ">" <= tag
    ensures var xml := Markup(before + ([tag] + later)); var start := |Markup(before)| + |"<" + element + ">"|;
      && Find(xml, "<" + element + ">") == Some(|Markup(before)|)
      && start <= |xml| && xml[start..] == tag[|element| + 1..] + Markup(later)
  {
    hide Find, Markup;
    TagTexts(element);
    StartTag(before, tag, later, element + ">");
    FirstTag("", before, tag, later, element + ">");
    assert [] + Markup(before + ([tag] + later)) == Markup(before + ([tag] + later));
  }

  /** Past the start tag the end tag is found where the body ends. */
  lemma EndFound(body: string, end: string, later: seq<string>, element: string)
    requires '<' !in body && '<' !in element && "/" + element + ">" <= end
    ensures Find(body + Markup([end] + later), "</" + element + ">") == Some(|body|)
  {
    TagTexts(element);
    FirstTag(body, [], end, later, "/" + element + ">");
    assert [] + ([end] + later) == [end] + later && |Markup([])| == 0;
  }

  /** Looking up an element whose start tag comes first at `tag` and whose end tag follows. */
  lemma ElementFound(before: seq<string>, tag: string, end: string, later: seq<string>, element: string)
    requires Clean(before) && '<' !in tag && '<' !in element && NoneStarts(before, element + ">")
    requires element + ">" <= tag && "/" + element + ">" <= end
    ensures XmlElement(Markup(before + ([tag] + ([end] + later))), element) == Some(Trim(tag[|element| + 1..]))
  {
    var body := tag[|element| + 1..];
    assert '<' !in body;
    hide *;
    StartFound(before, tag, [end] + later, element);
    EndFound(body, end, later, element);
    Between(Markup(before + ([tag] + ([end] + later))), element, |Markup(before)|, body, Markup([end] + later));
  }

  lemma StartTag(before: seq<string>, tag: string, later: seq<string>, head: string)
    requires head <= tag
    ensures var start := |Markup(before)| + 1 + |head|; var xml := Markup(before + ([tag] + later));
      start <= |xml| && xml[start..] == tag[|head|..] + Markup(later)
  {
    MarkupAppends(before, [tag] + later);
    assert ([tag] + later)[1..] == later;
    assert tag == head + tag[|head|..];
    assert Markup([tag] + later) == ("<" + head) + (tag[|head|..] + Markup(later));
  }

  // ----- the template

  /** A tag name without angle brackets that none of the lookups is after. */
  predicate Word(name: string) {
    && (forall i :: 0 <= i < |name| ==> name[i] != '<' && name[i] != '>')
    && name != "Command" && name != "Arguments" && name != "UserId" && name != "RestartOnFailure" && name != "Enabled"
  }

  /** A tag of the template that no lookup stops at; `Enabled` is only ever true. */
  predicate Fixed(tag: Tag) {
    '<' !in tag.text && (Word(tag.name) || (tag.name == "Enabled" && (tag.Open? ==> tag.text == "true")))
  }

  ghost predicate AllFixed(tags: seq<Tag>) { forall t :: t in tags ==> Fixed(t) }

  lemma LinesArePlain()
    ensures forall depth: nat :: '<' !in Line(depth)
  {
  }

  lemma OpeningWords()
    ensures Word("?xml version=\"1.0\" encoding=\"UTF-16\"?")
    ensures Word("RegistrationInfo") && Word("Description") && Word("Task")
  {
  }

  lemma RootWords()
    ensures Word(ROOT) && Word(NAMESPACE) && |ROOT| > 16
  {
  }

  lemma LongerWord(a: string, b: string)
    requires Word(a) && Word(b) && |a| > 16
    ensures Word(a + b)
  {
    var name := a + b;
    assert |name| != |"Command"| && |name| != |"Arguments"| && |name| != |"UserId"| && |name| != |"RestartOnFailure"|
           && |name| != |"Enabled"|;
  }

  lemma TriggerWords()
    ensures Word("Triggers") && Word("LogonTrigger") && Word("Delay")
    ensures Word("Principals") && Word("Principal") && Word("Principal id=\"Author\"")
    ensures Word("LogonType") && Word("RunLevel") && Word("Settings")
  {
  }

  lemma PowerWords()
    ensures Word("MultipleInstancesPolicy") && Word("DisallowStartIfOnBatteries") && Word("StopIfGoingOnBatteries")
    ensures Word("AllowHardTerminate") && Word("StartWhenAvailable") && Word("RunOnlyIfNetworkAvailable")
  {
  }

  lemma IdlenessWords()
    ensures Word("IdleSettings") && Word("StopOnIdleEnd") && Word("RestartOnIdle")
    ensures Word("AllowStartOnDemand") && Word("Hidden") && Word("RunOnlyIfIdle") && Word("WakeToRun")
  {
  }

  lemma LimitWords()
    ensures Word("ExecutionTimeLimit") && Word("Priority") && Word("Actions") && Word("Actions Context=\"Author\"")
    ensures Word("Exec") && Word("WorkingDirectory")
  {
  }

  lemma ElementFixed(name: string, text: string, depth: nat)
    requires Word(name) && '<' !in text
    ensures AllFixed(Element(name, text, depth))
  {
    LinesArePlain();
    hide Line, Word;
  }

  lemma FixedAppends(a: seq<Tag>, b: seq<Tag>)
    requires AllFixed(a) && AllFixed(b)
    ensures AllFixed(a + b)
  {
    hide Fixed;
  }

  lemma PrologueFixed()
    ensures AllFixed(PROLOGUE)
  {
    LinesArePlain();
    OpeningWords();
    RootWords();
    LongerWord(ROOT, NAMESPACE);
    hide Line, Word;
  }

  lemma LogonFixed()
    ensures AllFixed(LOGON)
  {
    var opening := [Close("RegistrationInfo", Line(1)), Open("Triggers", Line(2)), Open("LogonTrigger", Line(3))];
    var enabled, delay := Element("Enabled", "true", 3), Element("Delay", "PT10S", 3);
    OpeningWords();
    TriggerWords();
    assert AllFixed(opening) && AllFixed(enabled) by {
      LinesArePlain();
      hide Line, Word;
    }
    hide Word, Element, AllFixed, Line;
    ElementFixed("Delay", "PT10S", 3);
    FixedAppends(opening, enabled);
    FixedAppends(opening + enabled, delay);
  }

  lemma PrincipalFixed()
    ensures AllFixed(PRINCIPAL)
  {
    LinesArePlain();
    TriggerWords();
    hide Line, Word;
  }

  lemma RightsFixed()
    ensures AllFixed(RIGHTS)
  {
    var closing := [Close("Principal", Line(1)), Close("Principals", Line(1)), Open("Settings", Line(2))];
    TriggerWords();
    assert AllFixed(closing) by {
      LinesArePlain();
      hide Line, Word;
    }
    hide Word, Element, AllFixed, Line;
    var logon, level := Element("LogonType", "InteractiveToken", 3), Element("RunLevel", "HighestAvailable", 2);
    ElementFixed("LogonType", "InteractiveToken", 3);
    ElementFixed("RunLevel", "HighestAvailable", 2);
    FixedAppends(logon, level);
    FixedAppends(logon + level, closing);
  }

  lemma PowerFixed()
    ensures AllFixed(POWER) && AllFixed(STARTING)
  {
    PowerWords();
    hide Word, Element, AllFixed;
    ElementFixed("MultipleInstancesPolicy", "IgnoreNew", 2);
    ElementFixed("DisallowStartIfOnBatteries", "false", 2);
    ElementFixed("StopIfGoingOnBatteries", "false", 2);
    ElementFixed("AllowHardTerminate", "false", 2);
    ElementFixed("StartWhenAvailable", "true", 2);
    ElementFixed("RunOnlyIfNetworkAvailable", "false", 2);
    var policy, battery := Element("MultipleInstancesPolicy", "IgnoreNew", 2),
        Element("DisallowStartIfOnBatteries", "false", 2);
    FixedAppends(policy, battery);
    FixedAppends(policy + battery, Element("StopIfGoingOnBatteries", "false", 2));
    var hard, missed := Element("AllowHardTerminate", "false", 2), Element("StartWhenAvailable", "true", 2);
    FixedAppends(hard, missed);
    FixedAppends(hard + missed, Element("RunOnlyIfNetworkAvailable", "false", 2));
  }

  lemma IdlenessFixed()
    ensures AllFixed(IDLENESS) && AllFixed(RUNNING)
  {
    LinesArePlain();
    IdlenessWords();
    hide Line, Word;
  }

  lemma LimitsFixed()
    ensures AllFixed(LIMITS)
  {
    var actions := [Close("Settings", Line(1)), Open("Actions Context=\"Author\"", Line(2)), Open("Exec", Line(3))];
    TriggerWords();
    LimitWords();
    assert AllFixed(actions) by {
      LinesArePlain();
      hide Line, Word;
    }
    hide Word, Element, AllFixed, Line;
    var limit, priority := Element("ExecutionTimeLimit", "PT0S", 2), Element("Priority", "7", 1);
    ElementFixed("ExecutionTimeLimit", "PT0S", 2);
    ElementFixed("Priority", "7", 1);
    FixedAppends(limit, priority);
    FixedAppends(limit + priority, actions);
  }

  lemma ClosingFixed()
    ensures AllFixed(CLOSING)
  {
    LinesArePlain();
    OpeningWords();
    LimitWords();
    hide Line, Word;
  }

  // ----- what a search can stop at

  predicate NoBrackets(name: string) { forall i :: 0 <= i < |name| ==> name[i] != '<' && name[i] != '>' }

  /** The tag does not open `element` with a text that begins with `more`. */
  predicate Misses(tag: Tag, element: string, more: string) {
    && NoBrackets(tag.name) && '<' !in tag.text
    && (tag.Open? && tag.name == element ==> !(more <= tag.text))
  }

  ghost predicate AllMiss(tags: seq<Tag>, element: string, more: string) {
    forall t :: t in tags ==> Misses(t, element, more)
  }

  /** What `task_matches` looks for: an element, and how its text has to begin. */
  predicate Sought(element: string, more: string) {
    || (more == "" && (element == "Command" || element == "Arguments" || element == "RestartOnFailure"
        || element == "UserId"))
    || (more == "false" && element == "Enabled")
  }

  lemma SoughtIsAName(element: string, more: string)
    requires Sought(element, more)
    ensures element != "" && element[0] != '/' && NoBrackets(element) && '<' !in more
  {
  }

  lemma MissesAppend(a: seq<Tag>, b: seq<Tag>, element: string, more: string)
    requires AllMiss(a, element, more) && AllMiss(b, element, more)
    ensures AllMiss(a + b, element, more)
  {
    hide Misses;
  }

  lemma FixedMisses(tags: seq<Tag>, element: string, more: string)
    requires AllFixed(tags) && Sought(element, more)
    ensures AllMiss(tags, element, more)
  {
  }

  lemma ElementMisses(name: string, text: string, depth: nat, element: string, more: string)
    requires NoBrackets(name) && '<' !in text && name != element
    ensures AllMiss(Element(name, text, depth), element, more)
  {
    LinesArePlain();
    hide Line;
  }

  /** Text that begins like an opening tag is one. */
  lemma StartsByName(tag: Tag, element: string, more: string)
    requires NoBrackets(tag.name) && NoBrackets(element) && element != "" && element[0] != '/'
    requires element + ">" + more <= Render(tag)
    ensures tag.Open? && tag.name == element && more <= tag.text
  {
    var head := if tag.Close? then "/" + tag.name else tag.name;
    var pattern, text := element + ">" + more, head + ">" + tag.text;
    assert forall i :: 0 <= i < |head| ==> head[i] != '>';
    assert forall i :: 0 <= i < |pattern| ==> text[i] == pattern[i];
    assert pattern[|element|] == '>' && text[|head|] == '>';
    assert |element| == |head|;
    assert element == text[..|element|] == head;
    assert more == text[|head| + 1..][..|more|];
  }

  lemma {:induction false} Missed(tags: seq<Tag>, element: string, more: string)
    requires AllMiss(tags, element, more) && NoBrackets(element) && element != "" && element[0] != '/'
    ensures Clean(Rendered(tags)) && NoneStarts(Rendered(tags), element + ">" + more)
  {
    if tags != [] {
      assert tags[0] in tags;
      if element + ">" + more <= Render(tags[0]) {
        StartsByName(tags[0], element, more);
      }
      assert '<' !in Render(tags[0]);
      Missed(tags[1..], element, more);
    }
  }

  lemma {:induction false} RenderedAppends(a: seq<Tag>, b: seq<Tag>)
    ensures Rendered(a + b) == Rendered(a) + Rendered(b)
  {
    if a == [] {
      assert a + b == b;
    } else {
      RenderedAppends(a[1..], b);
      assert (a + b)[1..] == a[1..] + b;
    }
  }

  /** Looking up an element of the task that is the first of its name. */
  lemma Lookup(before: seq<Tag>, name: string, text: string, depth: nat, later: seq<Tag>)
    requires AllMiss(before, name, "") && Sought(name, "") && '<' !in text
    ensures XmlElement(Markup(Rendered(before + (Element(name, text, depth) + later))), name) == Some(Trim(text))
  {
    SoughtIsAName(name, "");
    Missed(before, name, "");
    var open, end := Render(Open(name, text)), Render(Close(name, Line(depth)));
    RenderedAppends(before, Element(name, text, depth) + later);
    RenderedAppends(Element(name, text, depth), later);
    assert Rendered(Element(name, text, depth)) == [open] + [end];
    assert Rendered(Element(name, text, depth) + later) == [open] + ([end] + Rendered(later));
    assert name + ">" + "" == name + ">" && open[|name| + 1..] == text;
    assert '<' !in name by { assert forall i :: 0 <= i < |name| ==> name[i] != '<'; }
    hide Rendered, Markup, XmlElement, Line, Element;
    ElementFound(Rendered(before), open, end, Rendered(later), name);
  }

  lemma NothingToFind(tags: seq<Tag>, element: string, more: string)
    requires AllMiss(tags, element, more) && Sought(element, more)
    ensures Find(Markup(Rendered(tags)), Opening(element, more)).None?
  {
    SoughtIsAName(element, more);
    Missed(tags, element, more);
    hide Find, Markup, Rendered;
    assert '<' !in element + ">" + more by { assert forall i :: 0 <= i < |element| ==> element[i] != '<'; }
    NoTag(Rendered(tags), element + ">" + more);
  }

  // ----- reading the task back

  lemma BeforeMisses(appName: string, element: string, more: string)
    requires Sought(element, more)
    ensures AllMiss(Before(appName), element, more)
  {
    var description := Escape("Start " + appName + " when the user logs on");
    PrologueFixed();
    LogonFixed();
    FixedMisses(PROLOGUE, element, more);
    FixedMisses(LOGON, element, more);
    EscapedHasNoMarkup("Start " + appName + " when the user logs on");
    OpeningWords();
    ElementMisses("Description", description, 1, element, more);
    hide AllMiss, Element, Escape;
    MissesAppend(PROLOGUE, Element("Description", description, 1), element, more);
    MissesAppend(PROLOGUE + Element("Description", description, 1), LOGON, element, more);
  }

  lemma RestFixed()
    ensures AllFixed(AFTER_USER)
  {
    RightsFixed();
    PowerFixed();
    IdlenessFixed();
    LimitsFixed();
    hide AllFixed;
    FixedAppends(RIGHTS, POWER);
    FixedAppends(RIGHTS + POWER, STARTING);
    FixedAppends(RIGHTS + POWER + STARTING, IDLENESS);
    FixedAppends(RIGHTS + POWER + STARTING + IDLENESS, RUNNING);
    FixedAppends(RIGHTS + POWER + STARTING + IDLENESS + RUNNING, LIMITS);
  }

  lemma MiddleMisses(sid: string, element: string, more: string)
    requires Sought(element, more) && element != "UserId"
    ensures AllMiss(Middle(sid), element, more)
  {
    var user := Element("UserId", Escape(sid), 3);
    PrincipalFixed();
    RestFixed();
    FixedMisses(PRINCIPAL, element, more);
    FixedMisses(AFTER_USER, element, more);
    EscapedHasNoMarkup(sid);
    ElementMisses("UserId", Escape(sid), 3, element, more);
    hide AllMiss, Element, Escape, AllFixed;
    MissesAppend(PRINCIPAL, user, element, more);
    MissesAppend(PRINCIPAL + user, AFTER_USER, element, more);
  }

  /** Everything before the command, once the user is known. */
  lemma UpToCommandMisses(appName: string, sid: string, element: string, more: string)
    requires Sought(element, more) && element != "UserId"
    ensures AllMiss(Before(appName) + (Element("UserId", Escape(sid), 2) + Middle(sid)), element, more)
  {
    BeforeMisses(appName, element, more);
    MiddleMisses(sid, element, more);
    EscapedHasNoMarkup(sid);
    ElementMisses("UserId", Escape(sid), 2, element, more);
    hide AllMiss, Element, Escape, Before, Middle;
    MissesAppend(Element("UserId", Escape(sid), 2), Middle(sid), element, more);
    MissesAppend(Before(appName), Element("UserId", Escape(sid), 2) + Middle(sid), element, more);
  }

  lemma TailMisses(parent: Option<string>, element: string, more: string)
    requires Sought(element, more)
    ensures AllMiss(DirectoryTags(parent) + CLOSING, element, more)
  {
    ClosingFixed();
    LimitWords();
    FixedMisses(CLOSING, element, more);
    if parent.Some? {
      EscapedHasNoMarkup(parent.value);
      ElementMisses("WorkingDirectory", Escape(parent.value), 2, element, more);
    }
    assert AllMiss(DirectoryTags(parent), element, more);
    hide AllMiss;
    MissesAppend(DirectoryTags(parent), CLOSING, element, more);
  }

  lemma UserRead(appName: string, appPath: string, args: seq<string>, sid: string, parent: Option<string>)
    ensures ElementText(TaskText(appName, appPath, args, sid, parent), "UserId") == Some(Trim(sid))
  {
    var arguments, last := BuildArguments(args), if parent.Some? then 3 else 2;
    EscapedHasNoMarkup(sid);
    EscapeTrims(sid);
    BeforeMisses(appName, "UserId", "");
    hide Escape, Unescape, Before, Middle, Element, BuildArguments, XmlElement, Markup, Rendered, DirectoryTags,
        ArgumentTags;
    Lookup(Before(appName), "UserId", Escape(sid), 2,
           Middle(sid) + (Element("Command", Escape(appPath), if arguments != "" then 3 else last)
                          + (ArgumentTags(arguments, last) + (DirectoryTags(parent) + CLOSING))));
  }

  lemma Regrouped(a: seq<Tag>, b: seq<Tag>, c: seq<Tag>, d: seq<Tag>)
    ensures a + (b + (c + d)) == (a + (b + c)) + d
  {
  }

  lemma CommandRead(appName: string, appPath: string, args: seq<string>, sid: string, parent: Option<string>)
    ensures ElementText(TaskText(appName, appPath, args, sid, parent), "Command") == Some(Trim(appPath))
  {
    var arguments, last := BuildArguments(args), if parent.Some? then 3 else 2;
    var depth := if arguments != "" then 3 else last;
    EscapedHasNoMarkup(appPath);
    EscapeTrims(appPath);
    UpToCommandMisses(appName, sid, "Command", "");
    hide Escape, Unescape, Before, Middle, Element, BuildArguments, XmlElement, Markup, Rendered, DirectoryTags,
        ArgumentTags;
    var later := ArgumentTags(arguments, last) + (DirectoryTags(parent) + CLOSING);
    Lookup(Before(appName) + (Element("UserId", Escape(sid), 2) + Middle(sid)), "Command", Escape(appPath), depth,
        later);
    Regrouped(Before(appName), Element("UserId", Escape(sid), 2), Middle(sid),
        Element("Command", Escape(appPath), depth) + later);
  }

  /** Everything but the arguments misses what is sought; so does the whole without them. */
  lemma UpToArgumentsMisses(appName: string, appPath: string, depth: nat, sid: string, element: string, more: string)
    requires Sought(element, more) && element != "UserId" && element != "Command"
    ensures AllMiss((Before(appName) + (Element("UserId", Escape(sid), 2) + Middle(sid)))
                    + Element("Command", Escape(appPath), depth), element, more)
  {
    UpToCommandMisses(appName, sid, element, more);
    EscapedHasNoMarkup(appPath);
    ElementMisses("Command", Escape(appPath), depth, element, more);
    hide AllMiss, Element, Escape, Before, Middle;
    MissesAppend(Before(appName) + (Element("UserId", Escape(sid), 2) + Middle(sid)),
                 Element("Command", Escape(appPath), depth), element, more);
  }

  /** The task's tags as what comes before the arguments, the arguments, and the tail. */
  lemma AroundArguments(appName: string, appPath: string, args: seq<string>, sid: string, parent: Option<string>)
    returns (before: seq<Tag>)
    ensures var last := if parent.Some? then 3 else 2;
      TaskTags(appName, appPath, args, sid, parent) ==
      before + (ArgumentTags(BuildArguments(args), last) + (DirectoryTags(parent) + CLOSING))
    ensures forall element, more :: Sought(element, more) && element != "UserId" && element != "Command" ==>
              AllMiss(before, element, more)
  {
    var arguments, last := BuildArguments(args), if parent.Some? then 3 else 2;
    var depth := if arguments != "" then 3 else last;
    var user, command := Element("UserId", Escape(sid), 2), Element("Command", Escape(appPath), depth);
    var tail := ArgumentTags(arguments, last) + (DirectoryTags(parent) + CLOSING);
    before := (Before(appName) + (user + Middle(sid))) + command;
    forall element, more | Sought(element, more) && element != "UserId" && element != "Command"
      ensures AllMiss(before, element, more)
    {
      UpToArgumentsMisses(appName, appPath, depth, sid, element, more);
    }
    hide Escape, Before, Middle, Element, BuildArguments, DirectoryTags, ArgumentTags, AllMiss, Sought;
    Regrouped(Before(appName), user, Middle(sid), command + tail);
    assert (Before(appName) + (user + Middle(sid))) + (command + tail) == before + tail;
  }

  lemma ArgumentsRead(appName: string, appPath: string, args: seq<string>, sid: string, parent: Option<string>)
    ensures ElementText(TaskText(appName, appPath, args, sid, parent), "Arguments") ==
            (if BuildArguments(args) == "" then None else Some(Trim(BuildArguments(args))))
  {
    var arguments, last := BuildArguments(args), if parent.Some? then 3 else 2;
    var before := AroundArguments(appName, appPath, args, sid, parent);
    EscapedHasNoMarkup(arguments);
    EscapeTrims(arguments);
    if arguments == "" {
      TailMisses(parent, "Arguments", "");
      MissesAppend(before, DirectoryTags(parent) + CLOSING, "Arguments", "");
      hide Escape, BuildArguments, AllMiss, Find, Markup, Rendered;
      NothingToFind(before + (DirectoryTags(parent) + CLOSING), "Arguments", "");
      assert "<" + "Arguments" + ">" == Opening("Arguments", "");
      assert [] + (DirectoryTags(parent) + CLOSING) == DirectoryTags(parent) + CLOSING;
    } else {
      hide Escape, Unescape, Element, BuildArguments, XmlElement, Markup, Rendered, DirectoryTags, AllMiss;
      Lookup(before, "Arguments", Escape(arguments), last, DirectoryTags(parent) + CLOSING);
    }
  }

  /** Nothing in the task restarts it on failure or disables anything. */
  lemma NothingUnwanted(appName: string, appPath: string, args: seq<string>, sid: string, parent: Option<string>,
                        element: string, more: string)
    requires Sought(element, more) && (element == "RestartOnFailure" || element == "Enabled")
    ensures Find(TaskText(appName, appPath, args, sid, parent), Opening(element, more)).None?
  {
    var arguments, last := BuildArguments(args), if parent.Some? then 3 else 2;
    var before := AroundArguments(appName, appPath, args, sid, parent);
    EscapedHasNoMarkup(arguments);
    ElementMisses("Arguments", Escape(arguments), last, element, more);
    assert AllMiss(ArgumentTags(arguments, last), element, more);
    TailMisses(parent, element, more);
    hide AllMiss, BuildArguments, Escape, Find, Markup, Rendered;
    var tail := DirectoryTags(parent) + CLOSING;
    MissesAppend(ArgumentTags(arguments, last), tail, element, more);
    MissesAppend(before, ArgumentTags(arguments, last) + tail, element, more);
    NothingToFind(before + (ArgumentTags(arguments, last) + tail), element, more);
  }

  // ----- the settings it must contain

  ghost predicate Has(tags: seq<Tag>, pattern: string) {
    exists k: nat :: OccursAt(pattern, Markup(Rendered(tags)), k)
  }

  lemma HasLeft(a: seq<Tag>, b: seq<Tag>, pattern: string)
    requires Has(a, pattern)
    ensures Has(a + b, pattern)
  {
    var k: nat :| OccursAt(pattern, Markup(Rendered(a)), k);
    RenderedAppends(a, b);
    MarkupAppends(Rendered(a), Rendered(b));
    var front, text := Markup(Rendered(a)), Markup(Rendered(a + b));
    assert text[k..k + |pattern|] == front[k..k + |pattern|];
    assert OccursAt(pattern, text, k);
  }

  lemma HasRight(a: seq<Tag>, b: seq<Tag>, pattern: string)
    requires Has(b, pattern)
    ensures Has(a + b, pattern)
  {
    var k: nat :| OccursAt(pattern, Markup(Rendered(b)), k);
    RenderedAppends(a, b);
    MarkupAppends(Rendered(a), Rendered(b));
    Shift(Markup(Rendered(a)), Markup(Rendered(b)), pattern, k);
    assert OccursAt(pattern, Markup(Rendered(a + b)), |Markup(Rendered(a))| + k);
  }

  lemma ElementHas(name: string, text: string, depth: nat)
    ensures Has(Element(name, text, depth), Marker(name, text))
  {
    var open, end := Open(name, text), Close(name, Line(depth));
    var pattern := Marker(name, text);
    RenderedOne(open);
    RenderedOne(end);
    RenderedAppends([open], [end]);
    MarkupAppends([Render(open)], [Render(end)]);
    assert Element(name, text, depth) == [open] + [end];
    var whole := Markup(Rendered(Element(name, text, depth)));
    assert whole == pattern + Line(depth) by {
      hide Line;
      assert "<" + Render(open) + ("<" + Render(end)) == pattern + Line(depth);
    }
    assert whole[0..|pattern|] == pattern;
    assert OccursAt(pattern, whole, 0);
  }

  lemma RenderedOne(tag: Tag)
    ensures Rendered([tag]) == [Render(tag)] && Markup([Render(tag)]) == "<" + Render(tag)
  {
    assert [tag][1..] == [] && [Render(tag)][1..] == [];
    assert Rendered([]) == [] && Markup([]) == [];
  }

  /** `pattern` occurs in the task wherever it occurs in one of its parts. */
  lemma MarkerPresent(appName: string, appPath: string, args: seq<string>, sid: string, parent: Option<string>,
      pattern: string)
    requires pattern != "" && (Has(LOGON, pattern) || Has(RIGHTS, pattern) || Has(LIMITS, pattern))
    ensures Contains(TaskText(appName, appPath, args, sid, parent), pattern)
  {
    var arguments, last := BuildArguments(args), if parent.Some? then 3 else 2;
    var user := Element("UserId", Escape(sid), 2);
    var tail := Element("Command", Escape(appPath), if arguments != "" then 3 else last)
                + (ArgumentTags(arguments, last) + (DirectoryTags(parent) + CLOSING));
    var description := Element("Description", Escape("Start " + appName + " when the user logs on"), 1);
    var tags := TaskTags(appName, appPath, args, sid, parent);
    hide Escape, BuildArguments, Element, ArgumentTags, DirectoryTags, Has, Markup, Rendered;
    if Has(LOGON, pattern) {
      HasRight(PROLOGUE + description, LOGON, pattern);
      HasLeft(Before(appName), user + (Middle(sid) + tail), pattern);
    } else {
      MiddleMarker(sid, pattern);
      HasLeft(Middle(sid), tail, pattern);
      HasRight(user, Middle(sid) + tail, pattern);
      HasRight(Before(appName), user + (Middle(sid) + tail), pattern);
    }
    HasMeansContains(tags, pattern);
  }

  lemma MiddleMarker(sid: string, pattern: string)
    requires Has(RIGHTS, pattern) || Has(LIMITS, pattern)
    ensures Has(Middle(sid), pattern)
  {
    var user := Element("UserId", Escape(sid), 3);
    var others := RIGHTS + POWER + STARTING + IDLENESS + RUNNING;
    hide Has, Element, Escape;
    if Has(RIGHTS, pattern) {
      HasLeft(RIGHTS, POWER, pattern);
      HasLeft(RIGHTS + POWER, STARTING, pattern);
      HasLeft(RIGHTS + POWER + STARTING, IDLENESS, pattern);
      HasLeft(RIGHTS + POWER + STARTING + IDLENESS, RUNNING, pattern);
      HasLeft(others, LIMITS, pattern);
    } else {
      HasRight(others, LIMITS, pattern);
    }
    HasRight(PRINCIPAL + user, AFTER_USER, pattern);
  }

  lemma HasMeansContains(tags: seq<Tag>, pattern: string)
    requires pattern != "" && Has(tags, pattern)
    ensures Contains(Markup(Rendered(tags)), pattern)
  {
    var k: nat :| OccursAt(pattern, Markup(Rendered(tags)), k);
    hide Markup, Rendered;
  }

  lemma LogonMarker()
    ensures Has(LOGON, Marker("Delay", "PT10S"))
  {
    var pattern := Marker("Delay", "PT10S");
    ElementHas("Delay", "PT10S", 3);
    hide Has, Element, Marker;
    HasRight([Close("RegistrationInfo", Line(1)), Open("Triggers", Line(2)), Open("LogonTrigger", Line(3))]
             + Element("Enabled", "true", 3), Element("Delay", "PT10S", 3), pattern);
  }

  lemma LogonTypeMarker()
    ensures Has(RIGHTS, Marker("LogonType", "InteractiveToken"))
  {
    var pattern := Marker("LogonType", "InteractiveToken");
    ElementHas("LogonType", "InteractiveToken", 3);
    hide Has, Element, Marker;
    var logon, level := Element("LogonType", "InteractiveToken", 3), Element("RunLevel", "HighestAvailable", 2);
    HasLeft(logon, level, pattern);
    HasLeft(logon + level, [Close("Principal", Line(1)), Close("Principals", Line(1)), Open("Settings", Line(2))],
        pattern);
  }

  lemma RunLevelMarker()
    ensures Has(RIGHTS, Marker("RunLevel", "HighestAvailable"))
  {
    var pattern := Marker("RunLevel", "HighestAvailable");
    ElementHas("RunLevel", "HighestAvailable", 2);
    hide Has, Element, Marker;
    var logon, level := Element("LogonType", "InteractiveToken", 3), Element("RunLevel", "HighestAvailable", 2);
    HasRight(logon, level, pattern);
    HasLeft(logon + level, [Close("Principal", Line(1)), Close("Principals", Line(1)), Open("Settings", Line(2))],
        pattern);
  }

  lemma LimitMarker()
    ensures Has(LIMITS, Marker("ExecutionTimeLimit", "PT0S"))
  {
    var pattern := Marker("ExecutionTimeLimit", "PT0S");
    ElementHas("ExecutionTimeLimit", "PT0S", 2);
    hide Has, Element, Marker;
    var limit, priority := Element("ExecutionTimeLimit", "PT0S", 2), Element("Priority", "7", 1);
    HasLeft(limit, priority, pattern);
    HasLeft(limit + priority,
            [Close("Settings", Line(1)), Open("Actions Context=\"Author\"", Line(2)), Open("Exec", Line(3))], pattern);
  }

  // ----- the task matches itself

  lemma TrimKeepsOnlyTrimmed(s: string)
    ensures |Trim(s)| <= |s| && (|Trim(s)| == |s| <==> Trimmed(s)) && (Trimmed(s) ==> Trim(s) == s)
  {
    TrimShrinks(s);
    if Trimmed(s) {
      TrimKeepsTrimmed(s);
    } else if IsWhitespace(s[0]) {
      TrimShrinks(s[1..]);
    } else {
      assert TrimStart(s) == s;
      TrimShrinks(s[..|s| - 1]);
    }
  }

  lemma {:induction false} TrimShrinks(s: string)
    ensures |TrimStart(s)| <= |s| && |TrimEnd(s)| <= |s| && |Trim(s)| <= |TrimStart(s)|
    decreases |s|
  {
    if s != [] {
      TrimShrinks(s[1..]);
      TrimShrinks(s[..|s| - 1]);
    }
    EndShrinks(TrimStart(s));
  }

  lemma {:induction false} EndShrinks(s: string)
    ensures |TrimEnd(s)| <= |s|
    decreases |s|
  {
    if s != [] {
      EndShrinks(s[..|s| - 1]);
    }
  }

  /** What a search of the written task finds. */
  lemma TaskReads(appName: string, appPath: string, args: seq<string>, sid: string, parent: Option<string>)
    ensures var text := TaskText(appName, appPath, args, sid, parent);
      && ElementText(text, "Command") == Some(Trim(appPath))
      && ElementText(text, "UserId") == Some(Trim(sid))
      && ElementText(text, "Arguments") == (if BuildArguments(args) == "" then None
          else Some(Trim(BuildArguments(args))))
      && Contains(text, Marker("LogonType", "InteractiveToken"))
      && Contains(text, Marker("RunLevel", "HighestAvailable"))
      && Contains(text, Marker("Delay", "PT10S"))
      && Contains(text, Marker("ExecutionTimeLimit", "PT0S"))
      && !Contains(text, Opening("RestartOnFailure", ""))
      && !Contains(text, Marker("Enabled", "false"))
  {
    hide ElementText, TaskText, BuildArguments, Has;
    CommandRead(appName, appPath, args, sid, parent);
    UserRead(appName, appPath, args, sid, parent);
    ArgumentsRead(appName, appPath, args, sid, parent);
    LogonMarker();
    LogonTypeMarker();
    RunLevelMarker();
    LimitMarker();
    MarkerPresent(appName, appPath, args, sid, parent, Marker("LogonType", "InteractiveToken"));
    MarkerPresent(appName, appPath, args, sid, parent, Marker("RunLevel", "HighestAvailable"));
    MarkerPresent(appName, appPath, args, sid, parent, Marker("Delay", "PT10S"));
    MarkerPresent(appName, appPath, args, sid, parent, Marker("ExecutionTimeLimit", "PT0S"));
    UnwantedAbsent(appName, appPath, args, sid, parent);
  }

  lemma UnwantedAbsent(appName: string, appPath: string, args: seq<string>, sid: string, parent: Option<string>)
    ensures var text := TaskText(appName, appPath, args, sid, parent);
      !Contains(text, Opening("RestartOnFailure", "")) && !Contains(text, Marker("Enabled", "false"))
  {
    var text := TaskText(appName, appPath, args, sid, parent);
    NothingUnwanted(appName, appPath, args, sid, parent, "RestartOnFailure", "");
    NothingUnwanted(appName, appPath, args, sid, parent, "Enabled", "false");
    var begins, whole := Opening("Enabled", "false"), Marker("Enabled", "false");
    MarkerOpens("Enabled", "false");
    hide TaskText, Find, OccursAt, Opening, Marker;
    var r := Find(text, whole);
    if r.Some? {
      OccursInPart(begins, whole, text, r.value);
    }
  }

  lemma MarkerOpens(name: string, text: string)
    ensures Opening(name, text) <= Marker(name, text)
  {
  }

  lemma OccursInPart(begins: string, whole: string, text: string, k: nat)
    requires begins <= whole && OccursAt(whole, text, k)
    ensures OccursAt(begins, text, k)
  {
    assert text[k..k + |begins|] == text[k..k + |whole|][..|begins|];
  }

  /**
   Written, encoded, decoded and read back, the task is recognised as the wanted one exactly when path, user and
   command line have no white space at their ends and the path's file stem is the app's name.
   */
  lemma TaskMatchesItself(appName: string, appPath: string, args: seq<string>, sid: string, parent: Option<string>,
                          stem: string -> Option<string>, utf8: seq<Utf16.Byte> -> string)
    ensures var read := Utf16.DecodeCommandOutput(Utf16.Encoded(TaskText(appName, appPath, args, sid, parent)), utf8);
      TaskMatches(read, appName, appPath, args, sid, stem) <==>
        && Trimmed(appPath) && Trimmed(sid) && Trimmed(BuildArguments(args))
        && stem(appPath).Some? && EqIgnoreAsciiCase(stem(appPath).value, appName)
  {
    Utf16.EncodedReadsBack(TaskText(appName, appPath, args, sid, parent), utf8);
    TaskReads(appName, appPath, args, sid, parent);
    TrimKeepsOnlyTrimmed(appPath);
    TrimKeepsOnlyTrimmed(sid);
    TrimKeepsOnlyTrimmed(BuildArguments(args));
    hide ElementText, TaskText, BuildArguments, Trim, Trimmed, Contains, Utf16.DecodeCommandOutput, Utf16.Encoded;
    assert Trim("") == "" by { TrimKeepsOnlyTrimmed(""); }
  }
}
