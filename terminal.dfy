/**
 * The interactive terminal: a scrollback of lines, an input field, and a
 * history of entered commands walked with the arrow keys. A command is
 * trimmed and lower-cased, then answered from a fixed table of Hebrew
 * texts; `clear` empties the screen and anything else not in the table gets
 * an error line.
 */
module Terminal {
  import opened Wrappers

  datatype LineKind = InputLine | OutputLine

  datatype Line = Line(kind: LineKind, content: string)

  const Prompt: string := "root@daniel:~$ "

  /** The three lines the terminal starts with. */
  const Banner: seq<Line> := [
    Line(OutputLine, "מערכת דניאל v1.0.0"),
    Line(OutputLine, "הקלד \"help\" לקבלת רשימת פקודות"),
    Line(OutputLine, "")
  ]

  const HelpText: seq<string> := [
    "פקודות זמינות:",
    "  help           - הצגת רשימת פקודות",
    "  about          - מידע על דניאל",
    "  skills         - רשימת כישורים",
    "  projects       - פרויקטים נבחרים",
    "  experience     - ניסיון מקצועי",
    "  certifications - הסמכות ותעודות",
    "  contact        - פרטי יצירת קשר",
    "  clear          - ניקוי הטרמינל"
  ]

  const AboutText: seq<string> := [
    "דניאל - חוקר סייבר ומומחה אבטחת מידע",
    "",
    "מתמחה בבדיקות חדירות, ניתוח פרצות אבטחה",
    "וחקירת אירועי סייבר. עובד עם כלים מתקדמים",
    "כמו Kali Linux, Burp Suite ו-Metasploit.",
    "",
    "תמיד לומד ומתעדכן בטכנולוגיות חדשות."
  ]

  const SkillsText: seq<string> := [
    "[ כישורים טכניים ]",
    "",
    "> בדיקות חדירות (Penetration Testing)",
    "> עבודה עם Kali Linux",
    "> Nmap, Burp Suite, Metasploit",
    "> ניתוח לוגים וזיהוי חריגות",
    "> Python & Bash scripting",
    "> OSINT - מודיעין ממקורות פתוחים",
    "> ניתוח נוזקות והנדסה לאחור"
  ]

  const ContactText: seq<string> := [
    "[ יצירת קשר ]",
    "",
    "אימייל: daniel@example.com",
    "לינקדאין: linkedin.com/in/daniel",
    "גיטהאב: github.com/daniel",
    "",
    "או השתמש בטופס יצירת קשר למטה"
  ]

  const ProjectsText: seq<string> := [
    "[ פרויקטים נבחרים ]",
    "",
    "> Network Scanner - כלי סריקת רשתות אוטומטי",
    "  └─ Python, Scapy, Nmap integration",
    "",
    "> Log Analyzer - מערכת ניתוח לוגים חכמה",
    "  └─ ELK Stack, Python, Machine Learning",
    "",
    "> Phishing Detector - זיהוי אתרי פישינג",
    "  └─ NLP, URL analysis, Browser extension",
    "",
    "> Password Auditor - בדיקת חוזק סיסמאות",
    "  └─ Hashcat integration, Policy checker"
  ]

  const ExperienceText: seq<string> := [
    "[ ניסיון מקצועי ]",
    "",
    "> 2023-הווה: חוקר אבטחת מידע",
    "  └─ בדיקות חדירות, ניתוח פרצות, דוחות אבטחה",
    "",
    "> 2022-2023: אנליסט SOC",
    "  └─ ניטור אירועי אבטחה, תגובה לאירועים",
    "",
    "> 2021-2022: מתמחה אבטחת מידע",
    "  └─ סריקות פגיעויות, בדיקות אוטומטיות",
    "",
    "> 2020-2021: לימודים עצמאיים",
    "  └─ CTF, TryHackMe, HackTheBox"
  ]

  const CertificationsText: seq<string> := [
    "[ הסמכות ותעודות ]",
    "",
    "> CEH - Certified Ethical Hacker",
    "  └─ EC-Council",
    "",
    "> CompTIA Security+",
    "  └─ CompTIA",
    "",
    "> OSCP - Offensive Security Certified Professional",
    "  └─ בתהליך השלמה",
    "",
    "> eJPT - eLearnSecurity Junior Penetration Tester",
    "  └─ INE Security"
  ]

  /** The entries of the command table. */
  datatype Command = Help | About | Skills | Contact | Projects | Experience | Certifications

  /** The command table: each command's own key. */
  const Commands: map<string, Command> := map[
    "help" := Help,
    "about" := About,
    "skills" := Skills,
    "contact" := Contact,
    "projects" := Projects,
    "experience" := Experience,
    "certifications" := Certifications
  ]

  /** The lines an entry prints. */
  function Text(c: Command): seq<string> {
    match c
    case Help => HelpText
    case About => AboutText
    case Skills => SkillsText
    case Contact => ContactText
    case Projects => ProjectsText
    case Experience => ExperienceText
    case Certifications => CertificationsText
  }

  function ErrorLine(t: string): string {
    "bash: " + t + ": פקודה לא מוכרת. הקלד \"help\" לעזרה."
  }

  // ---------------------------------------------------------------------------
  // Normalising a command: `cmd.trim().toLowerCase()`.
  // ---------------------------------------------------------------------------

  /** The characters `String.prototype.trim` removes: white space and line terminators. */
  const JsSpaces: set<char> := {
    ' ', '\t', '\n', '\U{B}', '\U{C}', '\r', '\U{A0}', '\U{1680}',
    '\U{2000}', '\U{2001}', '\U{2002}', '\U{2003}', '\U{2004}', '\U{2005}',
    '\U{2006}', '\U{2007}', '\U{2008}', '\U{2009}', '\U{200A}',
    '\U{2028}', '\U{2029}', '\U{202F}', '\U{205F}', '\U{3000}', '\U{FEFF}'
  }

  predicate IsJsSpace(c: char) {
    c in JsSpaces
  }

  /** `s` without its leading white space. */
  function TrimStart(s: string): string {
    if s == [] || !IsJsSpace(s[0]) then s else TrimStart(s[1..])
  }

  /** `s` without its trailing white space. */
  function TrimEnd(s: string): string {
    if s == [] || !IsJsSpace(s[|s| - 1]) then s else TrimEnd(s[..|s| - 1])
  }

  /** `trim`: both ends. */
  function Trim(s: string): string {
    TrimEnd(TrimStart(s))
  }

  /** `TrimStart` removes a run of white space from the front, and only that. */
  lemma {:induction false} TrimStartSpec(s: string)
    ensures |TrimStart(s)| <= |s| && TrimStart(s) == s[|s| - |TrimStart(s)|..]
    ensures forall j :: 0 <= j < |s| - |TrimStart(s)| ==> IsJsSpace(s[j])
    ensures TrimStart(s) == [] || !IsJsSpace(TrimStart(s)[0])
  {
    if s != [] && IsJsSpace(s[0]) {
      TrimStartSpec(s[1..]);
    }
  }

  /** `TrimEnd` removes a run of white space from the back, and only that. */
  lemma {:induction false} TrimEndSpec(s: string)
    ensures |TrimEnd(s)| <= |s| && TrimEnd(s) == s[..|TrimEnd(s)|]
    ensures forall j :: |TrimEnd(s)| <= j < |s| ==> IsJsSpace(s[j])
    ensures TrimEnd(s) == [] || !IsJsSpace(TrimEnd(s)[|TrimEnd(s)| - 1])
  {
    if s != [] && IsJsSpace(s[|s| - 1]) {
      var init := s[..|s| - 1];
      TrimEndSpec(init);
      assert forall j :: |TrimEnd(init)| <= j < |init| ==> init[j] == s[j];
    }
  }

  /**
   * `trim` keeps a piece of `s` (what follows the leading white space, up to
   * the trailing white space) that neither starts nor ends with white space.
   */
  lemma TrimSpec(s: string)
    ensures var t := TrimStart(s); var r := Trim(s);
      && |r| <= |t| <= |s| && t == s[|s| - |t|..] && r == t[..|r|]
      && (r == [] || (!IsJsSpace(r[0]) && !IsJsSpace(r[|r| - 1])))
  {
    var t := TrimStart(s);
    TrimStartSpec(s);
    TrimEndSpec(t);
    var r := TrimEnd(t);
    assert r != [] ==> r[0] == t[0];
  }

  /** A string with no white space at either end is its own trim. */
  lemma TrimOfTrimmed(s: string)
    requires s == [] || (!IsJsSpace(s[0]) && !IsJsSpace(s[|s| - 1]))
    ensures Trim(s) == s
  {
    assert TrimStart(s) == s;
  }

  function LowerChar(c: char): char {
    if 'A' <= c <= 'Z' then (c as int + ('a' as int - 'A' as int)) as char else c
  }

  /** Lower-casing a character keeps it white space or not, and leaves no capital. */
  lemma LowerCharSpec(c: char)
    ensures IsJsSpace(LowerChar(c)) <==> IsJsSpace(c)
    ensures !('A' <= LowerChar(c) <= 'Z')
    ensures LowerChar(LowerChar(c)) == LowerChar(c)
  {
  }

  /** `toLowerCase` on the ASCII letters, character by character. */
  function ToLower(s: string): string {
    seq(|s|, i requires 0 <= i < |s| => LowerChar(s[i]))
  }

  /** `cmd.trim().toLowerCase()`: no longer than the input, no white space at its ends, no capitals. */
  function Normalize(cmd: string): (r: string)
    ensures |r| <= |cmd|
    ensures r == [] || (!IsJsSpace(r[0]) && !IsJsSpace(r[|r| - 1]))
    ensures forall i :: 0 <= i < |r| ==> !('A' <= r[i] <= 'Z')
  {
    var u := Trim(cmd);
    TrimSpec(cmd);
    if u == [] then ToLower(u)
    else
      LowerCharSpec(u[0]);
      LowerCharSpec(u[|u| - 1]);
      ToLower(u)
  }

  /** Normalising twice is normalising once: the result has no white space at its ends and no capitals. */
  lemma NormalizeIdempotent(cmd: string)
    ensures Normalize(Normalize(cmd)) == Normalize(cmd)
  {
    var u := Trim(cmd);
    var t := ToLower(u);
    TrimSpec(cmd);
    if t != [] {
      LowerCharSpec(u[0]);
      LowerCharSpec(u[|u| - 1]);
    }
    TrimOfTrimmed(t);
    forall i | 0 <= i < |t|
      ensures LowerChar(t[i]) == t[i]
    {
      LowerCharSpec(u[i]);
    }
    assert ToLower(t) == t;
  }

  // ---------------------------------------------------------------------------
  // Looking a command up and printing its answer.
  // ---------------------------------------------------------------------------

  /** `commands[t]` restricted to the table's own entries. */
  function Lookup(t: string): Option<seq<string>> {
    if t in Commands then Some(Text(Commands[t])) else None
  }

  /** What a lookup on the plain object literal finds. */
  datatype Found = OwnEntry(lines: seq<string>) | InheritedMember(name: string) | NoEntry

  /**
   * The members every object literal inherits from `Object.prototype` whose
   * names have no capitals, so a lower-cased command can reach them.
   */
  const InheritedNames: set<string> := {"constructor", "__proto__"}

  /**
   * `commands[t]` as written: the table is an object literal, so an inherited
   * member is found too; it is truthy, and the answer takes the found branch.
   */
  function LookupAsWritten(t: string): (r: Found)
    ensures r.NoEntry? <==> Lookup(t).None? && t !in InheritedNames
  {
    if t in Commands then OwnEntry(Text(Commands[t]))
    else if t in InheritedNames then InheritedMember(t)
    else NoEntry
  }

  /** The as-written lookup answers `constructor` without the error line an unknown command gets. */
  lemma InheritedMemberIsNotReported()
    ensures Lookup("constructor") == None
    ensures LookupAsWritten("constructor") == InheritedMember("constructor")
    ensures Lookup("__proto__") == None
    ensures LookupAsWritten("__proto__") == InheritedMember("__proto__")
  {
  }

  /** The lines printed for a non-empty command other than `clear`. */
  function Answer(t: string): seq<string> {
    match Lookup(t)
    case Some(lines) => lines
    case None => [ErrorLine(t)]
  }

  function Outputs(texts: seq<string>): (r: seq<Line>)
    ensures |r| == |texts|
    ensures forall i :: 0 <= i < |texts| ==> r[i] == Line(OutputLine, texts[i])
  {
    if texts == [] then [] else [Line(OutputLine, texts[0])] + Outputs(texts[1..])
  }

  lemma OutputsSnoc(texts: seq<string>, i: nat)
    requires i < |texts|
    ensures Outputs(texts[..i + 1]) == Outputs(texts[..i]) + [Line(OutputLine, texts[i])]
  {
  }

  /** `outputLines.forEach(line => newLines.push(...))`: one output line per text, in order. */
  method PushOutputs(newLines: seq<Line>, texts: seq<string>) returns (r: seq<Line>)
    ensures r == newLines + Outputs(texts)
  {
    r := newLines;
    var i := 0;
    while i < |texts|
      invariant 0 <= i <= |texts|
      invariant r == newLines + Outputs(texts[..i])
    {
      OutputsSnoc(texts, i);
      r := r + [Line(OutputLine, texts[i])];
      i := i + 1;
    }
    assert texts[..i] == texts;
  }

  function Echo(cmd: string): Line {
    Line(InputLine, Prompt + cmd)
  }

  /** What follows the echo for the normalised command `t`. */
  function Reply(t: string): seq<Line> {
    if t == "" then [] else Outputs(Answer(t)) + [Line(OutputLine, "")]
  }

  /** The screen after a command whose normalised form is `t`. */
  function Respond(lines: seq<Line>, cmd: string, t: string): seq<Line> {
    if t == "clear" then [] else lines + [Echo(cmd)] + Reply(t)
  }

  /** `processCommand(cmd)` as a function of the screen it starts from. */
  function Processed(lines: seq<Line>, cmd: string): (r: seq<Line>)
    ensures r == [] <==> Normalize(cmd) == "clear"
    ensures r != [] ==> lines < r
  {
    Respond(lines, cmd, Normalize(cmd))
  }

  /** `clear` (in any case, with any surrounding white space) empties the screen, echo included. */
  lemma ClearEmptiesScreen(lines: seq<Line>, cmd: string)
    requires Normalize(cmd) == "clear"
    ensures Processed(lines, cmd) == []
  {
  }

  /** Every other command keeps the screen and echoes the raw input after it; a blank one prints nothing more. */
  lemma CommandKeepsScreen(lines: seq<Line>, cmd: string)
    requires Normalize(cmd) != "clear"
    ensures |Processed(lines, cmd)| > |lines|
    ensures Processed(lines, cmd)[..|lines|] == lines
    ensures Processed(lines, cmd)[|lines|] == Line(InputLine, Prompt + cmd)
    ensures Normalize(cmd) == "" ==> |Processed(lines, cmd)| == |lines| + 1
  {
    assert (lines + [Echo(cmd)] + Reply(Normalize(cmd)))[..|lines|] == lines;
  }

  /** A table command prints exactly its entry, then a blank line. */
  lemma KnownCommandPrintsEntry(lines: seq<Line>, cmd: string)
    requires Normalize(cmd) in Commands
    ensures Processed(lines, cmd) ==
      lines + [Echo(cmd)] + Outputs(Text(Commands[Normalize(cmd)])) + [Line(OutputLine, "")]
  {
    var t := Normalize(cmd);
    assert t != "clear" && t != "";
    assert Reply(t) == Outputs(Text(Commands[t])) + [Line(OutputLine, "")];
  }

  /** Any other non-empty command prints one error line naming it, then a blank line. */
  lemma UnknownCommandReported(lines: seq<Line>, cmd: string)
    requires Normalize(cmd) !in Commands && Normalize(cmd) != "" && Normalize(cmd) != "clear"
    ensures Processed(lines, cmd) ==
      lines + [Echo(cmd), Line(OutputLine, ErrorLine(Normalize(cmd))), Line(OutputLine, "")]
  {
    var t := Normalize(cmd);
    assert Answer(t) == [ErrorLine(t)];
    assert Reply(t) == [Line(OutputLine, ErrorLine(t)), Line(OutputLine, "")];
  }

  /** Commands that normalise alike get the same answer; only the echo of the raw input differs. */
  lemma SameAnswerUpToEcho(lines: seq<Line>, a: string, b: string)
    requires Normalize(a) == Normalize(b) && Normalize(a) != "clear"
    ensures |Processed(lines, a)| == |Processed(lines, b)|
    ensures Processed(lines, a)[..|lines|] == Processed(lines, b)[..|lines|]
    ensures Processed(lines, a)[|lines| + 1..] == Processed(lines, b)[|lines| + 1..]
  {
    RespondAfterEcho(lines, a, Normalize(a));
    RespondAfterEcho(lines, b, Normalize(a));
  }

  lemma RespondAfterEcho(lines: seq<Line>, cmd: string, t: string)
    requires t != "clear"
    ensures |Respond(lines, cmd, t)| == |lines| + 1 + |Reply(t)|
    ensures Respond(lines, cmd, t)[..|lines|] == lines
    ensures Respond(lines, cmd, t)[|lines|] == Echo(cmd)
    ensures Respond(lines, cmd, t)[|lines| + 1..] == Reply(t)
  {
    assert (lines + [Echo(cmd)] + Reply(t))[|lines| + 1..] == Reply(t);
    assert (lines + [Echo(cmd)] + Reply(t))[..|lines|] == lines;
  }

  // ---------------------------------------------------------------------------
  // The command history under the arrow keys.
  // ---------------------------------------------------------------------------

  /** ArrowUp with a non-empty history: from "not browsing" (-1) to the newest entry, else one older, stopping at 0. */
  function UpIndex(index: int, count: nat): (r: int)
    requires count > 0 && -1 <= index < count
    ensures 0 <= r < count
    ensures index == -1 ==> r == count - 1
    ensures index != -1 ==> r == if index == 0 then 0 else index - 1
  {
    if index == -1 then count - 1 else if index - 1 < 0 then 0 else index - 1
  }

  /** ArrowDown while browsing: one newer, or back to "not browsing" past the newest entry. */
  function DownIndex(index: nat, count: nat): (r: int)
    requires index < count
    ensures -1 <= r < count
    ensures r == -1 <==> index == count - 1
    ensures r != -1 ==> r == index + 1
  {
    if index + 1 >= count then -1 else index + 1
  }

  /** ArrowDown undoes ArrowUp, except at the oldest entry where ArrowUp stays put. */
  lemma DownUndoesUp(index: int, count: nat)
    requires count > 0 && -1 <= index < count && index != 0
    ensures DownIndex(UpIndex(index, count), count) == index
  {
  }

  function UpTimes(index: int, count: nat, k: nat): (r: int)
    requires count > 0 && -1 <= index < count
    ensures -1 <= r < count
    decreases k
  {
    if k == 0 then index else UpTimes(UpIndex(index, count), count, k - 1)
  }

  /** Pressing ArrowUp `k >= 1` times from the input line reaches the `k`-th newest entry, then stays at the oldest. */
  lemma {:induction false} UpTimesFromInput(count: nat, k: nat)
    requires count > 0 && k >= 1
    ensures UpTimes(-1, count, k) == if k >= count then 0 else count - k
  {
    UpTimesFromIndex(count - 1, count, k - 1);
  }

  lemma {:induction false} UpTimesFromIndex(index: nat, count: nat, k: nat)
    requires index < count
    ensures UpTimes(index, count, k) == if k >= index then 0 else index - k
  {
    if k > 0 {
      UpTimesFromIndex(UpIndex(index, count), count, k - 1);
    }
  }

  class InteractiveTerminal {
    var lines: seq<Line>
    var inputValue: string
    var commandHistory: seq<string>
    var historyIndex: int

    /** `historyIndex` is -1 (not browsing) or the index of a history entry. */
    ghost predicate Valid()
      reads this
    {
      -1 <= historyIndex < |commandHistory|
    }

    constructor ()
      ensures Valid()
      ensures lines == Banner && inputValue == "" && commandHistory == [] && historyIndex == -1
    {
      lines := Banner;
      inputValue := "";
      commandHistory := [];
      historyIndex := -1;
    }

    /** The input field's `onChange`. */
    method Edit(value: string)
      modifies this`inputValue
      ensures inputValue == value
    {
      inputValue := value;
    }

    /** `processCommand`: build the new screen line by line, or clear it. */
    method ProcessCommand(cmd: string)
      modifies this`lines
      ensures lines == Processed(old(lines), cmd)
    {
      var t := Normalize(cmd);
      var newLines := lines + [Echo(cmd)];
      if t == "clear" {
        lines := [];
        return;
      }
      if t == "" {
        lines := newLines;
        return;
      }
      var response := Lookup(t);
      if response.Some? {
        newLines := PushOutputs(newLines, response.value);
      } else {
        newLines := newLines + [Line(OutputLine, ErrorLine(t))];
      }
      assert newLines == old(lines) + [Echo(cmd)] + Outputs(Answer(t));
      lines := newLines + [Line(OutputLine, "")];
      assert lines == Respond(old(lines), cmd, t);
    }

    /**
     * Enter: a non-blank input joins the history (untrimmed) and ends any
     * browsing; the input is processed and the field cleared.
     */
    method Enter()
      requires Valid()
      modifies this
      ensures Valid()
      ensures Trim(old(inputValue)) != "" ==>
        commandHistory == old(commandHistory) + [old(inputValue)] && historyIndex == -1
      ensures Trim(old(inputValue)) == "" ==>
        commandHistory == old(commandHistory) && historyIndex == old(historyIndex)
      ensures lines == Processed(old(lines), old(inputValue)) && inputValue == ""
    {
      if Trim(inputValue) != "" {
        commandHistory := commandHistory + [inputValue];
        historyIndex := -1;
      }
      ProcessCommand(inputValue);
      inputValue := "";
    }

    /** ArrowUp: show an older entry; nothing happens with an empty history. */
    method ArrowUp()
      requires Valid()
      modifies this`historyIndex, this`inputValue
      ensures Valid()
      ensures old(commandHistory) == [] ==> historyIndex == old(historyIndex) && inputValue == old(inputValue)
      ensures old(commandHistory) != [] ==>
        historyIndex == UpIndex(old(historyIndex), |commandHistory|)
        && inputValue == commandHistory[historyIndex]
    {
      if |commandHistory| > 0 {
        var newIndex := UpIndex(historyIndex, |commandHistory|);
        historyIndex := newIndex;
        inputValue := commandHistory[newIndex];
      }
    }

    /** ArrowDown: show a newer entry, or leave the history with an empty input. */
    method ArrowDown()
      requires Valid()
      modifies this`historyIndex, this`inputValue
      ensures Valid()
      ensures old(historyIndex) == -1 ==> historyIndex == -1 && inputValue == old(inputValue)
      ensures old(historyIndex) != -1 ==>
        historyIndex == DownIndex(old(historyIndex), |commandHistory|)
        && inputValue == (if historyIndex == -1 then "" else commandHistory[historyIndex])
    {
      if historyIndex != -1 {
        var newIndex := historyIndex + 1;
        if newIndex >= |commandHistory| {
          historyIndex := -1;
          inputValue := "";
        } else {
          historyIndex := newIndex;
          inputValue := commandHistory[newIndex];
        }
      }
    }
  }
}
