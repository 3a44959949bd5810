/**
 * The deity document loader: a line-oriented markdown parser with a current section and a
 * hepatoscopy list selector, the fallback table of basic deity facts, and the cache in front of
 * the document fetch.
 */
module DeityLoader {
  import opened Wrappers
  import opened Text

  /** The structured content of one deity document. */
  datatype Deity = Deity(
    name: string,
    romanEquivalent: string,
    description: string,
    divinationMeaning: seq<string>,
    locationOnLiver: string,
    historicalContext: string,
    hepatoscopyFavorable: seq<string>,
    hepatoscopyUnfavorable: seq<string>,
    ritualAssociations: seq<string>,
    symbols: seq<string>,
    archaeologicalNotes: string)

  const EmptyDeity := Deity("", "", "", [], "", "", [], [], [], [], "")

  /** Which hepatoscopy list bullets go to, once one is selected. */
  datatype ListSelector = Favorable | Unfavorable

  /** The parser's state between lines: the deity so far, the current section and list. */
  datatype ParseState = ParseState(deity: Deity, section: string, list: Option<ListSelector>)

  const InitialState := ParseState(EmptyDeity, "", None)

  predicate IsHeading(line: string)
  {
    StartsWith(line, "# ") || StartsWith(line, "## ")
  }

  /** Prose accumulation: the pieces are separated by one space. */
  function AppendProse(text: string, line: string): string
  {
    text + (if text != "" then " " else "") + line
  }

  /** The name on a `# ` line: the text before the first `(`, trimmed. */
  function HeadingName(line: string): string
    requires StartsWith(line, "# ")
  {
    Trim(SplitOn(line[2..], '(')[0])
  }

  /** The characters the regular expression `.` does not match. */
  predicate IsLineTerminator(c: char)
  {
    c == '\n' || c == '\r' || c == '\U{2028}' || c == '\U{2029}'
  }

  /**
   * The capture of `/\((.*?)\)/`: from the leftmost `(` whose first following `)` is reached
   * without crossing a line terminator, the text up to that `)`.
   */
  function FirstParenthesised(line: string): Option<string>
    decreases |line|
  {
    var open := FirstIndex(line, '(');
    if open == |line| then None
    else
      var rest := line[open + 1..];
      var close := FirstIndex(rest, ')');
      if close < |rest| && (forall k :: 0 <= k < close ==> !IsLineTerminator(rest[k])) then
        Some(rest[..close])
      else
        FirstParenthesised(rest)
  }

  /** `match?.[1] || ''`. */
  function RomanOf(line: string): string
  {
    match FirstParenthesised(line)
    case Some(r) => r
    case None => ""
  }

  /** The effect of one line on the parser state; lines are trimmed first. */
  function Step(st: ParseState, raw: string): ParseState
  {
    LineStep(st, Trim(raw))
  }

  /** A `# ` line names the deity, a `## ` line opens a section, any other line goes to the section. */
  function LineStep(st: ParseState, line: string): ParseState
  {
    if StartsWith(line, "# ") then
      var named := st.deity.(name := HeadingName(line));
      st.(deity := if '(' in line then named.(romanEquivalent := RomanOf(line)) else named)
    else if StartsWith(line, "## ") then
      ParseState(st.deity, ToLower(line[3..]), None)
    else
      SectionLine(st, line)
  }

  /**
   * A body line in the current section. The section names are distinct, so a line that fails
   * its own section's test matches no later test of the chain and is ignored.
   */
  function SectionLine(st: ParseState, line: string): ParseState
  {
    var d := st.deity;
    if st.section == "description" then
      if line != "" && !StartsWith(line, "-") then st.(deity := d.(description := AppendProse(d.description, line))) else st
    else if st.section == "divination meaning" then
      if StartsWith(line, "- ") then st.(deity := d.(divinationMeaning := d.divinationMeaning + [line[2..]]))
      else if line != "" && !StartsWith(line, "-") then st.(deity := d.(divinationMeaning := d.divinationMeaning + [line]))
      else st
    else if st.section == "location on liver" then
      if line != "" && !StartsWith(line, "**") then st.(deity := d.(locationOnLiver := AppendProse(d.locationOnLiver, line))) else st
    else if st.section == "historical context" then
      if line != "" && !StartsWith(line, "-") then st.(deity := d.(historicalContext := AppendProse(d.historicalContext, line))) else st
    else if st.section == "hepatoscopy significance" then
      HepatoscopyLine(st, line)
    else if st.section == "ritual associations" then
      if StartsWith(line, "- ") then st.(deity := d.(ritualAssociations := d.ritualAssociations + [line[2..]])) else st
    else if st.section == "symbols and attributes" then
      if StartsWith(line, "- ") then st.(deity := d.(symbols := d.symbols + [line[2..]])) else st
    else if st.section == "archaeological notes" then
      if line != "" && !StartsWith(line, "-") then st.(deity := d.(archaeologicalNotes := AppendProse(d.archaeologicalNotes, line))) else st
    else st
  }

  predicate SelectsFavorable(line: string)
  {
    Contains(line, "favorable signs:") || Contains(line, "When this section of the liver showed favorable")
  }

  predicate SelectsUnfavorable(line: string)
  {
    Contains(line, "unfavorable:") || Contains(line, "When unfavorable:")
  }

  /** The hepatoscopy section: selector lines pick a list, bullets go to the selected one. */
  function HepatoscopyLine(st: ParseState, line: string): ParseState
  {
    var d := st.deity;
    if SelectsFavorable(line) then st.(list := Some(Favorable))
    else if SelectsUnfavorable(line) then st.(list := Some(Unfavorable))
    else if StartsWith(line, "- ") && st.list == Some(Favorable) then
      st.(deity := d.(hepatoscopyFavorable := d.hepatoscopyFavorable + [line[2..]]))
    else if StartsWith(line, "- ") && st.list == Some(Unfavorable) then
      st.(deity := d.(hepatoscopyUnfavorable := d.hepatoscopyUnfavorable + [line[2..]]))
    else st
  }

  /** The state after a run of lines, one step per line in order. */
  function Run(st: ParseState, lines: seq<string>): ParseState
  {
    if |lines| == 0 then st else Step(Run(st, lines[..|lines| - 1]), lines[|lines| - 1])
  }

  lemma RunPrefix(st: ParseState, lines: seq<string>, i: nat)
    requires i < |lines|
    ensures Run(st, lines[..i + 1]) == Step(Run(st, lines[..i]), lines[i])
  {
    assert lines[..i + 1][..i] == lines[..i];
  }

  /** The deity a markdown document describes. */
  function Parse(content: string): Deity
  {
    Run(InitialState, SplitOn(content, '\n')).deity
  }

  /** `parseDeityMarkdown`: one pass over the lines, updating the deity, section and list. */
  method ParseDeityMarkdown(content: string) returns (deity: Deity)
    ensures deity == Parse(content)
  {
    var lines := SplitOn(content, '\n');
    deity := EmptyDeity;
    var section := "";
    var list: Option<ListSelector> := None;
    var i := 0;
    while i < |lines|
      invariant 0 <= i <= |lines|
      invariant ParseState(deity, section, list) == Run(InitialState, lines[..i])
    {
      ghost var before := ParseState(deity, section, list);
      RunPrefix(InitialState, lines, i);
      var line := Trim(lines[i]);
      if StartsWith(line, "# ") {
        deity := deity.(name := HeadingName(line));
        if '(' in line {
          deity := deity.(romanEquivalent := RomanOf(line));
        }
      } else if StartsWith(line, "## ") {
        section := ToLower(line[3..]);
        list := None;
      } else {
        deity, list := ApplySectionLine(deity, section, list, line);
      }
      assert ParseState(deity, section, list) == LineStep(before, line);
      i := i + 1;
    }
    assert lines[..i] == lines;
  }

  /** Between `d0` and `d` only the fields that `section` collects may differ. */
  predicate OnlySectionFields(d0: Deity, d: Deity, section: string)
  {
    d.name == d0.name && d.romanEquivalent == d0.romanEquivalent
    && (section != "description" ==> d.description == d0.description)
    && (section != "divination meaning" ==> d.divinationMeaning == d0.divinationMeaning)
    && (section != "location on liver" ==> d.locationOnLiver == d0.locationOnLiver)
    && (section != "historical context" ==> d.historicalContext == d0.historicalContext)
    && (section != "hepatoscopy significance" ==>
          d.hepatoscopyFavorable == d0.hepatoscopyFavorable && d.hepatoscopyUnfavorable == d0.hepatoscopyUnfavorable)
    && (section != "ritual associations" ==> d.ritualAssociations == d0.ritualAssociations)
    && (section != "symbols and attributes" ==> d.symbols == d0.symbols)
    && (section != "archaeological notes" ==> d.archaeologicalNotes == d0.archaeologicalNotes)
  }

  /**
   * The section chain of `parseDeityMarkdown` for a line that is not a heading: only the
   * current section's fields change, only the hepatoscopy section moves the list selector,
   * blank lines are ignored everywhere, a `- ` bullet in a list section is appended without its
   * prefix, and a selector line picks its list.
   */
  method ApplySectionLine(deity0: Deity, section: string, list0: Option<ListSelector>, line: string)
    returns (deity: Deity, list: Option<ListSelector>)
    ensures OnlySectionFields(deity0, deity, section)
    ensures section != "hepatoscopy significance" ==> list == list0
    ensures line == "" ==> deity == deity0 && list == list0
    ensures StartsWith(line, "- ") && section == "divination meaning" ==>
      deity.divinationMeaning == deity0.divinationMeaning + [line[2..]]
    ensures StartsWith(line, "- ") && section == "ritual associations" ==>
      deity.ritualAssociations == deity0.ritualAssociations + [line[2..]]
    ensures StartsWith(line, "- ") && section == "symbols and attributes" ==>
      deity.symbols == deity0.symbols + [line[2..]]
    ensures section == "hepatoscopy significance" && SelectsFavorable(line) ==>
      deity == deity0 && list == Some(Favorable)
    ensures section == "hepatoscopy significance" && !SelectsFavorable(line) && SelectsUnfavorable(line) ==>
      deity == deity0 && list == Some(Unfavorable)
    ensures ParseState(deity, section, list) == SectionLine(ParseState(deity0, section, list0), line)
  {
    deity, list := deity0, list0;
    if section == "description" {
      if line != "" && !StartsWith(line, "-") {
        deity := deity.(description := AppendProse(deity.description, line));
      }
    } else if section == "divination meaning" {
      if StartsWith(line, "- ") {
        deity := deity.(divinationMeaning := deity.divinationMeaning + [line[2..]]);
      } else if line != "" && !StartsWith(line, "-") {
        deity := deity.(divinationMeaning := deity.divinationMeaning + [line]);
      }
    } else if section == "location on liver" {
      if line != "" && !StartsWith(line, "**") {
        deity := deity.(locationOnLiver := AppendProse(deity.locationOnLiver, line));
      }
    } else if section == "historical context" {
      if line != "" && !StartsWith(line, "-") {
        deity := deity.(historicalContext := AppendProse(deity.historicalContext, line));
      }
    } else if section == "hepatoscopy significance" {
      if SelectsFavorable(line) {
        list := Some(Favorable);
      } else if SelectsUnfavorable(line) {
        list := Some(Unfavorable);
      } else if StartsWith(line, "- ") && list == Some(Favorable) {
        deity := deity.(hepatoscopyFavorable := deity.hepatoscopyFavorable + [line[2..]]);
      } else if StartsWith(line, "- ") && list == Some(Unfavorable) {
        deity := deity.(hepatoscopyUnfavorable := deity.hepatoscopyUnfavorable + [line[2..]]);
      }
    } else if section == "ritual associations" {
      if StartsWith(line, "- ") {
        deity := deity.(ritualAssociations := deity.ritualAssociations + [line[2..]]);
      }
    } else if section == "symbols and attributes" {
      if StartsWith(line, "- ") {
        deity := deity.(symbols := deity.symbols + [line[2..]]);
      }
    } else if section == "archaeological notes" {
      if line != "" && !StartsWith(line, "-") {
        deity := deity.(archaeologicalNotes := AppendProse(deity.archaeologicalNotes, line));
      }
    }
  }

  // ---------------------------------------------------------------------------------------
  // What a run of lines does

  /** The two deity fields a `# ` line may set are the only ones that differ. */
  predicate SameBody(a: Deity, b: Deity)
  {
    a.(name := b.name, romanEquivalent := b.romanEquivalent) == b
  }

  /** Before the first `## ` line, only `# ` lines have an effect, and only on name and roman equivalent. */
  lemma {:induction false} PreambleOnlyNames(st: ParseState, lines: seq<string>)
    requires st.section == ""
    requires forall k :: 0 <= k < |lines| ==> !StartsWith(Trim(lines[k]), "## ")
    ensures Run(st, lines).section == "" && Run(st, lines).list == st.list
    ensures SameBody(Run(st, lines).deity, st.deity)
  {
    if |lines| > 0 {
      var init := lines[..|lines| - 1];
      PreambleOnlyNames(st, init);
    }
  }

  /** A `## ` line switches to its lower-cased heading text and clears the list selector. */
  lemma SectionHeading(st: ParseState, raw: string)
    requires StartsWith(Trim(raw), "## ")
    ensures Step(st, raw) == ParseState(st.deity, ToLower(Trim(raw)[3..]), None)
  {
    var line := Trim(raw);
    assert line[1] == '#';
    assert !StartsWith(line, "# ");
  }

  /** A heading written as `# name (roman)` gives back that name and roman equivalent. */
  lemma HeadingWithRoman(st: ParseState, name: string, roman: string)
    requires name != "" && Trim(name) == name && '(' !in name
    requires ')' !in roman && forall k :: 0 <= k < |roman| ==> !IsLineTerminator(roman[k])
    ensures Step(st, "# " + name + " (" + roman + ")") == st.(deity := st.deity.(name := name, romanEquivalent := roman))
  {
    var line := "# " + name + " (" + roman + ")";
    HeadingLineTrimmed(name, roman, line);
    HeadingNameOf(name, roman, line);
    RomanOfHeading(name, roman, line);
  }

  lemma HeadingLineTrimmed(name: string, roman: string, line: string)
    requires line == "# " + name + " (" + roman + ")"
    ensures Trim(line) == line && StartsWith(line, "# ") && '(' in line
  {
    StripUnchanged(line, IsJsSpace);
    assert line[|name| + 3] == '(';
  }

  lemma HeadingNameOf(name: string, roman: string, line: string)
    requires name != "" && Trim(name) == name && '(' !in name
    requires line == "# " + name + " (" + roman + ")"
    ensures StartsWith(line, "# ") && HeadingName(line) == name
  {
    assert line[2..] == (name + " ") + ['('] + (roman + ")");
    FirstIndexPast(name + " ", '(', roman + ")");
    assert SplitOn(line[2..], '(')[0] == name + " ";
    TrimDropsOneSpace(name);
  }

  lemma RomanOfHeading(name: string, roman: string, line: string)
    requires '(' !in name
    requires ')' !in roman && forall k :: 0 <= k < |roman| ==> !IsLineTerminator(roman[k])
    requires line == "# " + name + " (" + roman + ")"
    ensures RomanOf(line) == roman
  {
    var rest := roman + [')'] + "";
    assert FirstIndex(line, '(') == |name| + 3 by {
      assert line == ("# " + name + " ") + ['('] + (roman + ")");
      FirstIndexPast("# " + name + " ", '(', roman + ")");
    }
    assert line[|name| + 4..] == rest;
    assert FirstIndex(rest, ')') == |roman| by {
      FirstIndexPast(roman, ')', "");
    }
    assert rest[..|roman|] == roman;
  }

  /** A heading without `(` sets the name and keeps the roman equivalent. */
  lemma HeadingWithoutRoman(st: ParseState, name: string)
    requires name != "" && Trim(name) == name && '(' !in name
    ensures Step(st, "# " + name) == st.(deity := st.deity.(name := name))
  {
    var line := "# " + name;
    BareHeadingTrimmed(name, line);
    BareHeadingName(name, line);
  }

  lemma BareHeadingTrimmed(name: string, line: string)
    requires name != "" && Trim(name) == name && '(' !in name
    requires line == "# " + name
    ensures Trim(line) == line && StartsWith(line, "# ") && '(' !in line
  {
    StripUnchanged(line, IsJsSpace);
    forall k | 0 <= k < |line|
      ensures line[k] != '('
    {
      if k >= 2 {
        assert line[k] == name[k - 2];
      }
    }
  }

  lemma BareHeadingName(name: string, line: string)
    requires Trim(name) == name && '(' !in name
    requires line == "# " + name
    ensures StartsWith(line, "# ") && HeadingName(line) == name
  {
    assert line[2..] == name;
    assert SplitOn(name, '(') == [name];
  }

  lemma TrimDropsOneSpace(s: string)
    requires s != "" && Trim(s) == s
    ensures Trim(s + " ") == s
  {
    var t := s + " ";
    assert !IsJsSpace(s[0]) && !IsJsSpace(s[|s| - 1]);
    assert Lead(t, IsJsSpace) == 0;
    assert t[..|t| - 1] == s;
    assert Trail(s, IsJsSpace) == 0;
    assert Trail(t, IsJsSpace) == 1;
  }

  // Prose sections

  predicate IsProseSection(section: string)
  {
    section == "description" || section == "location on liver"
    || section == "historical context" || section == "archaeological notes"
  }

  function ProseField(d: Deity, section: string): string
    requires IsProseSection(section)
  {
    if section == "description" then d.description
    else if section == "location on liver" then d.locationOnLiver
    else if section == "historical context" then d.historicalContext
    else d.archaeologicalNotes
  }

  /** The lines a prose section keeps: non-empty, and not starting with `**` (location) or `-` (the rest). */
  predicate KeepsProse(section: string, line: string)
  {
    line != "" && if section == "location on liver" then !StartsWith(line, "**") else !StartsWith(line, "-")
  }

  /** The trimmed lines a prose section keeps, in order. */
  function Kept(section: string, lines: seq<string>): (r: seq<string>)
    ensures forall k :: 0 <= k < |r| ==> r[k] != ""
  {
    if |lines| == 0 then []
    else
      var line := Trim(lines[|lines| - 1]);
      Kept(section, lines[..|lines| - 1]) + (if KeepsProse(section, line) then [line] else [])
  }

  lemma ProseStep(st: ParseState, raw: string)
    requires IsProseSection(st.section) && !IsHeading(Trim(raw))
    ensures Step(st, raw).section == st.section && Step(st, raw).list == st.list
    ensures ProseField(Step(st, raw).deity, st.section)
         == if KeepsProse(st.section, Trim(raw)) then AppendProse(ProseField(st.deity, st.section), Trim(raw))
            else ProseField(st.deity, st.section)
  {
  }

  lemma AppendProseJoins(parts: seq<string>, line: string)
    requires forall k :: 0 <= k < |parts| ==> parts[k] != ""
    ensures AppendProse(Join(parts, ' '), line) == Join(parts + [line], ' ')
  {
    if |parts| > 0 {
      JoinSnoc(parts, line, ' ');
      assert Join(parts, ' ')[..|parts[0]|] == parts[0] by {
        if |parts| > 1 {
          assert Join(parts, ' ') == parts[0] + [' '] + Join(parts[1..], ' ');
        }
      }
    } else {
      assert [] + [line] == [line];
    }
  }

  /**
   * Inside a prose section that starts empty, the text is the kept lines joined by single
   * spaces, however many lines follow, as long as no heading comes.
   */
  lemma {:induction false} ProseRun(st: ParseState, lines: seq<string>)
    requires IsProseSection(st.section) && ProseField(st.deity, st.section) == ""
    requires forall k :: 0 <= k < |lines| ==> !IsHeading(Trim(lines[k]))
    ensures Run(st, lines).section == st.section && Run(st, lines).list == st.list
    ensures ProseField(Run(st, lines).deity, st.section) == Join(Kept(st.section, lines), ' ')
  {
    if |lines| > 0 {
      var init := lines[..|lines| - 1];
      var last := lines[|lines| - 1];
      ProseRun(st, init);
      var before := Run(st, init);
      ProseStep(before, last);
      AppendProseJoins(Kept(st.section, init), Trim(last));
      assert Run(st, lines) == Step(before, last);
      if KeepsProse(st.section, Trim(last)) {
        assert Kept(st.section, lines) == Kept(st.section, init) + [Trim(last)];
      } else {
        assert Kept(st.section, lines) == Kept(st.section, init) + [];
        assert Kept(st.section, init) + [] == Kept(st.section, init);
      }
    }
  }

  // List sections

  predicate IsListSection(section: string)
  {
    section == "divination meaning" || section == "ritual associations" || section == "symbols and attributes"
  }

  function ListField(d: Deity, section: string): seq<string>
    requires IsListSection(section)
  {
    if section == "divination meaning" then d.divinationMeaning
    else if section == "ritual associations" then d.ritualAssociations
    else d.symbols
  }

  /**
   * What a line adds to a list section: a `- ` bullet without its prefix; in the divination
   * section also any other non-empty line not starting with `-`, verbatim.
   */
  function ListItem(section: string, line: string): Option<string>
  {
    if StartsWith(line, "- ") then Some(line[2..])
    else if section == "divination meaning" && line != "" && !StartsWith(line, "-") then Some(line)
    else None
  }

  function Items(section: string, lines: seq<string>): seq<string>
  {
    if |lines| == 0 then []
    else
      var item := ListItem(section, Trim(lines[|lines| - 1]));
      Items(section, lines[..|lines| - 1]) + (if item.Some? then [item.value] else [])
  }

  /** Ritual and symbols items are exactly the bullets, prefix stripped. */
  lemma BulletOnlySections(section: string, line: string)
    requires section == "ritual associations" || section == "symbols and attributes"
    ensures ListItem(section, line).Some? <==> StartsWith(line, "- ")
    ensures ListItem(section, line).Some? ==> "- " + ListItem(section, line).value == line
  {
  }

  lemma ListStep(st: ParseState, raw: string)
    requires IsListSection(st.section) && !IsHeading(Trim(raw))
    ensures Step(st, raw).section == st.section && Step(st, raw).list == st.list
    ensures ListField(Step(st, raw).deity, st.section)
         == ListField(st.deity, st.section) + (var item := ListItem(st.section, Trim(raw)); if item.Some? then [item.value] else [])
  {
  }

  /** Inside a list section, each line adds its item, in order, until a heading comes. */
  lemma {:induction false} ListRun(st: ParseState, lines: seq<string>)
    requires IsListSection(st.section)
    requires forall k :: 0 <= k < |lines| ==> !IsHeading(Trim(lines[k]))
    ensures Run(st, lines).section == st.section && Run(st, lines).list == st.list
    ensures ListField(Run(st, lines).deity, st.section) == ListField(st.deity, st.section) + Items(st.section, lines)
  {
    if |lines| > 0 {
      var init := lines[..|lines| - 1];
      ListRun(st, init);
      ListStep(Run(st, init), lines[|lines| - 1]);
    }
  }

  // Hepatoscopy

  /** A line holding `favorable signs:` selects the favorable list, even when it says `unfavorable signs:`. */
  lemma FavorableSignsWin(st: ParseState, raw: string)
    requires st.section == "hepatoscopy significance" && !IsHeading(Trim(raw))
    requires Contains(Trim(raw), "favorable signs:")
    ensures Step(st, raw) == st.(list := Some(Favorable))
  {
  }

  /** So a line saying `unfavorable signs:` selects the favorable list. */
  lemma UnfavorableSignsSelectFavorable(st: ParseState, raw: string)
    requires st.section == "hepatoscopy significance" && !IsHeading(Trim(raw))
    requires Contains(Trim(raw), "unfavorable signs:")
    ensures Step(st, raw).list == Some(Favorable)
  {
    ContainsTail(Trim(raw), "unfavorable signs:", 2);
    assert "unfavorable signs:"[2..] == "favorable signs:";
    FavorableSignsWin(st, raw);
  }

  /** Without `favorable signs:` and with `unfavorable:`, the unfavorable list is selected. */
  lemma UnfavorableSelected(st: ParseState, raw: string)
    requires st.section == "hepatoscopy significance" && !IsHeading(Trim(raw))
    requires !Contains(Trim(raw), "favorable signs:") && !Contains(Trim(raw), "When this section of the liver showed favorable")
    requires Contains(Trim(raw), "unfavorable:")
    ensures Step(st, raw) == st.(list := Some(Unfavorable))
  {
  }

  /** A bullet that is not a selector line goes to the selected list, and is dropped when none is. */
  lemma HepatoscopyBullet(st: ParseState, raw: string)
    requires st.section == "hepatoscopy significance" && !IsHeading(Trim(raw))
    requires StartsWith(Trim(raw), "- ")
    requires !Contains(Trim(raw), "favorable signs:") && !Contains(Trim(raw), "When this section of the liver showed favorable")
    requires !Contains(Trim(raw), "unfavorable:") && !Contains(Trim(raw), "When unfavorable:")
    ensures st.list == None ==> Step(st, raw) == st
    ensures st.list == Some(Favorable) ==> Step(st, raw).deity.hepatoscopyFavorable == st.deity.hepatoscopyFavorable + [Trim(raw)[2..]]
    ensures st.list == Some(Unfavorable) ==> Step(st, raw).deity.hepatoscopyUnfavorable == st.deity.hepatoscopyUnfavorable + [Trim(raw)[2..]]
    ensures Step(st, raw).list == st.list
  {
  }

  // ---------------------------------------------------------------------------------------
  // Fallback facts

  datatype BasicInfo = BasicInfo(description: string, romanEquivalent: string)

  const BasicTable: map<string, BasicInfo> := map[
    "TIN" := BasicInfo("Tinia - Sky god, equivalent to Jupiter", "Jupiter"),
    "UNI" := BasicInfo("Uni - Queen goddess, equivalent to Juno", "Juno"),
    "MENRVA" := BasicInfo("Menrva - Wisdom goddess, equivalent to Minerva", "Minerva"),
    "FUFLUNS" := BasicInfo("Fufluns - Wine god, equivalent to Bacchus", "Bacchus"),
    "SETHLANS" := BasicInfo("Sethlans - Fire god, equivalent to Vulcan", "Vulcan"),
    "TURAN" := BasicInfo("Turan - Love goddess, equivalent to Venus", "Venus"),
    "LARAN" := BasicInfo("Laran - War god, equivalent to Mars", "Mars"),
    "NETHUNS" := BasicInfo("Nethuns - Sea god, equivalent to Neptune", "Neptune")
  ]

  /** `getBasicDeityInfo`: the table entry, or a generic description with `Unknown`. */
  function BasicDeityInfo(name: string): BasicInfo
  {
    if name in BasicTable then BasicTable[name] else BasicInfo(name + " - Etruscan deity", "Unknown")
  }

  /**
   * The roman equivalent is `Unknown` exactly for names outside the table, and the generic
   * description starts with the name.
   */
  lemma BasicInfoCases(name: string)
    ensures BasicDeityInfo(name).romanEquivalent == "Unknown" <==> name !in BasicTable
    ensures name !in BasicTable ==> StartsWith(BasicDeityInfo(name).description, name)
  {
    var r := BasicDeityInfo(name);
    if name !in BasicTable {
      assert r.description[..|name|] == name;
    }
  }

  // ---------------------------------------------------------------------------------------
  // Cached loading

  /** What fetching a document gave: a network failure, or a response with its status and body. */
  datatype FetchOutcome = NetworkError | Response(ok: bool, body: Option<string>)

  predicate IsYamlFile(docFile: string)
  {
    EndsWith(docFile, ".yaml") || EndsWith(docFile, ".yml")
  }

  /** The cache of parsed documents; a YAML document that failed to parse is cached as `None`. */
  class DeityCache {
    var cache: map<string, Option<Deity>>

    predicate Valid()
      reads this
    {
      "" !in cache
    }

    constructor()
      ensures Valid() && cache == map[]
    {
      cache := map[];
    }

    /**
     * `loadDeityContent`: a cached entry is returned without a request; an empty name gives
     * `None`; otherwise `/docs/deities/<docFile>` is requested, and a successful response is
     * parsed (YAML by `parseYaml`, markdown by `ParseDeityMarkdown`) and cached. A failure
     * gives `None` and is not cached.
     */
    method Load(docFile: string, fetch: FetchOutcome, parseYaml: string -> Option<Deity>)
      returns (r: Option<Deity>, request: Option<string>)
      requires Valid()
      modifies this
      ensures Valid()
      ensures docFile in old(cache) ==> r == old(cache)[docFile] && request == None && cache == old(cache)
      ensures docFile == "" ==> r == None && request == None && cache == old(cache)
      ensures docFile !in old(cache) && docFile != "" ==> request == Some("/docs/deities/" + docFile)
      ensures docFile !in old(cache) && docFile != "" && fetch.Response? && fetch.ok && fetch.body.Some? ==>
        r == (if IsYamlFile(docFile) then parseYaml(fetch.body.value) else Some(Parse(fetch.body.value)))
        && cache == old(cache)[docFile := r]
      ensures docFile !in old(cache) && !(fetch.Response? && fetch.ok && fetch.body.Some?) ==>
        r == None && cache == old(cache)
    {
      if docFile in cache {
        return cache[docFile], None;
      }
      if docFile == "" {
        return None, None;
      }
      request := Some("/docs/deities/" + docFile);
      if fetch.Response? && fetch.ok && fetch.body.Some? {
        var content := fetch.body.value;
        if IsYamlFile(docFile) {
          r := parseYaml(content);
        } else {
          var deity := ParseDeityMarkdown(content);
          r := Some(deity);
        }
        cache := cache[docFile := r];
      } else {
        r := None;
      }
    }
  }
}
