/**
 * Properties of the whole information panel that build_info_lines returns: where its fixed
 * lines sit, which section headers it shows, and that every line of the box is seen exactly
 * as wide as the box when each entry fits.
 */
module Panel {
  import opened Wrappers
  import opened Text
  import opened Layout
  import Uptime

  // ---------------------------------------------------------------------------------------
  // The frame of the panel

  function Count(b: bool): nat
  {
    if b then 1 else 0
  }

  lemma SectionLength(title: string, entries: seq<string>)
    ensures |Section(title, entries)| == if |entries| == 0 then 0 else |entries| + 2
  {
  }

  /** One line per given value: host, kernel, uptime (from the birthday) and location. */
  lemma BasicCount(c: Config, age: Age)
    ensures |BasicLines(c, age)|
      == Count(c.host != "") + Count(c.kernel != "") + Count(c.birthday != "") + Count(c.location != "")
  {
  }

  lemma LanguageCount(l: Languages)
    ensures |LanguageLines(l)| == Count(l.code != "") + Count(l.markup != "") + Count(l.human != "")
  {
  }

  lemma StackCount(s: Stack)
    ensures |StackLines(s)|
      == Count(s.backend != "") + Count(s.frontend != "") + Count(s.database != "") + Count(s.infra != "")
  {
  }

  lemma ContactCount(c: Contacts)
    ensures |ContactLines(c)| == Count(Given(c.website)) + Count(Given(c.email)) + Count(Given(c.linkedin))
  {
  }

  /**
   * The panel has six fixed lines, the seven stats lines and the optional blocks: between 13
   * lines (nothing optional given) and 33 lines (everything given).
   */
  lemma InfoLinesLength(c: Config, s: Stats, age: Age, oneDecimal: (int, int) -> string)
    ensures var lines := InfoLines(c, s, age, oneDecimal);
      && |lines| == 13 + |BasicLines(c, age)| + |Section("Languages", LanguageLines(c.languages))|
         + |Section("Stack", StackLines(c.stack))| + |Section("Contact", ContactLines(c.contact))|
      && 13 <= |lines| <= 33
  {
    InfoLinesSum(c, s, age, oneDecimal);
    BasicCount(c, age);
    LanguageCount(c.languages);
    StackCount(c.stack);
    ContactCount(c.contact);
    SectionLength("Languages", LanguageLines(c.languages));
    SectionLength("Stack", StackLines(c.stack));
    SectionLength("Contact", ContactLines(c.contact));
  }

  lemma InfoLinesSum(c: Config, s: Stats, age: Age, oneDecimal: (int, int) -> string)
    ensures |InfoLines(c, s, age, oneDecimal)| == 13 + |BasicLines(c, age)| + |Section("Languages", LanguageLines(c.languages))|
      + |Section("Stack", StackLines(c.stack))| + |Section("Contact", ContactLines(c.contact))|
  {
    PanelShape(InfoLines(c, s, age, oneDecimal), "$ " + c.header, TopBorder(), MakeEmpty(), BasicLines(c, age),
      MakeEmpty(), Section("Languages", LanguageLines(c.languages)), Section("Stack", StackLines(c.stack)),
      Section("Contact", ContactLines(c.contact)), StatsLines(s, oneDecimal), MakeEmpty(), BottomBorder());
  }

  /** The prompt line, the top border and a blank open the panel; a blank and the bottom border close it. */
  lemma InfoLinesFrame(c: Config, s: Stats, age: Age, oneDecimal: (int, int) -> string)
    ensures var lines := InfoLines(c, s, age, oneDecimal);
      && |lines| >= 5
      && lines[0] == "$ " + c.header
      && lines[1] == TopBorder()
      && lines[2] == MakeEmpty()
      && lines[|lines| - 2] == MakeEmpty()
      && lines[|lines| - 1] == BottomBorder()
  {
    PanelShape(InfoLines(c, s, age, oneDecimal), "$ " + c.header, TopBorder(), MakeEmpty(), BasicLines(c, age),
      MakeEmpty(), Section("Languages", LanguageLines(c.languages)), Section("Stack", StackLines(c.stack)),
      Section("Contact", ContactLines(c.contact)), StatsLines(s, oneDecimal), MakeEmpty(), BottomBorder());
  }

  /** Positions in a sequence put together the way build_info_lines puts the panel together. */
  lemma PanelShape<T>(x: seq<T>, h: T, t: T, e1: T, b: seq<T>, e2: T, l: seq<T>, s: seq<T>, c: seq<T>,
                      st: seq<T>, e3: T, bo: T)
    requires x == [h] + [t] + [e1] + b + [e2] + l + s + c + st + [e3] + [bo]
    ensures |x| == 6 + |b| + |l| + |s| + |c| + |st|
    ensures x[0] == h && x[1] == t && x[2] == e1 && x[|x| - 2] == e3 && x[|x| - 1] == bo
  {
  }

  /** The "GitHub Stats" section is always there, as the last seven lines before the closing blank and border. */
  lemma StatsAlways(c: Config, s: Stats, age: Age, oneDecimal: (int, int) -> string)
    ensures var lines := InfoLines(c, s, age, oneDecimal);
      |lines| >= 9 && lines[|lines| - 9..|lines| - 2] == StatsLines(s, oneDecimal)
  {
    var before := ["$ " + c.header] + [TopBorder()] + [MakeEmpty()] + BasicLines(c, age) + [MakeEmpty()]
      + Section("Languages", LanguageLines(c.languages)) + Section("Stack", StackLines(c.stack))
      + Section("Contact", ContactLines(c.contact));
    SevenBeforeTwo(InfoLines(c, s, age, oneDecimal), before, StatsLines(s, oneDecimal), MakeEmpty(), BottomBorder());
  }

  lemma SevenBeforeTwo<T>(lines: seq<T>, p: seq<T>, q: seq<T>, y: T, z: T)
    requires lines == p + q + [y] + [z] && |q| == 7
    ensures |lines| >= 9 && lines[|lines| - 9..|lines| - 2] == q
  {
    assert lines == (p + q) + [y, z];
    assert (p + q)[|p|..] == q;
  }

  // ---------------------------------------------------------------------------------------
  // Section headers

  /**
   * The first letter of a section header's title: a line that starts with a space and has
   * the section rule at index 2, as make_section's "  ── title" does and no other line of the
   * panel does.
   */
  function HeaderLetter(line: string): Option<char>
  {
    if |line| > 5 && line[0] == ' ' && line[2] == Rule then Some(line[5]) else None
  }

  /** The header letter of one line, as a set: empty for a line that is not a section header. */
  function LetterSet(line: string): set<char>
  {
    match HeaderLetter(line)
    case Some(ch) => {ch}
    case None => {}
  }

  /** The first letters of the titles of the section headers among the lines. */
  function Letters(lines: seq<string>): (r: set<char>)
    ensures forall x :: x in lines ==> LetterSet(x) <= r
    decreases |lines|
  {
    if |lines| == 0 then {}
    else
      var init := lines[..|lines| - 1];
      assert forall x :: x in lines ==> x in init || x == lines[|lines| - 1];
      Letters(init) + LetterSet(lines[|lines| - 1])
  }

  lemma {:induction false} LettersAppend(a: seq<string>, b: seq<string>)
    ensures Letters(a + b) == Letters(a) + Letters(b)
    decreases |b|
  {
    if |b| == 0 {
      assert a + b == a;
    } else {
      assert (a + b)[..|a + b| - 1] == a + b[..|b| - 1];
      LettersAppend(a, b[..|b| - 1]);
    }
  }

  /** Lines none of which is a header with a letter outside bound have no letters outside bound. */
  lemma {:induction false} LettersWithin(lines: seq<string>, bound: set<char>)
    requires forall x :: x in lines ==> LetterSet(x) <= bound
    ensures Letters(lines) <= bound
    decreases |lines|
  {
    if |lines| > 0 {
      LettersWithin(lines[..|lines| - 1], bound);
    }
  }

  lemma LettersOne(x: string)
    ensures Letters([x]) == LetterSet(x)
  {
    assert [x][..0] == [];
  }

  lemma SectionLetter(title: string)
    requires |title| > 0
    ensures HeaderLetter(MakeSection(title)) == Some(title[0])
  {
    var r := MakeSection(title);
    assert r[..5][0] == ' ' && r[..5][2] == Rule;
    assert r[5..5 + |title|][0] == title[0];
  }

  lemma LineLetter(key: string, value: string, isLink: bool)
    requires |key| > 0 && key[0] != Rule
    ensures HeaderLetter(MakeLine(key, value, isLink)) == None
  {
    var r := MakeLine(key, value, isLink);
    assert r[..|key| + 4][2] == key[0];
  }

  lemma OptionalLineLetters(b: bool, key: string, value: string, isLink: bool)
    requires |key| > 0 && key[0] != Rule
    ensures Letters(Optional(b, MakeLine(key, value, isLink))) == {}
  {
    LineLetter(key, value, isLink);
    LettersOne(MakeLine(key, value, isLink));
  }

  lemma EmptyLetters()
    ensures Letters([MakeEmpty()]) == {}
  {
    assert MakeEmpty()[2] == ' ';
    LettersOne(MakeEmpty());
  }

  lemma SectionLetters(title: string, entries: seq<string>)
    requires |title| > 0 && Letters(entries) == {}
    ensures Letters(Section(title, entries)) == if |entries| == 0 then {} else {title[0]}
  {
    if |entries| > 0 {
      SectionLetter(title);
      LettersOne(MakeSection(title));
      LettersAppend([MakeSection(title)], entries);
      LettersAppend([MakeSection(title)] + entries, [MakeEmpty()]);
      EmptyLetters();
    }
  }

  lemma BasicLetters(c: Config, age: Age)
    ensures Letters(BasicLines(c, age)) == {}
  {
    var host := Optional(c.host != "", MakeLine("Host", c.host, false));
    var kernel := Optional(c.kernel != "", MakeLine("Kernel", c.kernel, false));
    var uptime := Optional(c.birthday != "",
      MakeLine("Uptime", Uptime.UptimeText(age.years, age.months, age.days), false));
    var location := Optional(c.location != "", MakeLine("Location", c.location, false));
    OptionalLineLetters(c.host != "", "Host", c.host, false);
    OptionalLineLetters(c.kernel != "", "Kernel", c.kernel, false);
    OptionalLineLetters(c.birthday != "", "Uptime", Uptime.UptimeText(age.years, age.months, age.days), false);
    OptionalLineLetters(c.location != "", "Location", c.location, false);
    LettersAppend(host, kernel);
    LettersAppend(host + kernel, uptime);
    LettersAppend(host + kernel + uptime, location);
  }

  lemma LanguageLetters(l: Languages)
    ensures Letters(LanguageLines(l)) == {}
  {
    var code := Optional(l.code != "", MakeLine("Languages.Code", l.code, false));
    var markup := Optional(l.markup != "", MakeLine("Languages.Markup", l.markup, false));
    var human := Optional(l.human != "", MakeLine("Languages.Human", l.human, false));
    OptionalLineLetters(l.code != "", "Languages.Code", l.code, false);
    OptionalLineLetters(l.markup != "", "Languages.Markup", l.markup, false);
    OptionalLineLetters(l.human != "", "Languages.Human", l.human, false);
    LettersAppend(code, markup);
    LettersAppend(code + markup, human);
  }

  lemma StackLetters(s: Stack)
    ensures Letters(StackLines(s)) == {}
  {
    var backend := Optional(s.backend != "", MakeLine("Backend", s.backend, false));
    var frontend := Optional(s.frontend != "", MakeLine("Frontend", s.frontend, false));
    var database := Optional(s.database != "", MakeLine("Database", s.database, false));
    var infra := Optional(s.infra != "", MakeLine("Infra", s.infra, false));
    OptionalLineLetters(s.backend != "", "Backend", s.backend, false);
    OptionalLineLetters(s.frontend != "", "Frontend", s.frontend, false);
    OptionalLineLetters(s.database != "", "Database", s.database, false);
    OptionalLineLetters(s.infra != "", "Infra", s.infra, false);
    LettersAppend(backend, frontend);
    LettersAppend(backend + frontend, database);
    LettersAppend(backend + frontend + database, infra);
  }

  lemma ContactLetters(c: Contacts)
    ensures Letters(ContactLines(c)) == {}
  {
    var website := Optional(Given(c.website),
      MakeLine("Website", LinkMarkup(c.website.url, c.website.caption), true));
    var email := Optional(Given(c.email), MakeLine("Email", LinkMarkup(c.email.url, c.email.caption), true));
    var linkedin := Optional(Given(c.linkedin),
      MakeLine("LinkedIn", LinkMarkup(c.linkedin.url, c.linkedin.caption), true));
    OptionalLineLetters(Given(c.website), "Website", LinkMarkup(c.website.url, c.website.caption), true);
    OptionalLineLetters(Given(c.email), "Email", LinkMarkup(c.email.url, c.email.caption), true);
    OptionalLineLetters(Given(c.linkedin), "LinkedIn", LinkMarkup(c.linkedin.url, c.linkedin.caption), true);
    LettersAppend(website, email);
    LettersAppend(website + email, linkedin);
  }

  lemma StatsLetters(s: Stats, oneDecimal: (int, int) -> string)
    ensures Letters(StatsLines(s, oneDecimal)) == {'G'}
  {
    SectionLetter("GitHub Stats");
    LineLetter("Repos", Decimal.DecimalString(s.repos), false);
    LineLetter("Commits", FormatNumber(s.commits, oneDecimal), false);
    LineLetter("PRs", FormatNumber(s.prs, oneDecimal), false);
    LineLetter("Stars", FormatNumber(s.stars, oneDecimal), false);
    LineLetter("Followers", Decimal.DecimalString(s.followers), false);
    LineLetter("Lines of Code", LocValue(s, oneDecimal), false);
    LettersOfSeven(MakeSection("GitHub Stats"), MakeLine("Repos", Decimal.DecimalString(s.repos), false),
      MakeLine("Commits", FormatNumber(s.commits, oneDecimal), false),
      MakeLine("PRs", FormatNumber(s.prs, oneDecimal), false),
      MakeLine("Stars", FormatNumber(s.stars, oneDecimal), false),
      MakeLine("Followers", Decimal.DecimalString(s.followers), false),
      MakeLine("Lines of Code", LocValue(s, oneDecimal), false), 'G');
  }

  lemma LettersOfSeven(a: string, b: string, c: string, d: string, e: string, f: string, g: string, ch: char)
    requires HeaderLetter(a) == Some(ch)
    requires HeaderLetter(b) == None && HeaderLetter(c) == None && HeaderLetter(d) == None
    requires HeaderLetter(e) == None && HeaderLetter(f) == None && HeaderLetter(g) == None
    ensures Letters([a, b, c, d, e, f, g]) == {ch}
  {
    var lines := [a, b, c, d, e, f, g];
    assert a in lines;
    LettersWithin(lines, {ch});
  }

  ghost predicate LanguagesGiven(l: Languages)
  {
    l.code != "" || l.markup != "" || l.human != ""
  }

  ghost predicate StackGiven(s: Stack)
  {
    s.backend != "" || s.frontend != "" || s.database != "" || s.infra != ""
  }

  ghost predicate ContactGiven(c: Contacts)
  {
    Given(c.website) || Given(c.email) || Given(c.linkedin)
  }

  function Flag(b: bool, ch: char): set<char>
  {
    if b then {ch} else {}
  }

  /**
   * The panel's section headers: "Languages" when some language is given, "Stack" when some
   * stack value is, "Contact" when some contact has both url and label, and always
   * "GitHub Stats".
   */
  lemma InfoLetters(c: Config, s: Stats, age: Age, oneDecimal: (int, int) -> string)
    ensures Letters(InfoLines(c, s, age, oneDecimal))
      == Flag(LanguagesGiven(c.languages), 'L') + Flag(StackGiven(c.stack), 'S')
       + Flag(ContactGiven(c.contact), 'C') + {'G'}
  {
    assert HeaderLetter("$ " + c.header) == None by {
      assert ("$ " + c.header)[0] == '$';
    }
    assert HeaderLetter(TopBorder()) == None by {
      assert TopBorder()[0] == TopLeft;
    }
    assert HeaderLetter(BottomBorder()) == None by {
      assert BottomBorder()[0] == BottomLeft;
    }
    assert HeaderLetter(MakeEmpty()) == None by {
      assert MakeEmpty()[2] == ' ';
    }
    BasicLetters(c, age);
    LanguageLetters(c.languages);
    LanguageCount(c.languages);
    SectionLetters("Languages", LanguageLines(c.languages));
    StackLetters(c.stack);
    StackCount(c.stack);
    SectionLetters("Stack", StackLines(c.stack));
    ContactLetters(c.contact);
    ContactCount(c.contact);
    SectionLetters("Contact", ContactLines(c.contact));
    StatsLetters(s, oneDecimal);
    PanelLetters("$ " + c.header, TopBorder(), MakeEmpty(), BasicLines(c, age), MakeEmpty(),
      Section("Languages", LanguageLines(c.languages)), Section("Stack", StackLines(c.stack)),
      Section("Contact", ContactLines(c.contact)), StatsLines(s, oneDecimal), MakeEmpty(), BottomBorder());
  }

  /** The section letters of a panel put together the way build_info_lines does it. */
  lemma PanelLetters(h: string, t: string, e1: string, b: seq<string>, e2: string, l: seq<string>,
                     s: seq<string>, c: seq<string>, st: seq<string>, e3: string, bo: string)
    requires HeaderLetter(h) == None && HeaderLetter(t) == None && HeaderLetter(e1) == None
    requires HeaderLetter(e2) == None && HeaderLetter(e3) == None && HeaderLetter(bo) == None
    requires Letters(b) == {}
    ensures Letters([h] + [t] + [e1] + b + [e2] + l + s + c + st + [e3] + [bo])
      == Letters(l) + Letters(s) + Letters(c) + Letters(st)
  {
    var q := [h] + [t] + [e1] + b + [e2];
    PrefixLetters(h, t, e1, b, e2);
    LettersAppend(q, l);
    LettersAppend(q + l, s);
    LettersAppend(q + l + s, c);
    LettersAppend(q + l + s + c, st);
    SuffixLetters(q + l + s + c + st, e3, bo);
  }

  lemma PrefixLetters(h: string, t: string, e1: string, b: seq<string>, e2: string)
    requires HeaderLetter(h) == None && HeaderLetter(t) == None && HeaderLetter(e1) == None
    requires HeaderLetter(e2) == None && Letters(b) == {}
    ensures Letters([h] + [t] + [e1] + b + [e2]) == {}
  {
    var p := [h] + [t] + [e1];
    LettersWithin(p, {});
    LettersAppend(p, b);
    LettersOne(e2);
    LettersAppend(p + b, [e2]);
  }

  lemma SuffixLetters(p: seq<string>, e3: string, bo: string)
    requires HeaderLetter(e3) == None && HeaderLetter(bo) == None
    ensures Letters(p + [e3] + [bo]) == Letters(p)
  {
    LettersOne(e3);
    LettersAppend(p, [e3]);
    LettersOne(bo);
    LettersAppend(p + [e3], [bo]);
  }

  /** The lines of the three optional sections are lines of the panel. */
  lemma PanelMembers<T>(h: T, t: T, e1: T, b: seq<T>, e2: T, l: seq<T>, s: seq<T>, c: seq<T>, st: seq<T>,
                        e3: T, bo: T)
    ensures var x := [h] + [t] + [e1] + b + [e2] + l + s + c + st + [e3] + [bo];
      && (forall y :: y in l ==> y in x)
      && (forall y :: y in s ==> y in x)
      && (forall y :: y in c ==> y in x)
  {
  }

  lemma HeaderInSection(title: string, entries: seq<string>)
    requires |entries| > 0
    ensures MakeSection(title) in Section(title, entries)
  {
    assert Section(title, entries)[0] == MakeSection(title);
  }

  lemma FlagsIn(letters: set<char>, l: bool, s: bool, c: bool)
    requires letters == Flag(l, 'L') + Flag(s, 'S') + Flag(c, 'C') + {'G'}
    ensures ('L' in letters <==> l) && ('S' in letters <==> s) && ('C' in letters <==> c)
  {
  }

  lemma ShownByLetter(lines: seq<string>, header: string, ch: char)
    requires HeaderLetter(header) == Some(ch)
    ensures header in lines ==> ch in Letters(lines)
  {
  }

  /** The "Languages" section is shown exactly when some language value is given. */
  lemma LanguagesShown(c: Config, s: Stats, age: Age, oneDecimal: (int, int) -> string)
    ensures MakeSection("Languages") in InfoLines(c, s, age, oneDecimal) <==> LanguagesGiven(c.languages)
  {
    InfoLetters(c, s, age, oneDecimal);
    FlagsIn(Letters(InfoLines(c, s, age, oneDecimal)), LanguagesGiven(c.languages), StackGiven(c.stack),
      ContactGiven(c.contact));
    SectionLetter("Languages");
    ShownByLetter(InfoLines(c, s, age, oneDecimal), MakeSection("Languages"), 'L');
    if LanguagesGiven(c.languages) {
      LanguageCount(c.languages);
      HeaderInSection("Languages", LanguageLines(c.languages));
      PanelMembers("$ " + c.header, TopBorder(), MakeEmpty(), BasicLines(c, age), MakeEmpty(),
        Section("Languages", LanguageLines(c.languages)), Section("Stack", StackLines(c.stack)),
        Section("Contact", ContactLines(c.contact)), StatsLines(s, oneDecimal), MakeEmpty(), BottomBorder());
    }
  }

  /** The "Stack" section is shown exactly when some stack value is given. */
  lemma StackShown(c: Config, s: Stats, age: Age, oneDecimal: (int, int) -> string)
    ensures MakeSection("Stack") in InfoLines(c, s, age, oneDecimal) <==> StackGiven(c.stack)
  {
    InfoLetters(c, s, age, oneDecimal);
    FlagsIn(Letters(InfoLines(c, s, age, oneDecimal)), LanguagesGiven(c.languages), StackGiven(c.stack),
      ContactGiven(c.contact));
    SectionLetter("Stack");
    ShownByLetter(InfoLines(c, s, age, oneDecimal), MakeSection("Stack"), 'S');
    if StackGiven(c.stack) {
      StackCount(c.stack);
      HeaderInSection("Stack", StackLines(c.stack));
      PanelMembers("$ " + c.header, TopBorder(), MakeEmpty(), BasicLines(c, age), MakeEmpty(),
        Section("Languages", LanguageLines(c.languages)), Section("Stack", StackLines(c.stack)),
        Section("Contact", ContactLines(c.contact)), StatsLines(s, oneDecimal), MakeEmpty(), BottomBorder());
    }
  }

  /** The "Contact" section is shown exactly when some contact has both a url and a label. */
  lemma ContactShown(c: Config, s: Stats, age: Age, oneDecimal: (int, int) -> string)
    ensures MakeSection("Contact") in InfoLines(c, s, age, oneDecimal) <==> ContactGiven(c.contact)
  {
    InfoLetters(c, s, age, oneDecimal);
    FlagsIn(Letters(InfoLines(c, s, age, oneDecimal)), LanguagesGiven(c.languages), StackGiven(c.stack),
      ContactGiven(c.contact));
    SectionLetter("Contact");
    ShownByLetter(InfoLines(c, s, age, oneDecimal), MakeSection("Contact"), 'C');
    if ContactGiven(c.contact) {
      ContactCount(c.contact);
      HeaderInSection("Contact", ContactLines(c.contact));
      PanelMembers("$ " + c.header, TopBorder(), MakeEmpty(), BasicLines(c, age), MakeEmpty(),
        Section("Languages", LanguageLines(c.languages)), Section("Stack", StackLines(c.stack)),
        Section("Contact", ContactLines(c.contact)), StatsLines(s, oneDecimal), MakeEmpty(), BottomBorder());
    }
  }

  // ---------------------------------------------------------------------------------------
  // Width of the box as a reader sees it

  /** A plain entry fits the box: no markup in it, and key, value and padding within 54 characters. */
  ghost predicate Fits(key: string, value: string)
  {
    '<' !in value && |key| + |value| + 10 <= BoxWidth
  }

  /** A contact fits the box: plain url and label, and key, label and padding within 54 characters. */
  ghost predicate LinkFits(key: string, c: Contact)
  {
    '>' !in c.url && '>' !in c.caption && '<' !in c.caption && |key| + |c.caption| + 10 <= BoxWidth
  }

  ghost predicate BasicFits(c: Config, age: Age)
  {
    && (c.host != "" ==> Fits("Host", c.host))
    && (c.kernel != "" ==> Fits("Kernel", c.kernel))
    && (c.birthday != "" ==> Fits("Uptime", Uptime.UptimeText(age.years, age.months, age.days)))
    && (c.location != "" ==> Fits("Location", c.location))
  }

  ghost predicate LanguagesFit(l: Languages)
  {
    && (l.code != "" ==> Fits("Languages.Code", l.code))
    && (l.markup != "" ==> Fits("Languages.Markup", l.markup))
    && (l.human != "" ==> Fits("Languages.Human", l.human))
  }

  ghost predicate StackFits(st: Stack)
  {
    && (st.backend != "" ==> Fits("Backend", st.backend))
    && (st.frontend != "" ==> Fits("Frontend", st.frontend))
    && (st.database != "" ==> Fits("Database", st.database))
    && (st.infra != "" ==> Fits("Infra", st.infra))
  }

  ghost predicate ContactsFit(k: Contacts)
  {
    && (Given(k.website) ==> LinkFits("Website", k.website))
    && (Given(k.email) ==> LinkFits("Email", k.email))
    && (Given(k.linkedin) ==> LinkFits("LinkedIn", k.linkedin))
  }

  ghost predicate StatsFit(s: Stats, oneDecimal: (int, int) -> string)
  {
    && Fits("Repos", Decimal.DecimalString(s.repos))
    && Fits("Commits", FormatNumber(s.commits, oneDecimal))
    && Fits("PRs", FormatNumber(s.prs, oneDecimal))
    && Fits("Stars", FormatNumber(s.stars, oneDecimal))
    && Fits("Followers", Decimal.DecimalString(s.followers))
    && Fits("Lines of Code", LocValue(s, oneDecimal))
  }

  /** Every entry the panel shows fits the box. */
  ghost predicate PanelFits(c: Config, s: Stats, age: Age, oneDecimal: (int, int) -> string)
  {
    BasicFits(c, age) && LanguagesFit(c.languages) && StackFits(c.stack) && ContactsFit(c.contact)
    && StatsFit(s, oneDecimal)
  }

  /** Every one of the lines is seen exactly as wide as the box. */
  ghost predicate Wide(lines: seq<string>)
  {
    forall x :: x in lines ==> |Rendered(x)| == BoxWidth
  }

  lemma WideAppend(a: seq<string>, b: seq<string>)
    requires Wide(a) && Wide(b)
    ensures Wide(a + b)
  {
  }

  lemma WideOne(x: string)
    requires |Rendered(x)| == BoxWidth
    ensures Wide([x])
  {
  }

  lemma OptionalWide(b: bool, key: string, value: string)
    requires '<' !in key && (b ==> Fits(key, value))
    ensures Wide(Optional(b, MakeLine(key, value, false)))
  {
    if b {
      PlainLineWidth(key, value);
      WideOne(MakeLine(key, value, false));
    }
  }

  lemma OptionalLinkWide(b: bool, key: string, c: Contact)
    requires '<' !in key && (b ==> LinkFits(key, c))
    ensures Wide(Optional(b, MakeLine(key, LinkMarkup(c.url, c.caption), true)))
  {
    if b {
      LinkLineWidth(key, c.url, c.caption);
      WideOne(MakeLine(key, LinkMarkup(c.url, c.caption), true));
    }
  }

  lemma SectionWide(title: string, entries: seq<string>)
    requires '<' !in title && |title| + 4 <= ContentWidth && Wide(entries)
    ensures Wide(Section(title, entries))
  {
    if |entries| > 0 {
      SectionWidth(title);
      FixedLinesWidth();
      WideOne(MakeSection(title));
      WideOne(MakeEmpty());
      WideAppend([MakeSection(title)], entries);
      WideAppend([MakeSection(title)] + entries, [MakeEmpty()]);
    }
  }

  lemma FourWide(a: seq<string>, b: seq<string>, c: seq<string>, d: seq<string>)
    requires Wide(a) && Wide(b) && Wide(c) && Wide(d)
    ensures Wide(a + b + c) && Wide(a + b + c + d)
  {
    WideAppend(a, b);
    WideAppend(a + b, c);
    WideAppend(a + b + c, d);
  }

  lemma BasicWide(c: Config, age: Age)
    requires BasicFits(c, age)
    ensures Wide(BasicLines(c, age))
  {
    OptionalWide(c.host != "", "Host", c.host);
    OptionalWide(c.kernel != "", "Kernel", c.kernel);
    OptionalWide(c.birthday != "", "Uptime", Uptime.UptimeText(age.years, age.months, age.days));
    OptionalWide(c.location != "", "Location", c.location);
    FourWide(Optional(c.host != "", MakeLine("Host", c.host, false)),
      Optional(c.kernel != "", MakeLine("Kernel", c.kernel, false)),
      Optional(c.birthday != "", MakeLine("Uptime", Uptime.UptimeText(age.years, age.months, age.days), false)),
      Optional(c.location != "", MakeLine("Location", c.location, false)));
  }

  lemma LanguagesWide(l: Languages)
    requires LanguagesFit(l)
    ensures Wide(Section("Languages", LanguageLines(l)))
  {
    OptionalWide(l.code != "", "Languages.Code", l.code);
    OptionalWide(l.markup != "", "Languages.Markup", l.markup);
    OptionalWide(l.human != "", "Languages.Human", l.human);
    FourWide(Optional(l.code != "", MakeLine("Languages.Code", l.code, false)),
      Optional(l.markup != "", MakeLine("Languages.Markup", l.markup, false)),
      Optional(l.human != "", MakeLine("Languages.Human", l.human, false)), []);
    SectionWide("Languages", LanguageLines(l));
  }

  lemma StackWide(st: Stack)
    requires StackFits(st)
    ensures Wide(Section("Stack", StackLines(st)))
  {
    OptionalWide(st.backend != "", "Backend", st.backend);
    OptionalWide(st.frontend != "", "Frontend", st.frontend);
    OptionalWide(st.database != "", "Database", st.database);
    OptionalWide(st.infra != "", "Infra", st.infra);
    FourWide(Optional(st.backend != "", MakeLine("Backend", st.backend, false)),
      Optional(st.frontend != "", MakeLine("Frontend", st.frontend, false)),
      Optional(st.database != "", MakeLine("Database", st.database, false)),
      Optional(st.infra != "", MakeLine("Infra", st.infra, false)));
    SectionWide("Stack", StackLines(st));
  }

  lemma ContactWide(k: Contacts)
    requires ContactsFit(k)
    ensures Wide(Section("Contact", ContactLines(k)))
  {
    ContactLinesWide(k);
    SectionWide("Contact", ContactLines(k));
  }

  lemma ContactLinesWide(k: Contacts)
    requires ContactsFit(k)
    ensures Wide(ContactLines(k))
  {
    OptionalLinkWide(Given(k.website), "Website", k.website);
    OptionalLinkWide(Given(k.email), "Email", k.email);
    OptionalLinkWide(Given(k.linkedin), "LinkedIn", k.linkedin);
    WideAppend(Optional(Given(k.website), MakeLine("Website", LinkMarkup(k.website.url, k.website.caption), true)),
      Optional(Given(k.email), MakeLine("Email", LinkMarkup(k.email.url, k.email.caption), true)));
    WideAppend(Optional(Given(k.website), MakeLine("Website", LinkMarkup(k.website.url, k.website.caption), true))
      + Optional(Given(k.email), MakeLine("Email", LinkMarkup(k.email.url, k.email.caption), true)),
      Optional(Given(k.linkedin), MakeLine("LinkedIn", LinkMarkup(k.linkedin.url, k.linkedin.caption), true)));
  }

  lemma StatsWide(s: Stats, oneDecimal: (int, int) -> string)
    requires StatsFit(s, oneDecimal)
    ensures Wide(StatsLines(s, oneDecimal))
  {
    StatsWideOf(Decimal.DecimalString(s.repos), FormatNumber(s.commits, oneDecimal), FormatNumber(s.prs, oneDecimal),
      FormatNumber(s.stars, oneDecimal), Decimal.DecimalString(s.followers), LocValue(s, oneDecimal));
  }

  lemma StatsWideOf(repos: string, commits: string, prs: string, stars: string, followers: string, loc: string)
    requires Fits("Repos", repos) && Fits("Commits", commits) && Fits("PRs", prs) && Fits("Stars", stars)
    requires Fits("Followers", followers) && Fits("Lines of Code", loc)
    ensures Wide([MakeSection("GitHub Stats"), MakeLine("Repos", repos, false), MakeLine("Commits", commits, false),
      MakeLine("PRs", prs, false), MakeLine("Stars", stars, false), MakeLine("Followers", followers, false),
      MakeLine("Lines of Code", loc, false)])
  {
    var head := [MakeSection("GitHub Stats"), MakeLine("Repos", repos, false), MakeLine("Commits", commits, false),
      MakeLine("PRs", prs, false)];
    var tail := [MakeLine("Stars", stars, false), MakeLine("Followers", followers, false),
      MakeLine("Lines of Code", loc, false)];
    assert Wide(head) by {
      SectionWidth("GitHub Stats");
      ThreeLinesWide("Repos", repos, "Commits", commits, "PRs", prs);
    }
    assert Wide(tail) by {
      ThreeLinesWide("Stars", stars, "Followers", followers, "Lines of Code", loc);
    }
    FourThree(head, tail, WideLine);
  }

  /** A sequence of seven whose first four and last three elements all have p. */
  lemma FourThree<T>(head: seq<T>, tail: seq<T>, p: T -> bool)
    requires |head| == 4 && |tail| == 3
    requires forall y :: y in head ==> p(y)
    requires forall y :: y in tail ==> p(y)
    ensures forall y :: y in [head[0], head[1], head[2], head[3], tail[0], tail[1], tail[2]] ==> p(y)
  {
  }

  lemma ThreeLinesWide(k1: string, v1: string, k2: string, v2: string, k3: string, v3: string)
    requires '<' !in k1 && '<' !in k2 && '<' !in k3
    requires Fits(k1, v1) && Fits(k2, v2) && Fits(k3, v3)
    ensures |Rendered(MakeLine(k1, v1, false))| == BoxWidth
    ensures |Rendered(MakeLine(k2, v2, false))| == BoxWidth
    ensures |Rendered(MakeLine(k3, v3, false))| == BoxWidth
  {
    PlainLineWidth(k1, v1);
    PlainLineWidth(k2, v2);
    PlainLineWidth(k3, v3);
  }

  /**
   * When every entry fits, every line of the box, from the top border to the bottom border,
   * is seen exactly 54 characters wide, so the right edge of the box lines up.
   */
  lemma PanelWidth(c: Config, s: Stats, age: Age, oneDecimal: (int, int) -> string)
    requires PanelFits(c, s, age, oneDecimal)
    ensures TailWide(InfoLines(c, s, age, oneDecimal))
  {
    FixedLinesWidth();
    BasicWide(c, age);
    LanguagesWide(c.languages);
    StackWide(c.stack);
    ContactWide(c.contact);
    StatsWide(s, oneDecimal);
    BoxWide("$ " + c.header, TopBorder(), MakeEmpty(), BasicLines(c, age),
      MakeEmpty(), Section("Languages", LanguageLines(c.languages)), Section("Stack", StackLines(c.stack)),
      Section("Contact", ContactLines(c.contact)), StatsLines(s, oneDecimal), MakeEmpty(), BottomBorder());
  }

  lemma BoxWide(h: string, t: string, e1: string, b: seq<string>, e2: string, l: seq<string>,
                s: seq<string>, c: seq<string>, st: seq<string>, e3: string, bo: string)
    requires |Rendered(t)| == BoxWidth && |Rendered(e1)| == BoxWidth && |Rendered(e2)| == BoxWidth
    requires |Rendered(e3)| == BoxWidth && |Rendered(bo)| == BoxWidth
    requires Wide(b) && Wide(l) && Wide(s) && Wide(c) && Wide(st)
    ensures TailWide([h] + [t] + [e1] + b + [e2] + l + s + c + st + [e3] + [bo])
  {
    AllAfterFirst(h, t, e1, b, e2, l, s, c, st, e3, bo, WideLine);
  }

  /** A line seen exactly as wide as the box. */
  ghost predicate WideLine(y: string)
  {
    |Rendered(y)| == BoxWidth
  }

  /** Every line after the first is seen exactly as wide as the box. */
  ghost predicate TailWide(lines: seq<string>)
  {
    AllAfterHead(lines, WideLine)
  }

  /** Every element after the first has p. */
  ghost predicate AllAfterHead<T>(xs: seq<T>, p: T -> bool)
  {
    forall i :: 1 <= i < |xs| ==> p(xs[i])
  }

  /** Every element after the first of a sequence put together like the panel has p when each part has it. */
  lemma AllAfterFirst<T>(h: T, t: T, e1: T, b: seq<T>, e2: T, l: seq<T>, s: seq<T>, c: seq<T>, st: seq<T>,
                         e3: T, bo: T, p: T -> bool)
    requires p(t) && p(e1) && p(e2) && p(e3) && p(bo)
    requires forall y :: y in b ==> p(y)
    requires forall y :: y in l ==> p(y)
    requires forall y :: y in s ==> p(y)
    requires forall y :: y in c ==> p(y)
    requires forall y :: y in st ==> p(y)
    ensures AllAfterHead([h] + [t] + [e1] + b + [e2] + l + s + c + st + [e3] + [bo], p)
  {
    var x := [h] + [t] + [e1] + b + [e2] + l + s + c + st + [e3] + [bo];
    var rest := [t] + [e1] + b + [e2] + l + s + c + st + [e3] + [bo];
    assert x[1..] == rest;
    forall i | 1 <= i < |x|
      ensures p(x[i])
    {
      assert x[i] == rest[i - 1];
    }
  }
}
