/**
 * The information panel: "key: ..... value" lines, section headers, blank lines and the
 * two borders of a box whose content is 50 characters wide, and the whole panel built from
 * the configuration and the statistics.
 *
 * Box-drawing characters are single characters here: U+2500 for section rules, U+2501 for
 * the heavy border and U+250F, U+2513, U+2517, U+251B for its corners.
 */
module Layout {
  import opened Wrappers
  import opened Text
  import opened Decimal
  import Uptime

  const ContentWidth: int := 50
  /** Two spaces on each side of the content. */
  const BoxWidth: int := ContentWidth + 4

  const Rule: char := '\U{2500}'
  const HeavyRule: char := '\U{2501}'
  const TopLeft: char := '\U{250F}'
  const TopRight: char := '\U{2513}'
  const BottomLeft: char := '\U{2517}'
  const BottomRight: char := '\U{251B}'

  // ---------------------------------------------------------------------------------------
  // Numbers

  /**
   * format_number. `oneDecimal(n, d)` stands for the float quotient n / d printed with one
   * decimal place; the model does not fix its digits.
   */
  function FormatNumber(n: int, oneDecimal: (int, int) -> string): (r: string)
    ensures |r| >= 1
    ensures n < 1000 ==> r == DecimalString(n) && ParseInt(r) == Some(n)
    ensures 0 <= n < 1000 ==> AllDigits(r)
    ensures r[|r| - 1] == 'K' <==> 1000 <= n < 1000000
    ensures r[|r| - 1] == 'M' <==> 1000000 <= n
    ensures 1000 <= n < 1000000 ==> r[..|r| - 1] == oneDecimal(n, 1000)
    ensures 1000000 <= n ==> r[..|r| - 1] == oneDecimal(n, 1000000)
  {
    if n >= 1000000 then
      oneDecimal(n, 1000000) + "M"
    else if n >= 1000 then
      oneDecimal(n, 1000) + "K"
    else
      DecimalRoundTrip(n);
      DecimalString(n)
  }

  // ---------------------------------------------------------------------------------------
  // Single lines of the box

  /**
   * The part of a value that make_line measures: for a link, the text after the first '>' up
   * to the next '<' or '>', whichever comes first; otherwise the whole value.
   */
  function Visible(value: string, isLink: bool): string
  {
    if isLink && '>' in value then TagText(SkipTag(value)) else value
  }

  /** The text before the first '<' or '>' of s. */
  function TagText(s: string): string
  {
    if |s| == 0 || s[0] == '<' || s[0] == '>' then "" else [s[0]] + TagText(s[1..])
  }

  lemma {:induction false} TagTextOf(p: string, q: string)
    requires '<' !in p && '>' !in p && |q| > 0 && (q[0] == '<' || q[0] == '>')
    ensures TagText(p + q) == p
  {
    if |p| > 0 {
      assert (p + q)[1..] == p[1..] + q;
      TagTextOf(p[1..], q);
    } else {
      assert p + q == q;
    }
  }

  /**
   * make_line: "  key: " then dots, at least three, then " value  ", the dots chosen so that
   * the measured text reaches the content width when it fits.
   */
  function MakeLine(key: string, value: string, isLink: bool): (r: string)
    ensures var vis := Visible(value, isLink);
      |r| == |value| - |vis| + Max(BoxWidth, |key| + |vis| + 10)
    ensures r[..|key| + 4] == "  " + key + ": "
    ensures forall i :: |key| + 4 <= i < |r| - |value| - 3 ==> r[i] == '.'
    ensures |key| + 7 <= |r| - |value| - 3
    ensures r[|r| - |value| - 3..] == " " + value + "  "
  {
    var visibleLen := |key| + 3 + |Visible(value, isLink)|;
    var dots := Copies('.', Max(ContentWidth - visibleLen, 3));
    var prefix := "  " + key + ": ";
    var suffix := " " + value + "  ";
    ThreeParts(prefix, dots, suffix);
    prefix + dots + suffix
  }

  lemma ThreeParts(p: string, q: string, r: string)
    ensures var s := p + q + r;
      && |s| == |p| + |q| + |r|
      && s[..|p|] == p
      && (forall i :: |p| <= i < |p| + |q| ==> s[i] == q[i - |p|])
      && s[|p| + |q|..] == r
  {
  }

  /** make_section: "  ── title " then rules up to the content width, then two spaces. */
  function MakeSection(title: string): (r: string)
    ensures |r| == 4 + Max(ContentWidth, |title| + 4)
    ensures r[..5] == [' ', ' ', Rule, Rule, ' '] && r[5..5 + |title|] == title
    ensures r[5 + |title|] == ' '
    ensures forall i :: 6 + |title| <= i < |r| - 2 ==> r[i] == Rule
    ensures r[|r| - 2..] == "  "
  {
    var prefix := [Rule, Rule, ' '] + title + " ";
    var r := "  " + prefix + Copies(Rule, ContentWidth - |prefix|) + "  ";
    assert r[..5] == [' ', ' ', Rule, Rule, ' '];
    assert r[5..5 + |title|] == title;
    r
  }

  /** make_empty: a line of spaces as wide as the box. */
  function MakeEmpty(): (r: string)
    ensures |r| == BoxWidth
    ensures forall i :: 0 <= i < |r| ==> r[i] == ' '
  {
    "  " + Copies(' ', ContentWidth) + "  "
  }

  function TopBorder(): (r: string)
    ensures |r| == BoxWidth
    ensures r[0] == TopLeft && r[|r| - 1] == TopRight
    ensures forall i :: 0 < i < |r| - 1 ==> r[i] == HeavyRule
  {
    [TopLeft] + Copies(HeavyRule, BoxWidth - 2) + [TopRight]
  }

  function BottomBorder(): (r: string)
    ensures |r| == BoxWidth
    ensures r[0] == BottomLeft && r[|r| - 1] == BottomRight
    ensures forall i :: 0 < i < |r| - 1 ==> r[i] == HeavyRule
  {
    [BottomLeft] + Copies(HeavyRule, BoxWidth - 2) + [BottomRight]
  }

  /** The hyperlink markup build_info_lines writes for a contact entry. */
  function LinkMarkup(url: string, text: string): string
  {
    "<a href=\"" + url + "\">" + text + "</a>"
  }

  // ---------------------------------------------------------------------------------------
  // What a reader sees: the text of a line with its markup tags removed

  /**
   * The characters of s outside `<...>` tags, as a browser shows them inside the generated
   * <pre> block; an unterminated tag hides the rest of the line.
   */
  function Rendered(s: string): string
    decreases |s|
  {
    if |s| == 0 then ""
    else if s[0] == '<' then Rendered(SkipTag(s[1..]))
    else [s[0]] + Rendered(s[1..])
  }

  /** What follows the first '>' of s, the end of the tag being read; nothing when there is none. */
  function SkipTag(s: string): (r: string)
    ensures |r| <= |s|
  {
    if |s| == 0 then ""
    else if s[0] == '>' then s[1..]
    else SkipTag(s[1..])
  }

  lemma {:induction false} SkipTagOf(p: string, q: string)
    requires '>' !in p
    ensures SkipTag(p + ['>'] + q) == q
  {
    if |p| > 0 {
      assert (p + ['>'] + q)[1..] == p[1..] + ['>'] + q;
      SkipTagOf(p[1..], q);
    } else {
      assert (p + ['>'] + q)[1..] == q;
    }
  }

  lemma {:induction false} RenderedPlain(a: string, b: string)
    requires '<' !in a
    ensures Rendered(a + b) == a + Rendered(b)
  {
    if |a| > 0 {
      assert (a + b)[1..] == a[1..] + b;
      RenderedPlain(a[1..], b);
    } else {
      assert a + b == b;
    }
  }

  lemma RenderedTag(p: string, q: string)
    requires '>' !in p
    ensures Rendered(['<'] + p + ['>'] + q) == Rendered(q)
  {
    var s := ['<'] + p + ['>'] + q;
    assert s[1..] == p + ['>'] + q;
    SkipTagOf(p, q);
  }

  /** A link shows exactly its text. */
  lemma RenderedLink(url: string, text: string, q: string)
    requires '>' !in url && '<' !in text
    ensures Rendered(LinkMarkup(url, text) + q) == text + Rendered(q)
  {
    var close := "</a>" + q;
    RenderedOpenTag(url, text, q);
    Associative(text, "</a>", q);
    RenderedPlain(text, close);
    RenderedCloseTag(q);
  }

  lemma Associative(a: string, b: string, c: string)
    ensures a + b + c == a + (b + c)
  {
  }

  lemma RenderedOpenTag(url: string, text: string, q: string)
    requires '>' !in url
    ensures Rendered(LinkMarkup(url, text) + q) == Rendered(text + "</a>" + q)
  {
    var open := "a href=\"" + url + "\"";
    LinkMarkupShape(url, text, q);
    RenderedTag(open, text + "</a>" + q);
  }

  lemma LinkMarkupShape(url: string, text: string, q: string)
    ensures LinkMarkup(url, text) + q == ['<'] + ("a href=\"" + url + "\"") + ['>'] + (text + "</a>" + q)
  {
  }

  lemma RenderedCloseTag(q: string)
    ensures Rendered("</a>" + q) == Rendered(q)
  {
    assert "</a>" + q == ['<'] + "/a" + ['>'] + q;
    RenderedTag("/a", q);
  }

  /** What make_line measures of a link is its text, when url and text hold no angle brackets. */
  lemma VisibleLink(url: string, text: string)
    requires '>' !in url && '>' !in text && '<' !in text
    ensures Visible(LinkMarkup(url, text), true) == text
  {
    var open := "<a href=\"" + url + "\"";
    assert LinkMarkup(url, text) == open + ['>'] + (text + "</a>");
    SkipTagOf(open, text + "</a>");
    TagTextOf(text, "</a>");
  }

  lemma {:induction false} NoOpenInCopies(c: char, n: int)
    requires c != '<'
    ensures '<' !in Copies(c, n)
  {
  }

  /** A plain line is seen as it is: 54 characters wide exactly when key and value fit. */
  lemma PlainLineWidth(key: string, value: string)
    requires '<' !in key && '<' !in value
    ensures |Rendered(MakeLine(key, value, false))| == Max(BoxWidth, |key| + |value| + 10)
  {
    var visibleLen := |key| + 3 + |value|;
    var dots := Copies('.', Max(ContentWidth - visibleLen, 3));
    var line := MakeLine(key, value, false);
    assert line == ("  " + key + ": " + dots + " " + value + "  ") + "";
    RenderedPlain("  " + key + ": " + dots + " " + value + "  ", "");
  }

  /** A contact line is seen 54 characters wide exactly when key and link text fit. */
  lemma LinkLineWidth(key: string, url: string, text: string)
    requires '<' !in key && '>' !in url && '>' !in text && '<' !in text
    ensures |Rendered(MakeLine(key, LinkMarkup(url, text), true))| == Max(BoxWidth, |key| + |text| + 10)
  {
    var value := LinkMarkup(url, text);
    VisibleLink(url, text);
    var head := LineHead(key, value, true);
    MakeLineSplit(key, value, true);
    LinkLineRendered(head, url, text);
  }

  /** The part of a make_line result before its value: "  key: ", the dots and one space. */
  function LineHead(key: string, value: string, isLink: bool): (h: string)
    ensures '<' !in key ==> '<' !in h
    ensures |h| == |key| + 5 + Max(ContentWidth - (|key| + 3 + |Visible(value, isLink)|), 3)
  {
    var n := Max(ContentWidth - (|key| + 3 + |Visible(value, isLink)|), 3);
    NoOpenInCopies('.', n);
    "  " + key + ": " + Copies('.', n) + " "
  }

  lemma MakeLineSplit(key: string, value: string, isLink: bool)
    ensures MakeLine(key, value, isLink) == LineHead(key, value, isLink) + (value + "  ")
  {
  }

  lemma LinkLineRendered(head: string, url: string, text: string)
    requires '<' !in head && '>' !in url && '<' !in text
    ensures Rendered(head + (LinkMarkup(url, text) + "  ")) == head + text + "  "
  {
    RenderedPlain(head, LinkMarkup(url, text) + "  ");
    RenderedLink(url, text, "  ");
    assert "  " == "  " + "";
    RenderedPlain("  ", "");
  }

  lemma SectionWidth(title: string)
    requires '<' !in title
    ensures |Rendered(MakeSection(title))| == 4 + Max(ContentWidth, |title| + 4)
  {
    var r := MakeSection(title);
    NoOpenInCopies(Rule, ContentWidth - (|title| + 4));
    assert r + "" == r;
    RenderedPlain(r, "");
  }

  lemma FixedLinesWidth()
    ensures |Rendered(MakeEmpty())| == BoxWidth
    ensures |Rendered(TopBorder())| == BoxWidth
    ensures |Rendered(BottomBorder())| == BoxWidth
  {
    assert MakeEmpty() + "" == MakeEmpty();
    RenderedPlain(MakeEmpty(), "");
    assert TopBorder() + "" == TopBorder();
    RenderedPlain(TopBorder(), "");
    assert BottomBorder() + "" == BottomBorder();
    RenderedPlain(BottomBorder(), "");
  }

  // ---------------------------------------------------------------------------------------
  // Configuration and statistics. A missing key and an empty string are both "not given".

  datatype Languages = Languages(code: string, markup: string, human: string)
  datatype Stack = Stack(backend: string, frontend: string, database: string, infra: string)
  /** A contact entry of the configuration; `caption` holds its "label" key (label is a Dafny keyword). */
  datatype Contact = Contact(url: string, caption: string)
  datatype Contacts = Contacts(website: Contact, email: Contact, linkedin: Contact)
  datatype Config = Config(
    header: string, host: string, kernel: string, birthday: string, location: string,
    languages: Languages, stack: Stack, contact: Contacts)
  datatype Stats = Stats(
    repos: int, stars: int, followers: int, commits: int, prs: int, additions: int, deletions: int)
  /** Time since the birthday, as years, months and days; the date arithmetic is an input. */
  datatype Age = Age(years: int, months: int, days: int)

  /** A contact is shown only when both its url and its label are given. */
  predicate Given(c: Contact)
  {
    c.url != "" && c.caption != ""
  }

  function LocValue(s: Stats, oneDecimal: (int, int) -> string): string
  {
    FormatNumber(s.additions + s.deletions, oneDecimal) + " { " + FormatNumber(s.additions, oneDecimal)
    + "++, " + FormatNumber(s.deletions, oneDecimal) + "-- }"
  }

  // ---------------------------------------------------------------------------------------
  // The panel, as a specification of build_info_lines

  function BasicLines(c: Config, age: Age): seq<string>
  {
    Optional(c.host != "", MakeLine("Host", c.host, false))
    + Optional(c.kernel != "", MakeLine("Kernel", c.kernel, false))
    + Optional(c.birthday != "", MakeLine("Uptime", Uptime.UptimeText(age.years, age.months, age.days), false))
    + Optional(c.location != "", MakeLine("Location", c.location, false))
  }

  function LanguageLines(l: Languages): seq<string>
  {
    Optional(l.code != "", MakeLine("Languages.Code", l.code, false))
    + Optional(l.markup != "", MakeLine("Languages.Markup", l.markup, false))
    + Optional(l.human != "", MakeLine("Languages.Human", l.human, false))
  }

  function StackLines(s: Stack): seq<string>
  {
    Optional(s.backend != "", MakeLine("Backend", s.backend, false))
    + Optional(s.frontend != "", MakeLine("Frontend", s.frontend, false))
    + Optional(s.database != "", MakeLine("Database", s.database, false))
    + Optional(s.infra != "", MakeLine("Infra", s.infra, false))
  }

  function ContactLines(c: Contacts): seq<string>
  {
    Optional(Given(c.website), MakeLine("Website", LinkMarkup(c.website.url, c.website.caption), true))
    + Optional(Given(c.email), MakeLine("Email", LinkMarkup(c.email.url, c.email.caption), true))
    + Optional(Given(c.linkedin), MakeLine("LinkedIn", LinkMarkup(c.linkedin.url, c.linkedin.caption), true))
  }

  /** A titled section with its entries and a blank line, or nothing at all without entries. */
  function Section(title: string, entries: seq<string>): seq<string>
  {
    if |entries| == 0 then [] else [MakeSection(title)] + entries + [MakeEmpty()]
  }

  function StatsLines(s: Stats, oneDecimal: (int, int) -> string): seq<string>
  {
    [ MakeSection("GitHub Stats"),
      MakeLine("Repos", DecimalString(s.repos), false),
      MakeLine("Commits", FormatNumber(s.commits, oneDecimal), false),
      MakeLine("PRs", FormatNumber(s.prs, oneDecimal), false),
      MakeLine("Stars", FormatNumber(s.stars, oneDecimal), false),
      MakeLine("Followers", DecimalString(s.followers), false),
      MakeLine("Lines of Code", LocValue(s, oneDecimal), false) ]
  }

  /** The lines build_info_lines returns: the "$ header" line, then the box. */
  function InfoLines(c: Config, s: Stats, age: Age, oneDecimal: (int, int) -> string): seq<string>
  {
    ["$ " + c.header] + [TopBorder()] + [MakeEmpty()]
    + BasicLines(c, age) + [MakeEmpty()]
    + Section("Languages", LanguageLines(c.languages))
    + Section("Stack", StackLines(c.stack))
    + Section("Contact", ContactLines(c.contact))
    + StatsLines(s, oneDecimal)
    + [MakeEmpty()] + [BottomBorder()]
  }

  /** build_info_lines, appending to the list of lines step by step. */
  method BuildInfoLines(c: Config, s: Stats, age: Age, oneDecimal: (int, int) -> string)
    returns (lines: seq<string>)
    ensures lines == InfoLines(c, s, age, oneDecimal)
  {
    lines := ["$ " + c.header];
    lines := lines + [TopBorder()];
    lines := lines + [MakeEmpty()];
    lines := AppendBasicInfo(lines, c, age);
    lines := lines + [MakeEmpty()];

    var langLines := LanguageEntries(c.languages);
    lines := AppendSection(lines, "Languages", langLines);
    var stackLines := StackEntries(c.stack);
    lines := AppendSection(lines, "Stack", stackLines);
    var contactLines := ContactEntries(c.contact);
    lines := AppendSection(lines, "Contact", contactLines);

    lines := AppendStats(lines, s, oneDecimal);
    lines := lines + [MakeEmpty()];
    lines := lines + [BottomBorder()];
  }

  /** The host, kernel, uptime and location lines, each only when its value is given. */
  method AppendBasicInfo(lines: seq<string>, c: Config, age: Age) returns (r: seq<string>)
    ensures r == lines + BasicLines(c, age)
  {
    var host := MakeLine("Host", c.host, false);
    var kernel := MakeLine("Kernel", c.kernel, false);
    var uptime := MakeLine("Uptime", Uptime.UptimeText(age.years, age.months, age.days), false);
    var location := MakeLine("Location", c.location, false);
    r := lines;
    if c.host != "" {
      r := r + [host];
    }
    ghost var r1 := r;
    if c.kernel != "" {
      r := r + [kernel];
    }
    ghost var r2 := r;
    if c.birthday != "" {
      r := r + [uptime];
    }
    ghost var r3 := r;
    if c.location != "" {
      r := r + [location];
    }
    AppendOptional(lines, r1, c.host != "", host);
    AppendOptional(r1, r2, c.kernel != "", kernel);
    AppendOptional(r2, r3, c.birthday != "", uptime);
    AppendOptional(r3, r, c.location != "", location);
    AppendFour(lines, Optional(c.host != "", host), Optional(c.kernel != "", kernel),
      Optional(c.birthday != "", uptime), Optional(c.location != "", location));
  }

  function Optional<T>(b: bool, x: T): seq<T>
  {
    if b then [x] else []
  }

  lemma AppendOptional<T>(p: seq<T>, q: seq<T>, b: bool, x: T)
    requires q == if b then p + [x] else p
    ensures q == p + Optional(b, x)
  {
  }

  lemma AppendFour<T>(p: seq<T>, a: seq<T>, b: seq<T>, c: seq<T>, d: seq<T>)
    ensures p + a + b + c + d == p + (a + b + c + d)
  {
  }

  /** The "GitHub Stats" header and its six lines, always present. */
  method AppendStats(lines: seq<string>, s: Stats, oneDecimal: (int, int) -> string) returns (r: seq<string>)
    ensures r == lines + StatsLines(s, oneDecimal)
  {
    var header := MakeSection("GitHub Stats");
    var repos := MakeLine("Repos", DecimalString(s.repos), false);
    var commits := MakeLine("Commits", FormatNumber(s.commits, oneDecimal), false);
    var prs := MakeLine("PRs", FormatNumber(s.prs, oneDecimal), false);
    var stars := MakeLine("Stars", FormatNumber(s.stars, oneDecimal), false);
    var followers := MakeLine("Followers", DecimalString(s.followers), false);
    // the total of additions and deletions, then each of them
    var locText := LocValue(s, oneDecimal);
    var loc := MakeLine("Lines of Code", locText, false);
    assert StatsLines(s, oneDecimal) == [header, repos, commits, prs, stars, followers, loc];
    r := lines;
    r := r + [header];
    r := r + [repos];
    r := r + [commits];
    r := r + [prs];
    r := r + [stars];
    r := r + [followers];
    r := r + [loc];
    AppendSeven(lines, header, repos, commits, prs, stars, followers, loc);
  }

  lemma AppendSeven<T>(p: seq<T>, a: T, b: T, c: T, d: T, e: T, f: T, g: T)
    ensures p + [a] + [b] + [c] + [d] + [e] + [f] + [g] == p + [a, b, c, d, e, f, g]
  {
  }

  /** A section is appended only when it has entries: its header, the entries, then a blank line. */
  method AppendSection(lines: seq<string>, title: string, entries: seq<string>) returns (r: seq<string>)
    ensures r == lines + Section(title, entries)
  {
    r := lines;
    if |entries| > 0 {
      r := r + [MakeSection(title)];
      r := r + entries;
      r := r + [MakeEmpty()];
    }
  }

  method LanguageEntries(l: Languages) returns (langLines: seq<string>)
    ensures langLines == LanguageLines(l)
  {
    var code := MakeLine("Languages.Code", l.code, false);
    var markup := MakeLine("Languages.Markup", l.markup, false);
    var human := MakeLine("Languages.Human", l.human, false);
    langLines := [];
    if l.code != "" {
      langLines := langLines + [code];
    }
    ghost var r1 := langLines;
    if l.markup != "" {
      langLines := langLines + [markup];
    }
    ghost var r2 := langLines;
    if l.human != "" {
      langLines := langLines + [human];
    }
    AppendOptional([], r1, l.code != "", code);
    AppendOptional(r1, r2, l.markup != "", markup);
    AppendOptional(r2, langLines, l.human != "", human);
    AppendThree(Optional(l.code != "", code), Optional(l.markup != "", markup), Optional(l.human != "", human));
  }

  method StackEntries(st: Stack) returns (stackLines: seq<string>)
    ensures stackLines == StackLines(st)
  {
    var backend := MakeLine("Backend", st.backend, false);
    var frontend := MakeLine("Frontend", st.frontend, false);
    var database := MakeLine("Database", st.database, false);
    var infra := MakeLine("Infra", st.infra, false);
    stackLines := [];
    if st.backend != "" {
      stackLines := stackLines + [backend];
    }
    ghost var r1 := stackLines;
    if st.frontend != "" {
      stackLines := stackLines + [frontend];
    }
    ghost var r2 := stackLines;
    if st.database != "" {
      stackLines := stackLines + [database];
    }
    ghost var r3 := stackLines;
    if st.infra != "" {
      stackLines := stackLines + [infra];
    }
    AppendOptional([], r1, st.backend != "", backend);
    AppendOptional(r1, r2, st.frontend != "", frontend);
    AppendOptional(r2, r3, st.database != "", database);
    AppendOptional(r3, stackLines, st.infra != "", infra);
    AppendFour([], Optional(st.backend != "", backend), Optional(st.frontend != "", frontend),
      Optional(st.database != "", database), Optional(st.infra != "", infra));
  }

  /** A contact is listed only when both its url and its label are given. */
  method ContactEntries(c: Contacts) returns (contactLines: seq<string>)
    ensures contactLines == ContactLines(c)
  {
    var website := MakeLine("Website", LinkMarkup(c.website.url, c.website.caption), true);
    var email := MakeLine("Email", LinkMarkup(c.email.url, c.email.caption), true);
    var linkedin := MakeLine("LinkedIn", LinkMarkup(c.linkedin.url, c.linkedin.caption), true);
    contactLines := [];
    if c.website.url != "" && c.website.caption != "" {
      contactLines := contactLines + [website];
    }
    ghost var r1 := contactLines;
    if c.email.url != "" && c.email.caption != "" {
      contactLines := contactLines + [email];
    }
    ghost var r2 := contactLines;
    if c.linkedin.url != "" && c.linkedin.caption != "" {
      contactLines := contactLines + [linkedin];
    }
    AppendOptional([], r1, Given(c.website), website);
    AppendOptional(r1, r2, Given(c.email), email);
    AppendOptional(r2, contactLines, Given(c.linkedin), linkedin);
    AppendThree(Optional(Given(c.website), website), Optional(Given(c.email), email),
      Optional(Given(c.linkedin), linkedin));
  }

  lemma AppendThree<T>(a: seq<T>, b: seq<T>, c: seq<T>)
    ensures [] + a + b + c == a + b + c
  {
  }
}
