/**
 * The CSV serialiser shared by the two admin export buttons: a header line
 * of eight fixed column names, then one line per profile, lines joined by
 * "\n" and cells by ",". The five text cells are wrapped in double quotes
 * with their text copied verbatim (no quote doubling), a missing value
 * giving an empty pair of quotes. The date cell is the profile's creation
 * time formatted by the browser's locale, which the model takes as a
 * function parameter.
 *
 * `Split` is JavaScript's `String.prototype.split` on one character; it is
 * the inverse the serialiser is checked against.
 */
module Csv {
  import opened Common
  import opened Profiles

  /** How the `select("*")` call an export starts with ends. */
  datatype Fetch = FetchFailed(message: string) | Fetched(data: Option<seq<Profile>>) | FetchThrew

  /** The fetch returned at least one row: the only case in which a file is built. */
  predicate HasRows(f: Fetch) {
    f.Fetched? && f.data.Some? && |f.data.value| > 0
  }

  const Headers: seq<string> := [
    "Full Name", "Email", "Phone Number", "Facebook URL",
    "University", "CTF Experience", "Team Preference", "Registration Date"]

  /** `Array.prototype.join(sep)` on strings. */
  function Join(xs: seq<string>, sep: char): string
    decreases |xs|
  {
    if |xs| == 0 then ""
    else if |xs| == 1 then xs[0]
    else xs[0] + [sep] + Join(xs[1..], sep)
  }

  /** `String.prototype.split(sep)` for a one-character separator. */
  function Split(s: string, sep: char): (parts: seq<string>)
    ensures |parts| >= 1
    decreases |s|
  {
    if |s| == 0 then [""]
    else
      var rest := Split(s[1..], sep);
      if s[0] == sep then [""] + rest
      else [[s[0]] + rest[0]] + rest[1..]
  }

  /** A split has one part more than the text has separators. */
  lemma {:induction false} SplitCount(s: string, sep: char)
    ensures |Split(s, sep)| == multiset(s)[sep] + 1
    decreases |s|
  {
    if |s| > 0 {
      SplitCount(s[1..], sep);
      assert s == [s[0]] + s[1..];
    }
  }

  /** No element of `xs` contains `c`. */
  predicate Free(xs: seq<string>, c: char) {
    forall i :: 0 <= i < |xs| ==> c !in xs[i]
  }

  lemma {:induction false} SplitPlain(a: string, sep: char)
    requires sep !in a
    ensures Split(a, sep) == [a]
    decreases |a|
  {
    if |a| > 0 {
      SplitPlain(a[1..], sep);
      assert [a[0]] + a[1..] == a;
    }
  }

  lemma {:induction false} SplitAfterSeparator(a: string, b: string, sep: char)
    requires sep !in a
    ensures Split(a + [sep] + b, sep) == [a] + Split(b, sep)
    decreases |a|
  {
    var s := a + [sep] + b;
    if |a| == 0 {
      assert s[0] == sep && s[1..] == b;
    } else {
      assert s[0] == a[0] && s[1..] == a[1..] + [sep] + b;
      SplitAfterSeparator(a[1..], b, sep);
      assert [a[0]] + a[1..] == a;
    }
  }

  /** Splitting a join on its separator gives the parts back when none contains the separator. */
  lemma {:induction false} SplitJoin(xs: seq<string>, sep: char)
    requires |xs| >= 1 && Free(xs, sep)
    ensures Split(Join(xs, sep), sep) == xs
    decreases |xs|
  {
    if |xs| == 1 {
      SplitPlain(xs[0], sep);
    } else {
      assert Free(xs[1..], sep) by {
        forall i | 0 <= i < |xs[1..]| ensures sep !in xs[1..][i] {
          assert xs[1..][i] == xs[i + 1];
        }
      }
      SplitJoin(xs[1..], sep);
      SplitAfterSeparator(xs[0], Join(xs[1..], sep), sep);
      assert [xs[0]] + xs[1..] == xs;
    }
  }

  /** A character in none of the parts and other than the separator is not in the join. */
  lemma {:induction false} JoinAvoids(xs: seq<string>, sep: char, c: char)
    requires c != sep && Free(xs, c)
    ensures c !in Join(xs, sep)
    decreases |xs|
  {
    if |xs| > 1 {
      assert Free(xs[1..], c) by {
        forall i | 0 <= i < |xs[1..]| ensures c !in xs[1..][i] {
          assert xs[1..][i] == xs[i + 1];
        }
      }
      JoinAvoids(xs[1..], sep, c);
    }
  }

  /** A text cell: the value between double quotes, nothing escaped. */
  function Quoted(v: string): string {
    "\"" + v + "\""
  }

  /** A quoted cell starts and ends with a double quote and holds the value in between. */
  lemma QuotedShape(v: string)
    ensures var cell := Quoted(v);
      && |cell| == |v| + 2 && cell[0] == '"' && cell[|cell| - 1] == '"'
      && cell[1..|cell| - 1] == v
  {
  }

  /**
   * The eight cells of a profile's line, in header order: the five text
   * columns quoted, with null written as "", then the two word cells (see
   * `WordCells`), then the registration date as the host writes it.
   */
  function Cells(p: Profile, localeDate: string -> string): (cells: seq<string>)
    ensures |cells| == 8
    ensures cells[0] == Quoted(p.fullName.GetOr(""))
    ensures cells[1] == Quoted(p.email)
    ensures cells[2] == Quoted(p.phoneNumber.GetOr(""))
    ensures cells[3] == Quoted(p.facebookUrl.GetOr(""))
    ensures cells[4] == Quoted(p.university.GetOr(""))
    ensures cells[7] == localeDate(p.createdAt)
  {
    [ TextCell(p.fullName),
      Quoted(OrElse(p.email, "")),
      TextCell(p.phoneNumber),
      TextCell(p.facebookUrl),
      TextCell(p.university),
      if p.ctfExperience then "Yes" else "No",
      if p.teamPreference == "team" then "Team" else "Solo",
      localeDate(p.createdAt) ]
  }

  /** `"${v || ""}"`: a nullable text column, quoted, with null written as "". */
  function TextCell(v: Option<string>): (cell: string)
    ensures cell == Quoted(v.GetOr(""))
  {
    Quoted(OptOrElse(v, ""))
  }

  /** The two cells that are words: "Yes" or "No" for experience, "Team" or "Solo" for the preference. */
  lemma WordCells(p: Profile, localeDate: string -> string)
    ensures p.ctfExperience ==> Cells(p, localeDate)[5] == "Yes"
    ensures !p.ctfExperience ==> Cells(p, localeDate)[5] == "No"
    ensures p.teamPreference == "team" ==> Cells(p, localeDate)[6] == "Team"
    ensures p.teamPreference != "team" ==> Cells(p, localeDate)[6] == "Solo"
  {
  }

  function Line(p: Profile, localeDate: string -> string): string {
    Join(Cells(p, localeDate), ',')
  }

  function HeaderLine(): string {
    Join(Headers, ',')
  }

  function RecordLines(data: seq<Profile>, localeDate: string -> string): seq<string> {
    seq(|data|, i requires 0 <= i < |data| => Line(data[i], localeDate))
  }

  /** The whole file: the header line, then one line per profile in order, joined by "\n". */
  function Content(data: seq<Profile>, localeDate: string -> string): string {
    Join([HeaderLine()] + RecordLines(data, localeDate), '\n')
  }

  /** None of the profile's exported values holds a line feed. */
  predicate SingleLine(p: Profile, localeDate: string -> string) {
    && '\n' !in p.fullName.GetOr("") && '\n' !in p.email
    && '\n' !in p.phoneNumber.GetOr("") && '\n' !in p.facebookUrl.GetOr("")
    && '\n' !in p.university.GetOr("") && '\n' !in localeDate(p.createdAt)
  }

  /** None of the profile's exported values holds a comma. */
  predicate CommaFree(p: Profile, localeDate: string -> string) {
    && ',' !in p.fullName.GetOr("") && ',' !in p.email
    && ',' !in p.phoneNumber.GetOr("") && ',' !in p.facebookUrl.GetOr("")
    && ',' !in p.university.GetOr("") && ',' !in localeDate(p.createdAt)
  }

  lemma CellsAvoid(p: Profile, localeDate: string -> string, c: char)
    requires c != '"' && c !in "Yes" && c !in "No" && c !in "Team" && c !in "Solo"
    requires && c !in p.fullName.GetOr("") && c !in p.email
             && c !in p.phoneNumber.GetOr("") && c !in p.facebookUrl.GetOr("")
             && c !in p.university.GetOr("") && c !in localeDate(p.createdAt)
    ensures Free(Cells(p, localeDate), c)
  {
    var cells := Cells(p, localeDate);
    QuotedAvoids(p.fullName.GetOr(""), c);
    QuotedAvoids(p.email, c);
    QuotedAvoids(p.phoneNumber.GetOr(""), c);
    QuotedAvoids(p.facebookUrl.GetOr(""), c);
    QuotedAvoids(p.university.GetOr(""), c);
    WordCells(p, localeDate);
    forall i | 0 <= i < |cells| ensures c !in cells[i] {
      if i == 5 {
        assert cells[5] == "Yes" || cells[5] == "No";
      } else if i == 6 {
        assert cells[6] == "Team" || cells[6] == "Solo";
      }
    }
  }

  /** Quoting adds only double quotes. */
  lemma QuotedAvoids(v: string, c: char)
    requires c != '"' && c !in v
    ensures c !in Quoted(v)
  {
  }

  /** The header line splits on commas into exactly the eight column names. */
  lemma HeaderCells()
    ensures Split(HeaderLine(), ',') == Headers
  {
    assert Free(Headers, ',');
    SplitJoin(Headers, ',');
  }

  /** A line of comma-free values splits back into its eight cells. */
  lemma LineCells(p: Profile, localeDate: string -> string)
    requires CommaFree(p, localeDate)
    ensures Split(Line(p, localeDate), ',') == Cells(p, localeDate)
  {
    CellsAvoid(p, localeDate, ',');
    SplitJoin(Cells(p, localeDate), ',');
  }

  lemma HeaderLineSingle()
    ensures '\n' !in HeaderLine()
  {
    assert Free(Headers, '\n');
    JoinAvoids(Headers, ',', '\n');
  }

  lemma RecordLineSingle(p: Profile, localeDate: string -> string)
    requires SingleLine(p, localeDate)
    ensures '\n' !in Line(p, localeDate)
  {
    CellsAvoid(p, localeDate, '\n');
    JoinAvoids(Cells(p, localeDate), ',', '\n');
  }

  /**
   * The file has one line more than there are profiles: the header first,
   * then each profile's line in the order the profiles were fetched.
   */
  lemma ContentLines(data: seq<Profile>, localeDate: string -> string)
    requires forall i :: 0 <= i < |data| ==> SingleLine(data[i], localeDate)
    ensures var lines := Split(Content(data, localeDate), '\n');
      && |lines| == |data| + 1
      && lines[0] == HeaderLine()
      && forall i :: 0 <= i < |data| ==> lines[i + 1] == Line(data[i], localeDate)
  {
    var records := RecordLines(data, localeDate);
    assert Free(records, '\n') by {
      forall i | 0 <= i < |records| ensures '\n' !in records[i] {
        RecordLineSingle(data[i], localeDate);
      }
    }
    HeaderLineSingle();
    var all := [HeaderLine()] + records;
    assert Free(all, '\n') by {
      forall i | 0 <= i < |all| ensures '\n' !in all[i] {
        if i > 0 {
          assert all[i] == records[i - 1];
        }
      }
    }
    SplitJoin(all, '\n');
    assert Split(Content(data, localeDate), '\n') == all;
    forall i | 0 <= i < |data| ensures all[i + 1] == Line(data[i], localeDate) {
      assert all[i + 1] == RecordLines(data, localeDate)[i];
    }
  }

  /** Text is not escaped: a name is copied between the quotes as it is, quotes and commas included. */
  lemma NameCopiedVerbatim(p: Profile, localeDate: string -> string)
    requires p.fullName.Some?
    ensures StartsWith(Line(p, localeDate), "\"" + p.fullName.value + "\",")
  {
    var cells := Cells(p, localeDate);
    var line := Line(p, localeDate);
    assert line == cells[0] + [','] + Join(cells[1..], ',');
    var pre := "\"" + p.fullName.value + "\",";
    assert pre == cells[0] + [','];
    assert line[..|pre|] == pre;
  }
}
