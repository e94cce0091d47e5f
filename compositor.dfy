/**
 * merge_ascii_and_info: the ASCII art is framed by two border lines of '=' (and, when the
 * panel is taller, centred between '@' fill lines), then art and panel are zipped line by
 * line with six spaces between them.
 */
module Compositor {
  import opened Text

  /** The spaces between the art column and the panel column. */
  const Padding := 6

  /** The art width: the length of the longest art line, 0 when there is no art. */
  function ArtWidth(art: seq<string>): (w: nat)
    ensures forall i :: 0 <= i < |art| ==> |art[i]| <= w
    ensures |art| == 0 ==> w == 0
    ensures |art| > 0 ==> exists i :: 0 <= i < |art| && |art[i]| == w
  {
    if |art| == 0 then 0 else Max(|art[|art| - 1]|, ArtWidth(art[..|art| - 1]))
  }

  /**
   * The fill lines above and below the art. When the panel leaves more room than the art and
   * its two borders need, the room is split with the extra line, if any, at the bottom;
   * otherwise there is no fill.
   */
  function Fill(artHeight: nat, infoHeight: nat): (r: (nat, nat))
    ensures r.0 <= r.1 <= r.0 + 1
    ensures infoHeight > artHeight + 2 ==> artHeight + 2 + r.0 + r.1 == infoHeight
    ensures infoHeight <= artHeight + 2 ==> r == (0, 0)
  {
    if infoHeight > artHeight && infoHeight - 2 > artHeight then
      var top := (infoHeight - 2 - artHeight) / 2;
      (top, infoHeight - 2 - artHeight - top)
    else
      (0, 0)
  }

  /** A column of lines: a border, top fill lines, the art, bottom fill lines, a border. */
  function Column<T>(border: T, fill: T, art: seq<T>, top: nat, bottom: nat): seq<T>
  {
    [border] + Copies(fill, top) + art + Copies(fill, bottom) + [border]
  }

  lemma {:induction false} ColumnShape<T>(border: T, fill: T, art: seq<T>, top: nat, bottom: nat)
    ensures var f := Column(border, fill, art, top, bottom);
      && |f| == top + |art| + bottom + 2
      && f[0] == border && f[|f| - 1] == border
      && (forall j :: 1 + top <= j < 1 + top + |art| ==> f[j] == art[j - 1 - top])
      && (forall j :: 1 <= j < 1 + top ==> f[j] == fill)
      && (forall j :: 1 + top + |art| <= j < |f| - 1 ==> f[j] == fill)
  {
    var f := Column(border, fill, art, top, bottom);
    var above := Copies(fill, top);
    var below := Copies(fill, bottom);
    assert f == [border] + above + art + below + [border];
    forall j | 1 + top + |art| <= j < |f| - 1
      ensures f[j] == fill
    {
      assert f[j] == below[j - 1 - top - |art|];
    }
  }

  /** The art column before the zip: border, fill, the art itself, fill, border. */
  function Framed(art: seq<string>, infoHeight: nat): (f: seq<string>)
    ensures |f| == Max(|art| + 2, infoHeight)
    ensures forall j :: 0 <= j < |f| ==> |f[j]| <= ArtWidth(art)
  {
    var w := ArtWidth(art);
    var r := Fill(|art|, infoHeight);
    ColumnShape(Copies('=', w), Copies('@', w), art, r.0, r.1);
    Column(Copies('=', w), Copies('@', w), art, r.0, r.1)
  }

  /**
   * The art column opens and closes with a border of '=' as wide as the art, holds the art
   * lines contiguously and in order after top_fill lines of '@', and only '@' lines follow
   * the art up to the closing border.
   */
  lemma FramedShape(art: seq<string>, infoHeight: nat)
    ensures var f := Framed(art, infoHeight); var w := ArtWidth(art); var top := Fill(|art|, infoHeight).0;
      && f[0] == Copies('=', w) && f[|f| - 1] == Copies('=', w)
      && (forall j :: 1 + top <= j < 1 + top + |art| ==> f[j] == art[j - 1 - top])
      && (forall j :: 1 <= j < 1 + top ==> f[j] == Copies('@', w))
      && (forall j :: 1 + top + |art| <= j < |f| - 1 ==> f[j] == Copies('@', w))
  {
    var w := ArtWidth(art);
    var r := Fill(|art|, infoHeight);
    ColumnShape(Copies('=', w), Copies('@', w), art, r.0, r.1);
  }

  lemma ColumnAt<T>(border: T, fill: T, art: seq<T>, top: nat, bottom: nat, k: nat)
    requires k < |art|
    ensures 1 + top + k < |Column(border, fill, art, top, bottom)| - 1
    ensures Column(border, fill, art, top, bottom)[1 + top + k] == art[k]
  {
    ColumnShape(border, fill, art, top, bottom);
  }

  /** Art line k sits in the art column after the opening border and top_fill fill lines. */
  lemma FramedArtAt(art: seq<string>, infoHeight: nat, k: nat)
    requires k < |art|
    ensures 1 + Fill(|art|, infoHeight).0 + k < |Framed(art, infoHeight)| - 1
    ensures Framed(art, infoHeight)[1 + Fill(|art|, infoHeight).0 + k] == art[k]
  {
    var w := ArtWidth(art);
    var r := Fill(|art|, infoHeight);
    ColumnAt(Copies('=', w), Copies('@', w), art, r.0, r.1, k);
  }

  /** Line i of a column, or the empty string past its end. */
  function Part(lines: seq<string>, i: int): string
  {
    if 0 <= i < |lines| then lines[i] else ""
  }

  /**
   * The lines merge_ascii_and_info returns: line i is the i-th line of the art column
   * left-justified to the art width, six spaces, and the i-th panel line or "" past its end.
   */
  function Merged(art: seq<string>, info: seq<string>): (m: seq<string>)
    ensures |m| == Max(|art| + 2, |info|)
  {
    var f := Framed(art, |info|);
    var w := ArtWidth(art);
    seq(Max(|f|, |info|), i => Row(Part(f, i), w, Part(info, i)))
  }

  /**
   * One output row: the art part padded with spaces to the art width (kept whole when
   * longer), six spaces, then the panel part.
   */
  function Row(artPart: string, width: int, infoPart: string): (r: string)
    ensures var k := Max(|artPart|, width);
      && |r| == k + Padding + |infoPart|
      && r[..k] == LJust(artPart, width)
      && r[k..k + Padding] == Copies(' ', Padding)
      && r[k + Padding..] == infoPart
  {
    var left := LJust(artPart, width);
    ThreeSlices(left, Copies(' ', Padding), infoPart);
    left + Copies(' ', Padding) + infoPart
  }

  /**
   * The first half of merge_ascii_and_info: frame the art, centred between fill lines when the
   * panel is taller, otherwise between the two borders alone with the panel padded by empty
   * lines to the same height.
   */
  method FrameArt(asciiLines: seq<string>, infoLines: seq<string>) returns (art: seq<string>, info: seq<string>)
    ensures art == Framed(asciiLines, |infoLines|)
    ensures |infoLines| > |asciiLines| ==> info == infoLines
    ensures |infoLines| <= |asciiLines| ==> info == infoLines + Copies("", |art| - |infoLines|)
  {
    var asciiWidth := ArtWidth(asciiLines);
    var asciiHeight := |asciiLines|;
    var infoHeight := |infoLines|;
    var fillLine := Copies('@', asciiWidth);
    var borderLine := Copies('=', asciiWidth);
    art := asciiLines;
    info := infoLines;
    if infoHeight > asciiHeight {
      var availableHeight := infoHeight - 2;
      var topFill, bottomFill;
      if availableHeight > asciiHeight {
        topFill := (availableHeight - asciiHeight) / 2;
        bottomFill := availableHeight - asciiHeight - topFill;
      } else {
        topFill := 0;
        bottomFill := 0;
      }
      art := [borderLine] + Copies(fillLine, topFill) + art + Copies(fillLine, bottomFill) + [borderLine];
      assert (topFill, bottomFill) == Fill(asciiHeight, infoHeight);
      assert art == Column(borderLine, fillLine, asciiLines, topFill, bottomFill);
    } else {
      art := [borderLine] + art + [borderLine];
      info := info + Copies("", |art| - |info|);
      NoFill(borderLine, fillLine, asciiLines);
    }
  }

  /**
   * merge_ascii_and_info: frame the art, then zip the art column and the panel line by line,
   * for as many lines as the longer of the two has.
   */
  method MergeAsciiAndInfo(asciiLines: seq<string>, infoLines: seq<string>) returns (result: seq<string>)
    ensures result == Merged(asciiLines, infoLines)
  {
    var asciiWidth := ArtWidth(asciiLines);
    var art, info := FrameArt(asciiLines, infoLines);
    PaddedPart(infoLines, |art| - |infoLines|);
    ghost var merged := Merged(asciiLines, infoLines);

    result := [];
    var maxLines := Max(|art|, |info|);
    var i := 0;
    while i < maxLines
      invariant 0 <= i <= maxLines == |merged|
      invariant result == merged[..i]
    {
      var asciiPart := if i < |art| then art[i] else "";
      var infoPart := if i < |info| then info[i] else "";
      assert asciiPart == Part(art, i);
      assert infoPart == Part(infoLines, i);
      MergedAt(asciiLines, infoLines, i);
      PrefixStep(merged, i);
      result := result + [Row(asciiPart, asciiWidth, infoPart)];
      i := i + 1;
    }
  }

  /** Without fill lines the column is the art between two borders. */
  lemma NoFill<T>(border: T, fill: T, art: seq<T>)
    ensures Column(border, fill, art, 0, 0) == [border] + art + [border]
  {
    assert Copies(fill, 0) == [];
  }

  /** Padding a column with empty lines changes none of the lines Part picks from it. */
  lemma PaddedPart(lines: seq<string>, n: int)
    ensures forall i :: Part(lines + Copies("", n), i) == Part(lines, i)
  {
  }

  // ---------------------------------------------------------------------------------------
  // What the merged lines look like

  /**
   * Every merged line is the art column's line padded to exactly the art width, the six
   * spaces, then the panel line (or nothing past the panel's end).
   */
  lemma MergedLine(art: seq<string>, info: seq<string>, i: int)
    requires 0 <= i < |Merged(art, info)|
    ensures var m := Merged(art, info); var w := ArtWidth(art);
      && |m[i]| == w + Padding + |Part(info, i)|
      && m[i][..w] == LJust(Part(Framed(art, |info|), i), w)
      && m[i][w..w + Padding] == Copies(' ', Padding)
      && m[i][w + Padding..] == Part(info, i)
  {
    var f := Framed(art, |info|);
    assert Merged(art, info)[i] == Row(Part(f, i), ArtWidth(art), Part(info, i));
    assert |Part(f, i)| <= ArtWidth(art);
  }

  lemma MergedAt(art: seq<string>, info: seq<string>, i: int)
    requires 0 <= i < |Merged(art, info)|
    ensures Merged(art, info)[i] == Row(Part(Framed(art, |info|), i), ArtWidth(art), Part(info, i))
  {
  }

  lemma ThreeSlices(a: string, b: string, c: string)
    ensures var s := a + b + c;
      && |s| == |a| + |b| + |c|
      && s[..|a|] == a && s[|a|..|a| + |b|] == b && s[|a| + |b|..] == c
  {
    var s := a + b + c;
    assert s[..|a|] == a;
    assert s[|a|..|a| + |b|] == b;
    assert s[|a| + |b|..] == c;
  }

  /** So no merged line is shorter than the art width plus the padding. */
  lemma MergedWidth(art: seq<string>, info: seq<string>)
    ensures var m := Merged(art, info);
      forall i :: 0 <= i < |m| ==> |m[i]| >= ArtWidth(art) + Padding
  {
    var m := Merged(art, info);
    forall i | 0 <= i < |m|
      ensures |m[i]| >= ArtWidth(art) + Padding
    {
      MergedLine(art, info, i);
    }
  }

  /** The first and the last merged line start with a border of '=' as wide as the art. */
  lemma MergedBorders(art: seq<string>, info: seq<string>)
    ensures var m := Merged(art, info); var w := ArtWidth(art);
      && m[0][..w] == Copies('=', w)
      && m[|m| - 1][..w] == Copies('=', w)
  {
    var m := Merged(art, info);
    var f := Framed(art, |info|);
    MergedLine(art, info, 0);
    MergedLine(art, info, |m| - 1);
    assert Part(f, 0) == f[0];
    assert Part(f, |m| - 1) == f[|f| - 1];
  }

  /**
   * Art line k sits, in order, at row 1 + top_fill + k of the result: that row is built from
   * art line k and the panel line of the same row.
   */
  lemma ArtInPlace(art: seq<string>, info: seq<string>, k: int)
    requires 0 <= k < |art|
    ensures 1 + Fill(|art|, |info|).0 + k < |Merged(art, info)| - 1
    ensures var row := 1 + Fill(|art|, |info|).0 + k;
      Merged(art, info)[row] == Row(art[k], ArtWidth(art), Part(info, row))
  {
    var row := 1 + Fill(|art|, |info|).0 + k;
    var f := Framed(art, |info|);
    FramedArtAt(art, |info|, k);
    assert row < |f| - 1 && f[row] == art[k];
    MergedAt(art, info, row);
    RowOf(Merged(art, info)[row], Part(f, row), art[k], ArtWidth(art), Part(info, row));
  }

  lemma RowOf(line: string, a: string, b: string, w: int, infoPart: string)
    requires line == Row(a, w, infoPart) && a == b
    ensures line == Row(b, w, infoPart)
  {
  }

  /** Hence that row starts with the art line itself, unchanged, padded to the art width. */
  lemma ArtLineKept(art: seq<string>, info: seq<string>, k: int)
    requires 0 <= k < |art|
    ensures var row := 1 + Fill(|art|, |info|).0 + k;
      && row < |Merged(art, info)|
      && Merged(art, info)[row][..ArtWidth(art)] == LJust(art[k], ArtWidth(art))
      && Merged(art, info)[row][..|art[k]|] == art[k]
  {
    var row := 1 + Fill(|art|, |info|).0 + k;
    ArtInPlace(art, info, k);
    var line := Row(art[k], ArtWidth(art), Part(info, row));
    assert line[..ArtWidth(art)] == LJust(art[k], ArtWidth(art));
    PrefixThrough(line, LJust(art[k], ArtWidth(art)), art[k], ArtWidth(art));
  }

  /** A prefix of a prefix of `s` is a prefix of `s`. */
  lemma PrefixThrough<T>(s: seq<T>, p: seq<T>, q: seq<T>, b: nat)
    requires b <= |s| && s[..b] == p
    requires |q| <= |p| && p[..|q|] == q
    ensures s[..|q|] == q
  {
    assert s[..b][..|q|] == s[..|q|];
  }

  /**
   * When the panel is taller than the art and its borders, the result is exactly as tall as
   * the panel and the art is centred: the fill rows under it outnumber those above by at
   * most one, and every row between the borders outside the art is fill.
   */
  lemma Centred(art: seq<string>, info: seq<string>)
    requires |info| > |art| + 2
    ensures var m := Merged(art, info); var w := ArtWidth(art);
      var top := Fill(|art|, |info|).0; var bottom := |m| - 2 - |art| - top;
      && |m| == |info|
      && top <= bottom <= top + 1
      && (forall j :: 1 <= j < 1 + top ==> m[j][..w] == Copies('@', w))
      && (forall j :: 1 + top + |art| <= j < |m| - 1 ==> m[j][..w] == Copies('@', w))
  {
    var m := Merged(art, info);
    var f := Framed(art, |info|);
    var w := ArtWidth(art);
    forall j | 1 <= j < |m| - 1 && (j < 1 + Fill(|art|, |info|).0 || 1 + Fill(|art|, |info|).0 + |art| <= j)
      ensures m[j][..w] == Copies('@', w)
    {
      MergedLine(art, info, j);
      assert Part(f, j) == f[j];
    }
  }

  /**
   * When the art with its borders is at least as tall as the panel, the result has one row
   * per art line plus the two borders, with no fill, and the panel lines run out into "".
   */
  lemma ArtTaller(art: seq<string>, info: seq<string>)
    requires |info| <= |art| + 2
    ensures var m := Merged(art, info);
      && |m| == |art| + 2
      && Fill(|art|, |info|) == (0, 0)
      && (forall i :: |info| <= i < |m| ==> m[i][ArtWidth(art) + Padding..] == "")
  {
    var m := Merged(art, info);
    forall i | |info| <= i < |m|
      ensures m[i][ArtWidth(art) + Padding..] == ""
    {
      MergedLine(art, info, i);
    }
  }
}
