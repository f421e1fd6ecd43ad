/**
 * The layout of `ASCIIART.box` (backend/app/common/utils.py lines 97-107):
 * the framed lines are returned instead of printed, in printing order.
 */
module AsciiBox {
  import opened Wrappers
  import opened Text

  /** `max()` raises `ValueError` on an empty sequence (line 99). */
  datatype BoxError = EmptyMaxArg

  /** Line 98: the lines of the content, each right-stripped. */
  function Lines(content: string): (r: seq<string>)
    ensures |r| == |Split(content)|
  {
    var pieces := Split(content);
    seq(|pieces|, i requires 0 <= i < |pieces| => RStrip(pieces[i]))
  }

  /** Line 99: the length of the longest non-blank line, or `None` when every line is blank. */
  function MaxWidth(lines: seq<string>): Option<nat>
    decreases |lines|
  {
    if lines == [] then None
    else
      var rest := MaxWidth(lines[1..]);
      if IsBlank(lines[0]) then rest
      else if rest.Some? && rest.value > |lines[0]| then rest
      else Some(|lines[0]|)
  }

  /**
   * The maximum is absent exactly when every line is blank; otherwise it is
   * the length of some non-blank line and no non-blank line is longer.
   */
  lemma {:induction false} MaxWidthSpec(lines: seq<string>)
    ensures MaxWidth(lines).None? <==> forall i | 0 <= i < |lines| :: IsBlank(lines[i])
    ensures MaxWidth(lines).Some? ==>
              exists i | 0 <= i < |lines| :: !IsBlank(lines[i]) && |lines[i]| == MaxWidth(lines).value
    ensures MaxWidth(lines).Some? ==>
              forall i | 0 <= i < |lines| && !IsBlank(lines[i]) :: |lines[i]| <= MaxWidth(lines).value
    decreases |lines|
  {
    if lines != [] {
      var tail := lines[1..];
      MaxWidthSpec(tail);
      assert forall i | 1 <= i < |lines| :: lines[i] == tail[i - 1];
      if MaxWidth(tail).Some? {
        var j :| 0 <= j < |tail| && !IsBlank(tail[j]) && |tail[j]| == MaxWidth(tail).value;
        assert lines[j + 1] == tail[j];
      }
    }
  }

  /** A right-stripped line, blank or not, is no longer than the maximum width. */
  lemma LineWithinWidth(content: string, w: nat, i: nat)
    requires MaxWidth(Lines(content)) == Some(w) && i < |Lines(content)|
    ensures |Lines(content)[i]| <= w
  {
    var line := Lines(content)[i];
    assert line == RStrip(Split(content)[i]);
    StrippedBlankIffEmpty(Split(content)[i]);
    MaxWidthSpec(Lines(content));
  }

  /** So no line at all is longer than the maximum width taken over the non-blank ones. */
  lemma MaxWidthBoundsStripped(content: string, w: nat)
    requires MaxWidth(Lines(content)) == Some(w)
    ensures forall i | 0 <= i < |Lines(content)| :: |Lines(content)[i]| <= w
  {
    forall i | 0 <= i < |Lines(content)|
      ensures |Lines(content)[i]| <= w
    {
      LineWithinWidth(content, w, i);
    }
  }

  /** Every line is blank after right-stripping exactly when every right-stripped line is empty. */
  lemma AllBlankIffAllEmpty(content: string)
    ensures (forall i | 0 <= i < |Lines(content)| :: IsBlank(Lines(content)[i]))
            <==> (forall i | 0 <= i < |Lines(content)| :: |Lines(content)[i]| == 0)
  {
    var lines := Lines(content);
    forall i | 0 <= i < |lines|
      ensures IsBlank(lines[i]) <==> |lines[i]| == 0
    {
      StrippedBlankIffEmpty(Split(content)[i]);
    }
  }

  /** Lines 102 and 107: the top and bottom border, a space and then `symbolHor` once per column of the inner width. */
  function Border(totalInnerWidth: int, symbolHor: string): string
  {
    " " + Repeat(symbolHor, totalInnerWidth)
  }

  /** Line 105: the line left-justified to the maximum width, with the padding on both sides. */
  function Padded(line: string, maxWidth: nat, padding: int): string
  {
    Spaces(padding) + LJust(line, maxWidth) + Spaces(padding)
  }

  /** Line 106: one framed line. */
  function Row(line: string, maxWidth: nat, padding: int, symbolVer: string): string
  {
    symbolVer + Padded(line, maxWidth, padding) + symbolVer
  }

  /** The framed rows of lines 103-106, one per line, in order. */
  function FrameRows(lines: seq<string>, maxWidth: nat, padding: int, symbolVer: string): (rows: seq<string>)
    ensures |rows| == |lines|
    decreases |lines|
  {
    if lines == [] then []
    else FrameRows(lines[..|lines| - 1], maxWidth, padding, symbolVer)
         + [Row(lines[|lines| - 1], maxWidth, padding, symbolVer)]
  }

  /** The `k`-th framed row frames the `k`-th line. */
  lemma {:induction false} FrameRowsAt(lines: seq<string>, maxWidth: nat, padding: int, symbolVer: string, k: nat)
    requires k < |lines|
    ensures FrameRows(lines, maxWidth, padding, symbolVer)[k] == Row(lines[k], maxWidth, padding, symbolVer)
    decreases |lines|
  {
    if k < |lines| - 1 {
      var init := lines[..|lines| - 1];
      FrameRowsAt(init, maxWidth, padding, symbolVer, k);
      assert init[k] == lines[k];
    }
  }

  /** Framing one more line appends its row. */
  lemma FrameRowsSnoc(lines: seq<string>, i: nat, maxWidth: nat, padding: int, symbolVer: string)
    requires i < |lines|
    ensures FrameRows(lines[..i + 1], maxWidth, padding, symbolVer)
            == FrameRows(lines[..i], maxWidth, padding, symbolVer) + [Row(lines[i], maxWidth, padding, symbolVer)]
  {
    assert lines[..i + 1][..i] == lines[..i];
  }

  /** The border, the framed rows of `lines`, and the border again. */
  function Framed(lines: seq<string>, maxWidth: nat, padding: int, symbolVer: string, symbolHor: string): seq<string>
  {
    var border := Border(maxWidth + padding * 2, symbolHor);
    [border] + FrameRows(lines, maxWidth, padding, symbolVer) + [border]
  }

  /**
   * Two lines more than there are lines to frame, a border first and last,
   * and in between each line framed, in order.
   */
  lemma FramedShape(lines: seq<string>, maxWidth: nat, padding: int, symbolVer: string, symbolHor: string)
    ensures var out := Framed(lines, maxWidth, padding, symbolVer, symbolHor);
            |out| == |lines| + 2 &&
            out[0] == Border(maxWidth + padding * 2, symbolHor) &&
            out[|out| - 1] == Border(maxWidth + padding * 2, symbolHor) &&
            forall i | 0 <= i < |lines| :: out[i + 1] == Row(lines[i], maxWidth, padding, symbolVer)
  {
    var out := Framed(lines, maxWidth, padding, symbolVer, symbolHor);
    var rows := FrameRows(lines, maxWidth, padding, symbolVer);
    forall i | 0 <= i < |lines|
      ensures out[i + 1] == Row(lines[i], maxWidth, padding, symbolVer)
    {
      FrameRowsAt(lines, maxWidth, padding, symbolVer, i);
      assert out[i + 1] == rows[i];
    }
  }

  /**
   * What `box` prints, line by line: the framed lines, or the `ValueError`
   * of line 99 when no line is non-blank.
   */
  function Layout(content: string, padding: int, symbolVer: string, symbolHor: string): (r: Result<seq<string>, BoxError>)
    ensures r.Failure? <==> MaxWidth(Lines(content)).None?
  {
    var lines := Lines(content);
    match MaxWidth(lines)
    case None => Failure(EmptyMaxArg)
    case Some(w) => Success(Framed(lines, w, padding, symbolVer, symbolHor))
  }

  /** `box` fails exactly when every line of the content is blank. */
  lemma LayoutFailsIffAllBlank(content: string, padding: int, symbolVer: string, symbolHor: string)
    ensures Layout(content, padding, symbolVer, symbolHor).Failure?
            <==> forall i | 0 <= i < |Lines(content)| :: |Lines(content)[i]| == 0
  {
    AllBlankIffAllEmpty(content);
    MaxWidthSpec(Lines(content));
  }

  /** A successful `box` prints the right-stripped lines framed to the maximum width. */
  lemma LayoutIsFramed(content: string, padding: int, symbolVer: string, symbolHor: string)
    requires Layout(content, padding, symbolVer, symbolHor).Success?
    ensures MaxWidth(Lines(content)).Some?
    ensures Layout(content, padding, symbolVer, symbolHor)
            == Success(Framed(Lines(content), MaxWidth(Lines(content)).value, padding, symbolVer, symbolHor))
  {
  }

  /**
   * The shape of a successful `box`: `len(content.split("\n")) + 2` lines, a
   * border first and last, and in between each right-stripped line framed,
   * in the original order.
   */
  lemma LayoutShape(content: string, padding: int, symbolVer: string, symbolHor: string)
    requires Layout(content, padding, symbolVer, symbolHor).Success?
    ensures MaxWidth(Lines(content)).Some?
    ensures var out, w := Layout(content, padding, symbolVer, symbolHor).value, MaxWidth(Lines(content)).value;
            |out| == |Split(content)| + 2 &&
            out[0] == Border(w + padding * 2, symbolHor) &&
            out[|out| - 1] == Border(w + padding * 2, symbolHor) &&
            forall i | 0 <= i < |Lines(content)| :: out[i + 1] == Row(Lines(content)[i], w, padding, symbolVer)
  {
    LayoutIsFramed(content, padding, symbolVer, symbolHor);
    FramedShape(Lines(content), MaxWidth(Lines(content)).value, padding, symbolVer, symbolHor);
  }

  /**
   * `box(content, padding, symbol_ver, symbol_hor)`, returning the lines it
   * prints instead of printing them.
   */
  method Box(content: string, padding: int, symbolVer: string, symbolHor: string)
    returns (r: Result<seq<string>, BoxError>)
    ensures r == Layout(content, padding, symbolVer, symbolHor)
  {
    var lines := Lines(content);
    var widest := MaxWidth(lines);
    if widest.None? {
      return Failure(EmptyMaxArg);
    }
    var maxWidth := widest.value;
    var totalInnerWidth := maxWidth + padding * 2;
    var border := Border(totalInnerWidth, symbolHor);
    var out := [border];
    var i := 0;
    while i < |lines|
      invariant 0 <= i <= |lines|
      invariant out == [border] + FrameRows(lines[..i], maxWidth, padding, symbolVer)
    {
      var clean := RStrip(lines[i]);
      assert clean == lines[i] by {
        RStripIdempotent(Split(content)[i]);
      }
      var padded := Spaces(padding) + LJust(clean, maxWidth) + Spaces(padding);
      FrameRowsSnoc(lines, i, maxWidth, padding, symbolVer);
      out := out + [symbolVer + padded + symbolVer];
      i := i + 1;
    }
    assert lines[..i] == lines;
    out := out + [border];
    r := Success(out);
  }

  /**
   * A row is the line left-justified to `maxWidth`, the padding on both sides
   * (none when it is negative, as `" " * padding` is then empty) and a bar at
   * each end; a border is one space and `symbolHor` once per inner column.
   */
  lemma RowWidth(line: string, maxWidth: nat, padding: int, symbolVer: string, symbolHor: string)
    requires |line| <= maxWidth
    ensures |Row(line, maxWidth, padding, symbolVer)|
            == 2 * |symbolVer| + maxWidth + 2 * (if padding <= 0 then 0 else padding)
    ensures |Border(maxWidth + padding * 2, symbolHor)|
            == 1 + (if maxWidth + padding * 2 <= 0 then 0 else (maxWidth + padding * 2) * |symbolHor|)
  {
    if maxWidth + padding * 2 > 0 {
      RepeatLength(symbolHor, maxWidth + padding * 2);
    }
  }

  /**
   * Every middle line of a successful `box` is `2 * len(symbol_ver)` plus
   * `max_width + 2 * padding` characters long, and with a non-negative padding
   * and a one-character `symbol_hor` the borders span exactly the same inner
   * width, so the frame closes.
   */
  lemma LayoutWidths(content: string, padding: int, symbolVer: string, symbolHor: string)
    requires Layout(content, padding, symbolVer, symbolHor).Success?
    ensures MaxWidth(Lines(content)).Some?
    ensures var out, w := Layout(content, padding, symbolVer, symbolHor).value, MaxWidth(Lines(content)).value;
            forall i | 1 <= i < |out| - 1 ::
              |out[i]| == 2 * |symbolVer| + w + 2 * (if padding <= 0 then 0 else padding)
    ensures var out, w := Layout(content, padding, symbolVer, symbolHor).value, MaxWidth(Lines(content)).value;
            padding >= 0 && |symbolHor| == 1 ==>
              |out[0]| == 1 + w + 2 * padding && |out[|out| - 1]| == 1 + w + 2 * padding
  {
    var lines := Lines(content);
    var w := MaxWidth(lines).value;
    var out := Layout(content, padding, symbolVer, symbolHor).value;
    LayoutShape(content, padding, symbolVer, symbolHor);
    MaxWidthBoundsStripped(content, w);
    forall i | 1 <= i < |out| - 1
      ensures |out[i]| == 2 * |symbolVer| + w + 2 * (if padding <= 0 then 0 else padding)
    {
      assert out[i] == Row(lines[i - 1], w, padding, symbolVer);
      RowWidth(lines[i - 1], w, padding, symbolVer, symbolHor);
    }
  }

  /** The text between a row's frame and padding, right-stripped, is the line it frames. */
  lemma RowRecoversLine(line: string, maxWidth: nat, padding: nat, symbolVer: string)
    requires RStrip(line) == line && |line| <= maxWidth
    ensures var row := Row(line, maxWidth, padding, symbolVer);
            |symbolVer| + padding <= |row| - |symbolVer| - padding &&
            RStrip(row[|symbolVer| + padding .. |row| - |symbolVer| - padding]) == line
  {
    var row := Row(line, maxWidth, padding, symbolVer);
    var inner := LJust(line, maxWidth);
    assert row[|symbolVer| ..|row| - |symbolVer|] == Padded(line, maxWidth, padding);
    assert Padded(line, maxWidth, padding)[padding .. |inner| + padding] == inner;
    assert row[|symbolVer| + padding .. |row| - |symbolVer| - padding] == inner;
    RStripLJust(line, maxWidth);
  }

  /** Every line `box` frames is a right-stripped line: stripping it again changes nothing. */
  lemma LinesAreStripped(content: string, i: nat)
    requires i < |Lines(content)|
    ensures RStrip(Lines(content)[i]) == Lines(content)[i]
  {
    RStripIdempotent(Split(content)[i]);
  }
}
