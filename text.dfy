/**
 * The few Python `str` operations that `ASCIIART.box`
 * (backend/app/common/utils.py lines 97-107) relies on, over code points.
 */
module Text {

  /** Python's `str.isspace()` for one code point: the characters `rstrip()` and `strip()` remove. */
  predicate IsSpace(c: char)
  {
    ('\U{9}' <= c <= '\U{D}') || ('\U{1C}' <= c <= '\U{20}') ||
    c == '\U{85}' || c == '\U{A0}' || c == '\U{1680}' ||
    ('\U{2000}' <= c <= '\U{200A}') || c == '\U{2028}' || c == '\U{2029}' ||
    c == '\U{202F}' || c == '\U{205F}' || c == '\U{3000}'
  }

  /**
   * `s.strip()` is empty.  Stripping both ends leaves nothing exactly when
   * stripping the right end does (see BlankIffAllSpace).
   */
  predicate IsBlank(s: string)
  {
    |RStrip(s)| == 0
  }

  /** A string is blank exactly when every code point of it is white space. */
  lemma BlankIffAllSpace(s: string)
    ensures IsBlank(s) <==> forall i | 0 <= i < |s| :: IsSpace(s[i])
  {
    RStripSpec(s);
    var r := RStrip(s);
    if r != "" {
      assert r[|r| - 1] == s[|r| - 1];
    }
  }

  /** Python's `s.rstrip()`: the longest prefix of `s` that does not end in white space. */
  function RStrip(s: string): (r: string)
    ensures |r| <= |s|
    decreases |s|
  {
    if s != [] && IsSpace(s[|s| - 1]) then RStrip(s[..|s| - 1]) else s
  }

  /**
   * `rstrip` keeps a prefix, the kept prefix does not end in white space, and
   * everything it drops is white space.
   */
  lemma {:induction false} RStripSpec(s: string)
    ensures RStrip(s) <= s
    ensures RStrip(s) == [] || !IsSpace(RStrip(s)[|RStrip(s)| - 1])
    ensures forall i | |RStrip(s)| <= i < |s| :: IsSpace(s[i])
    decreases |s|
  {
    if s != [] && IsSpace(s[|s| - 1]) {
      RStripSpec(s[..|s| - 1]);
    }
  }

  /** Right-stripping twice is right-stripping once. */
  lemma RStripIdempotent(s: string)
    ensures RStrip(RStrip(s)) == RStrip(s)
  {
    RStripSpec(s);
  }

  /** A right-stripped line is blank exactly when it is empty. */
  lemma StrippedBlankIffEmpty(s: string)
    ensures IsBlank(RStrip(s)) <==> |RStrip(s)| == 0
  {
    RStripIdempotent(s);
  }

  /**
   * Python's `s * n`: `n` copies of `s` joined together, or the empty string
   * when `n` is zero or negative.
   */
  function Repeat(s: string, n: int): (r: string)
    ensures n <= 0 ==> r == ""
    ensures |s| == 1 ==> |r| == (if n <= 0 then 0 else n)
    decreases if n <= 0 then 0 else n
  {
    if n <= 0 then "" else s + Repeat(s, n - 1)
  }

  /** `s * n` has `n` times the length of `s`. */
  lemma {:induction false} RepeatLength(s: string, n: nat)
    ensures |Repeat(s, n)| == n * |s|
    decreases n
  {
    if n > 0 {
      RepeatLength(s, n - 1);
      assert |Repeat(s, n)| == |s| + (n - 1) * |s|;
    }
  }

  /** Repeating a one-character string gives that character in every position. */
  lemma {:induction false} RepeatChar(c: char, n: int)
    ensures forall i | 0 <= i < |Repeat([c], n)| :: Repeat([c], n)[i] == c
    decreases if n <= 0 then 0 else n
  {
    if n > 0 {
      RepeatChar(c, n - 1);
      assert Repeat([c], n) == [c] + Repeat([c], n - 1);
    }
  }

  /** `n` spaces (`" " * n`). */
  function Spaces(n: int): (r: string)
    ensures |r| == (if n <= 0 then 0 else n)
  {
    Repeat(" ", n)
  }

  /** Python's `s.ljust(width)`: `s`, padded on the right with spaces up to `width`. */
  function LJust(s: string, width: int): (r: string)
    ensures |r| == (if width <= |s| then |s| else width)
  {
    s + Spaces(width - |s|)
  }

  /** `ljust` keeps the string as a prefix and adds nothing but spaces. */
  lemma LJustSpec(s: string, width: int)
    ensures s <= LJust(s, width)
    ensures forall i | |s| <= i < |LJust(s, width)| :: LJust(s, width)[i] == ' '
  {
    RepeatChar(' ', width - |s|);
    assert LJust(s, width) == s + Spaces(width - |s|);
  }

  /** Right-stripping a right-stripped string followed by spaces gives the string back. */
  lemma {:induction false} RStripTrailingSpaces(s: string, n: nat)
    requires RStrip(s) == s
    ensures RStrip(s + Spaces(n)) == s
    decreases n
  {
    if n > 0 {
      var padded := s + Spaces(n);
      assert padded[..|padded| - 1] == s + Spaces(n - 1) by {
        SpacesSnoc(n - 1);
      }
      RepeatChar(' ', n);
      assert IsSpace(padded[|padded| - 1]);
      RStripTrailingSpaces(s, n - 1);
    } else {
      assert s + Spaces(0) == s;
    }
  }

  /** One more space on the right is one more space. */
  lemma SpacesSnoc(n: nat)
    ensures Spaces(n) + " " == Spaces(n + 1)
  {
    RepeatChar(' ', n);
    RepeatChar(' ', n + 1);
    assert |Spaces(n) + " "| == |Spaces(n + 1)|;
  }

  /** Padding a right-stripped string with `ljust` and stripping again gives it back. */
  lemma RStripLJust(s: string, width: int)
    requires RStrip(s) == s
    ensures RStrip(LJust(s, width)) == s
  {
    RStripTrailingSpaces(s, if width - |s| <= 0 then 0 else width - |s|);
  }

  // ---------------------------------------------------------------------------
  // split("\n") and its inverse

  /** Python's `s.split("\n")`: the pieces between newlines, always at least one. */
  function Split(s: string): (r: seq<string>)
    ensures |r| >= 1
    decreases |s|
  {
    if s == [] then [""]
    else
      var rest := Split(s[1..]);
      if s[0] == '\n' then [""] + rest
      else [[s[0]] + rest[0]] + rest[1..]
  }

  /** No piece of a split holds a newline. */
  predicate NewlineFree(pieces: seq<string>)
  {
    forall i, j | 0 <= i < |pieces| && 0 <= j < |pieces[i]| :: pieces[i][j] != '\n'
  }

  /** The pieces of `split("\n")` hold no newline. */
  lemma {:induction false} SplitNewlineFree(s: string)
    ensures NewlineFree(Split(s))
    decreases |s|
  {
    if s != [] {
      SplitNewlineFree(s[1..]);
      var rest := Split(s[1..]);
      if s[0] != '\n' {
        var r := [[s[0]] + rest[0]] + rest[1..];
        forall i, j | 0 <= i < |r| && 0 <= j < |r[i]|
          ensures r[i][j] != '\n'
        {
          if i == 0 {
            if j > 0 { assert r[0][j] == rest[0][j - 1]; }
          } else {
            assert r[i] == rest[i];
          }
        }
      } else {
        var r := [""] + rest;
        forall i, j | 0 <= i < |r| && 0 <= j < |r[i]|
          ensures r[i][j] != '\n'
        {
          assert r[i] == rest[i - 1];
        }
      }
    }
  }

  /** Python's `"\n".join(pieces)`. */
  function Join(pieces: seq<string>): string
    requires |pieces| >= 1
    decreases |pieces|
  {
    if |pieces| == 1 then pieces[0] else pieces[0] + "\n" + Join(pieces[1..])
  }

  /** Joining the pieces of a split with newlines gives the original string. */
  lemma {:induction false} JoinSplit(s: string)
    ensures Join(Split(s)) == s
    decreases |s|
  {
    if s != [] {
      var rest := Split(s[1..]);
      JoinSplit(s[1..]);
      if s[0] == '\n' {
        assert ([""] + rest)[1..] == rest;
        assert s == "\n" + s[1..];
      } else if |rest| == 1 {
        assert s == [s[0]] + s[1..];
      } else {
        var r := [[s[0]] + rest[0]] + rest[1..];
        assert r[1..] == rest[1..];
        assert Join(rest) == rest[0] + "\n" + Join(rest[1..]);
        assert s == [s[0]] + s[1..];
      }
    }
  }

  /** Splitting newline-free pieces joined with newlines gives the pieces back. */
  lemma {:induction false} SplitJoin(pieces: seq<string>)
    requires |pieces| >= 1 && NewlineFree(pieces)
    ensures Split(Join(pieces)) == pieces
    decreases |pieces|, |pieces[0]|
  {
    if |pieces| == 1 {
      SplitSingle(pieces[0]);
    } else if pieces[0] == "" {
      var s := Join(pieces);
      assert s == "\n" + Join(pieces[1..]);
      assert s[1..] == Join(pieces[1..]);
      SplitJoin(pieces[1..]);
      assert Split(s) == [""] + pieces[1..];
    } else {
      var s := Join(pieces);
      var shorter := [pieces[0][1..]] + pieces[1..];
      assert shorter[1..] == pieces[1..];
      assert NewlineFree(shorter) by {
        forall i, j | 0 <= i < |shorter| && 0 <= j < |shorter[i]| ensures shorter[i][j] != '\n' {
          if i == 0 { assert shorter[0][j] == pieces[0][j + 1]; } else { assert shorter[i] == pieces[i]; }
        }
      }
      assert s == [pieces[0][0]] + Join(shorter);
      assert s[1..] == Join(shorter);
      SplitJoin(shorter);
      assert pieces[0] == [pieces[0][0]] + shorter[0];
      assert pieces == [[pieces[0][0]] + shorter[0]] + shorter[1..];
    }
  }

  /** A newline-free string splits into itself alone. */
  lemma {:induction false} SplitSingle(s: string)
    requires forall j | 0 <= j < |s| :: s[j] != '\n'
    ensures Split(s) == [s]
    decreases |s|
  {
    if s != [] {
      SplitSingle(s[1..]);
      assert s == [s[0]] + s[1..];
    }
  }
}
