/** The line buffer of OverlayText, a printf for OpenGL windows
    (include/alloutil/al_OverlayTextGL.hpp): lines are appended by printf,
    dropped from the front by draw until at most mMaxlines remain, and
    dropped all at once by clear. */
module OverlayTextGL {

  /** Size of the static buffer printf formats into, terminating NUL included. */
  const LineBufferSize: nat := 1024

  /** Modulus of `size_t` on the 64-bit targets the library is built for. */
  const SizeModulus: nat := 0x1_0000_0000_0000_0000

  /** The conversion of the `int` mMaxlines to `size_t` that the comparison
      `lines.size() > mMaxlines` performs: a negative bound becomes huge. */
  function SizeT(n: int): (r: nat)
    ensures r < SizeModulus
    ensures 0 <= n < SizeModulus ==> r == n
    ensures -(SizeModulus as int) <= n < 0 ==> r == n + SizeModulus
  {
    n % SizeModulus
  }

  /** The lines draw() keeps with bound n: the newest n of them, or all when
      there are no more than n. */
  function Trimmed(lines: seq<string>, n: nat): (r: seq<string>)
    ensures |r| == if |lines| <= n then |lines| else n
    ensures r == lines[|lines| - |r|..]
  {
    if |lines| > n then lines[|lines| - n..] else lines
  }

  /** Trimming is idempotent. */
  lemma TrimIdempotent(lines: seq<string>, n: nat)
    ensures Trimmed(Trimmed(lines, n), n) == Trimmed(lines, n)
  {
  }

  /** The newest line always survives a trim with a positive bound, as the last line. */
  lemma NewestLineSurvives(lines: seq<string>, line: string, n: nat)
    requires n > 0
    ensures var r := Trimmed(lines + [line], n); r != [] && r[|r| - 1] == line
  {
  }

  /** Trimming before an append and trimming after it agree once the buffer is
      trimmed again, so printf may leave the trim to the next draw. */
  lemma TrimCommutesWithAppend(lines: seq<string>, line: string, n: nat)
    ensures Trimmed(Trimmed(lines, n) + [line], n) == Trimmed(lines + [line], n)
  {
    var L := |lines|;
    var u := lines + [line];
    if L > n && n > 0 {
      assert (lines[L - n..] + [line])[1..] == u[L + 1 - n..];
    }
  }

  /** The line printf(fmt, ...) appends: the formatted text cut to the buffer
      (at most `cap` characters before the terminating NUL) and read back as a
      C string, so it also ends at the first NUL the text contains. Each
      element of `text` stands for one C `char`, that is one byte. */
  function CLine(text: string, cap: nat): (r: string)
    ensures |r| <= cap && |r| <= |text|
    ensures r == text[..|r|]
    ensures '\0' !in r
    ensures |r| < cap && |r| < |text| ==> text[|r|] == '\0'
  {
    if cap == 0 || text == [] || text[0] == '\0' then []
    else [text[0]] + CLine(text[1..], cap - 1)
  }

  /** An overlay's text buffer. */
  class OverlayText {
    var lines: seq<string>
    var maxLines: int

    /** OverlayText(fontfile, maxlines = 20): an empty buffer with the given bound. */
    constructor (maxlines: int := 20)
      ensures lines == [] && maxLines == maxlines
    {
      lines := [];
      maxLines := maxlines;
    }

    /** printf(std::string): one more line at the back, the others unchanged; no trim. */
    method PrintLine(line: string)
      modifies this`lines
      ensures lines == old(lines) + [line]
    {
      lines := lines + [line];
    }

    /** printf(fmt, ...), given the text vsnprintf would produce: one more line
        at the back holding at most 1023 characters of it; no trim. */
    method PrintFormatted(text: string)
      modifies this`lines
      ensures lines == old(lines) + [CLine(text, LineBufferSize - 1)]
      ensures |lines[|lines| - 1]| <= LineBufferSize - 1
    {
      var line := CLine(text, LineBufferSize - 1);
      lines := lines + [line];
    }

    /** The trim loop at the start of draw(): drops lines from the front until
        at most mMaxlines (read as size_t) remain; the rest is drawn. */
    method Draw()
      modifies this`lines
      ensures lines == Trimmed(old(lines), SizeT(maxLines))
      ensures |lines| <= SizeT(maxLines)
      ensures lines == old(lines)[|old(lines)| - |lines|..]
    {
      var bound := SizeT(maxLines);
      while |lines| > bound
        invariant |lines| <= |old(lines)|
        invariant lines == old(lines)[|old(lines)| - |lines|..]
        invariant |old(lines)| > bound ==> |lines| >= bound
        invariant |old(lines)| <= bound ==> lines == old(lines)
        decreases |lines|
      {
        lines := lines[1..];
      }
    }

    /** clear(): the buffer is empty. */
    method Clear()
      modifies this`lines
      ensures lines == []
    {
      lines := [];
    }
  }
}
