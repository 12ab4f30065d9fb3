/** `com.chamis.andre.util.StringUtil.padRight`. */
module StringUtil {
  import opened Common

  /** The exception `String.format` throws for a malformed `%-<n>s` pattern. */
  datatype FormatError =
    | MissingFormatWidth     // "%-0s": the flags are "-0" and there is no width
    | DuplicateFormatFlags   // "%--<n>s" for a negative `padding`: the flag '-' twice

  datatype Formatted = Formatted(text: string) | Thrown(error: FormatError)

  /** `n` spaces. */
  function Spaces(n: nat): (r: string)
    ensures |r| == n
    ensures forall i :: 0 <= i < n ==> r[i] == ' '
  {
    if n == 0 then "" else Spaces(n - 1) + " "
  }

  /**
   * `padRight` as written: `null` becomes "", then `String.format("%-" + padding + "s", s)`.
   * Java's formatter rejects the pattern when `padding` is not positive.
   */
  function PadRightAsWritten(s: Option<string>, padding: int): (r: Formatted)
    ensures r.Thrown? <==> padding <= 0
    ensures r.Formatted? ==> |r.text| >= padding
  {
    var text := if s.None? then "" else s.value;
    if padding < 0 then Thrown(DuplicateFormatFlags)
    else if padding == 0 then Thrown(MissingFormatWidth)
    else Formatted(text + Spaces(if |text| < padding then padding - |text| else 0))
  }

  /**
   * `padRight` as documented: `s` (`null` read as "") followed by spaces up to
   * a total length of `padding`, never truncated.
   */
  function PadRight(s: Option<string>, padding: int): (r: string)
    ensures var text := if s.None? then "" else s.value;
      && |r| == (if |text| < padding then padding else |text|)
      && r[..|text|] == text
      && (forall i :: |text| <= i < |r| ==> r[i] == ' ')
      && (|text| >= padding ==> r == text)
  {
    var text := if s.None? then "" else s.value;
    text + Spaces(if |text| < padding then padding - |text| else 0)
  }

  /** For a positive width the code as written gives the documented result; otherwise it throws. */
  lemma PadRightAsWrittenAgrees(s: Option<string>, padding: int)
    ensures padding > 0 ==> PadRightAsWritten(s, padding) == Formatted(PadRight(s, padding))
    ensures padding <= 0 ==> PadRightAsWritten(s, padding).Thrown?
  {
  }

  /** `padRight("a", 0)` throws, where the documentation promises "a". */
  lemma PadRightZeroWidthThrows()
    ensures PadRightAsWritten(Some("a"), 0) == Thrown(MissingFormatWidth)
    ensures PadRight(Some("a"), 0) == "a"
  {
    assert Spaces(0) == "";
  }
}
