/** Fitting a message line to the console width before it is written. */
module ConsoleWidth {
  import opened Results

  /** `n` spaces. */
  function Blanks(n: nat): (r: string)
    ensures |r| == n
    ensures forall k :: 0 <= k < n ==> r[k] == ' '
  {
    if n == 0 then "" else Blanks(n - 1) + " "
  }

  /** The constant string of 189 spaces the padding is cut from. */
  const Spaces: string := Blanks(189)

  /** Every character from position `from` on is a space. */
  predicate SpacesFrom(s: string, from: nat)
  {
    forall k :: from <= k < |s| ==> s[k] == ' '
  }

  /** The constant holds spaces only. */
  lemma SpacesOnly()
    ensures |Spaces| == 189 && SpacesFrom(Spaces, 0)
  {
  }

  /** `CoerceToConsoleWidth(message)` with the window width as a parameter.
      A message longer than the width is cut to the width; a shorter one is
      padded with spaces up to three columns short of the width.  Both cuts
      are `Substring` calls, which throw when the length asked for is
      negative or longer than the string, so the call fails for a negative
      width, for a message that ends within three columns of the width, and
      when the padding needed is longer than the spaces constant. */
  function CoerceToConsoleWidth(message: string, width: int): (r: Result<string>)
    ensures r.Ok? <==>
      0 <= width && (|message| > width || 0 <= width - |message| - 3 <= |Spaces|)
    ensures r.Err? ==> r.error == OutOfRange
    ensures r.Ok? && |message| > width ==> |r.value| == width && r.value == message[..width]
    ensures r.Ok? && |message| <= width ==>
      && |r.value| == width - 3
      && r.value[..|message|] == message
      && SpacesFrom(r.value, |message|)
  {
    if |message| > width then
      if width < 0 then Err(OutOfRange) else Ok(message[..width])
    else if 0 <= width - |message| - 3 <= |Spaces| then SpacesOnly(); Ok(message + Spaces[..width - |message| - 3])
    else Err(OutOfRange)
  }

  /** The padding is trailing: dropping the spaces after the message gives
      the message back. */
  lemma PaddingIsTrailing(message: string, width: int)
    requires CoerceToConsoleWidth(message, width).Ok?
    ensures var r := CoerceToConsoleWidth(message, width).value;
      if |message| > width then message == r + message[width..]
      else r == message + Spaces[..width - |message| - 3]
  {
  }

  /** A message that ends within three columns of the width is rejected:
      "abcd" in a four-column window asks for a padding of -3 spaces. */
  lemma MessageNearWidthFails()
    ensures CoerceToConsoleWidth("abcd", 4) == Err(OutOfRange)
  {
  }

  /** Every message that ends within three columns of the width is rejected. */
  lemma MessagesNearWidthFail(message: string, width: int)
    requires 0 <= width && width - 3 < |message| <= width
    ensures CoerceToConsoleWidth(message, width) == Err(OutOfRange)
  {
  }

  /** An empty message in a 200-column window needs 197 spaces, more than
      the constant holds. */
  lemma WideConsoleFails()
    ensures CoerceToConsoleWidth("", 200) == Err(OutOfRange)
  {
  }

  /** The larger of two integers. */
  function Max(a: int, b: int): int
  {
    if a < b then b else a
  }

  /** The evidently intended behaviour for any window width: cut a long
      message to the width, otherwise pad with as many spaces as needed to
      reach three columns short of the width, and never pad by a negative
      amount.  The line never exceeds the width. */
  function CoerceToConsoleWidthClamped(message: string, width: nat): (r: string)
    ensures |r| <= width
    ensures |message| > width ==> r == message[..width]
    ensures |message| <= width ==>
      && |r| == Max(|message|, width - 3)
      && r[..|message|] == message
      && SpacesFrom(r, |message|)
  {
    if |message| > width then message[..width]
    else message + Blanks(Max(0, width - |message| - 3))
  }

  /** Wherever the code as written succeeds, the corrected version returns
      the same line. */
  lemma ClampedAgrees(message: string, width: int)
    requires CoerceToConsoleWidth(message, width).Ok?
    ensures 0 <= width
    ensures CoerceToConsoleWidthClamped(message, width) == CoerceToConsoleWidth(message, width).value
  {
    if |message| <= width {
      var pad := width - |message| - 3;
      SpacesOnly();
      assert Spaces[..pad] == Blanks(pad);
    }
  }
}
