/** The label a collapsed toolbar button shows: the part of the tab title
    before its first space, or else its first two characters
    (src/collapsible_toolbar.rs, lines 320-326 and 345-351). Titles are
    UTF-8 byte strings, as Rust's `String` is. */
module ToolbarTitle {
  import opened Common

  newtype byte = x: int | 0 <= x < 256

  const Space: byte := 0x20

  /** A UTF-8 continuation byte `10xxxxxx` never starts a character. */
  predicate IsContinuation(b: byte) { 0x80 <= b < 0xC0 }

  /** `str::is_char_boundary`: the ends of the string, and every position
      whose byte is not a continuation byte. */
  predicate IsCharBoundary(t: seq<byte>, i: nat)
  {
    i == 0 || i == |t| || (i < |t| && !IsContinuation(t[i]))
  }

  /** `str::find(' ')`: the byte index of the first space. */
  function FindSpace(t: seq<byte>): (r: Option<nat>)
    ensures r.None? <==> forall j :: 0 <= j < |t| ==> t[j] != Space
    ensures r.Some? ==> r.value < |t| && t[r.value] == Space && forall j :: 0 <= j < r.value ==> t[j] != Space
  {
    if |t| == 0 then None
    else if t[0] == Space then Some(0)
    else
      var r := FindSpace(t[1..]);
      assert forall j :: 1 <= j < |t| ==> t[j] == t[1..][j - 1];
      if r.Some? then Some(r.value + 1) else None
  }

  /** The short title as the source computes it; `None` stands for the panic
      of slicing a `str` at a byte that is not a character boundary. */
  function ShortTitleAsWritten(t: seq<byte>): (r: Option<seq<byte>>)
    ensures FindSpace(t).Some? ==> r == Some(t[..FindSpace(t).value])
    ensures FindSpace(t).None? && IsCharBoundary(t, Min2(|t|)) ==> r == Some(t[..Min2(|t|)])
  {
    var space := FindSpace(t);
    if space.Some? then Some(t[..space.value])
    else
      var n := Min2(|t|);
      if IsCharBoundary(t, n) then Some(t[..n]) else None
  }

  function Min2(n: nat): (m: nat)
    ensures m <= n && m <= 2 && (m == n || m == 2)
  {
    if n < 2 then n else 2
  }

  /** The source panics exactly on a title without a space whose third byte
      continues a multi-byte character. */
  lemma ShortTitleAsWrittenPanics(t: seq<byte>)
    ensures ShortTitleAsWritten(t).None? <==> FindSpace(t).None? && |t| > 2 && IsContinuation(t[2])
  {
  }

  /** The end of the character that starts at byte `i`. */
  function NextBoundary(t: seq<byte>, i: nat): (j: nat)
    requires i < |t|
    ensures i < j <= |t| && IsCharBoundary(t, j)
    ensures forall k :: i < k < j ==> !IsCharBoundary(t, k)
    decreases |t| - i
  {
    if IsCharBoundary(t, i + 1) then i + 1 else NextBoundary(t, i + 1)
  }

  /** The end of the first two characters, or of the whole title when it has
      fewer. */
  function TwoCharsEnd(t: seq<byte>): (e: nat)
    ensures e <= |t| && IsCharBoundary(t, e)
  {
    if |t| == 0 then 0
    else
      var first := NextBoundary(t, 0);
      if first == |t| then first else NextBoundary(t, first)
  }

  /** The short title: the part before the first space, or else the first
      two characters. */
  function ShortTitle(t: seq<byte>): (r: seq<byte>)
    ensures |r| <= |t| && r == t[..|r|] && IsCharBoundary(t, |r|)
    ensures FindSpace(t).Some? ==> r == t[..FindSpace(t).value]
  {
    var space := FindSpace(t);
    if space.Some? then t[..space.value] else t[..TwoCharsEnd(t)]
  }

  /** Without a space the short title holds at most two characters (at most
      one boundary strictly inside it), and exactly two when it is shorter
      than the title. */
  lemma ShortTitleIsTwoCharacters(t: seq<byte>)
    requires FindSpace(t).None?
    ensures var n := |ShortTitle(t)|;
            && (|t| > 0 ==> n > 0)
            && (forall i, j :: 0 < i < j < n ==> !(IsCharBoundary(t, i) && IsCharBoundary(t, j)))
            && (n < |t| ==> exists i :: 0 < i < n && IsCharBoundary(t, i))
  {
    if |t| > 0 {
      var first := NextBoundary(t, 0);
      if first < |t| {
        var second := NextBoundary(t, first);
        assert |ShortTitle(t)| == second;
        assert 0 < first < second && IsCharBoundary(t, first);
      }
    }
  }

  /** The source's label is the short title exactly when the title has a
      space, is at most two bytes long, or starts with two one-byte
      characters. Otherwise the source panics, or, when byte 2 is a
      boundary but byte 1 is not, it labels the tab with one two-byte
      character where the short title has two characters. */
  lemma ShortTitleAgreesWithSource(t: seq<byte>)
    ensures ShortTitleAsWritten(t) == Some(ShortTitle(t)) <==>
              FindSpace(t).Some? || |t| <= 2 || (IsCharBoundary(t, 1) && IsCharBoundary(t, 2))
  {
    if FindSpace(t).None? && |t| > 0 {
      var first := NextBoundary(t, 0);
      if |t| == 1 {
        assert first == 1;
      } else if |t| == 2 {
        if first == 1 {
          assert NextBoundary(t, 1) == 2;
        }
        assert TwoCharsEnd(t) == 2;
      } else if IsCharBoundary(t, 1) && IsCharBoundary(t, 2) {
        assert first == 1;
        assert NextBoundary(t, 1) == 2;
      } else if IsCharBoundary(t, 2) {
        assert first == 2;
        assert TwoCharsEnd(t) > 2;
        assert |ShortTitle(t)| > 2;
      }
    }
  }

  /** "éa", encoded C3 A9 61: byte 2 is a boundary, so the source does not
      panic but labels the tab "é"; the short title is both characters. */
  lemma TwoByteFirstCharacterTitle()
    ensures var t: seq<byte> := [0xC3, 0xA9, 0x61];
            && ShortTitleAsWritten(t) == Some([0xC3, 0xA9])
            && ShortTitle(t) == t
  {
    var t: seq<byte> := [0xC3, 0xA9, 0x61];
    assert FindSpace(t).None?;
    assert NextBoundary(t, 1) == 2;
    assert NextBoundary(t, 0) == 2;
    assert NextBoundary(t, 2) == 3;
    assert TwoCharsEnd(t) == 3;
    assert Min2(|t|) == 2 && IsCharBoundary(t, 2);
    assert t[..2] == [0xC3, 0xA9];
  }

  /** "场景树", encoded E5 9C BA E6 99 AF E6
      A0 91: the source slices it at byte 2, inside the first character, and
      panics; the short title is its first two characters "场景". */
  lemma SceneTreeTitle()
    ensures var t: seq<byte> := [0xE5, 0x9C, 0xBA, 0xE6, 0x99, 0xAF, 0xE6, 0xA0, 0x91];
            && ShortTitleAsWritten(t).None?
            && ShortTitle(t) == [0xE5, 0x9C, 0xBA, 0xE6, 0x99, 0xAF]
  {
    var t: seq<byte> := [0xE5, 0x9C, 0xBA, 0xE6, 0x99, 0xAF, 0xE6, 0xA0, 0x91];
    assert FindSpace(t).None?;
    assert NextBoundary(t, 2) == 3;
    assert NextBoundary(t, 1) == 3;
    assert NextBoundary(t, 0) == 3;
    assert NextBoundary(t, 5) == 6;
    assert NextBoundary(t, 4) == 6;
    assert NextBoundary(t, 3) == 6;
    assert TwoCharsEnd(t) == 6;
  }
}
