/** The result normalisers of app.js: the size suffix strip (lines 126 and
    241), the Cancun room-name cut (line 618) and the Cancun date split that
    feeds the calendar selector (lines 545-549 and 570-581). */
module Normalize {
  import opened Wrappers
  import opened Text

  const SquareFeet := "\nsquare feet"

  /** `value.replace("\nsquare feet", "")`: a string pattern, so only the
      first occurrence goes. */
  function RoomSize(raw: string): string {
    RemoveFirst(raw, SquareFeet)
  }

  /** The size strip on the page's usual text, on text without the suffix,
      and on text that carries it twice. */
  lemma RoomSizeExamples()
    ensures RoomSize("450\nsquare feet") == "450"
    ensures RoomSize("450") == "450"
    ensures RoomSize("450\nsquare feet\nsquare feet") == "450\nsquare feet"
  {
    var once, twice := "450\nsquare feet", "450\nsquare feet\nsquare feet";
    assert once == "450" + SquareFeet && twice == once + SquareFeet;
    SuffixFoundAfterNumber(once);
    SuffixFoundAfterNumber(twice);
    assert once[..3] == "450" && once[15..] == [];
    assert twice[..3] == "450" && twice[15..] == SquareFeet;
  }

  lemma SuffixFoundAfterNumber(s: string)
    requires |s| >= 15 && s[..3] == "450" && s[3..15] == SquareFeet
    ensures IndexOf(s, SquareFeet) == Some(3)
  {
    forall k | k < 3 ensures !OccursAt(s, SquareFeet, k) {
      Mismatch(s, SquareFeet, k, 0);
    }
    assert OccursAt(s, SquareFeet, 3);
  }

  lemma Mismatch(s: string, pat: string, k: nat, j: nat)
    requires j < |pat| && k + j < |s| && s[k + j] != pat[j]
    ensures !OccursAt(s, pat, k)
  {
  }

  /** The stripped size never grows, keeps text without the suffix as it
      is, and otherwise is exactly one suffix shorter. */
  lemma RoomSizeSpec(raw: string)
    ensures IndexOf(raw, SquareFeet).None? ==> RoomSize(raw) == raw
    ensures IndexOf(raw, SquareFeet).Some? ==> |RoomSize(raw)| + |SquareFeet| == |raw|
  {
    RemoveFirstSpec(raw, SquareFeet);
  }

  // ---------------------------------------------------------------------
  // Cancun room names

  /** `text.split('-')[0].trim()`. */
  function CancunRoomName(raw: string): string {
    Trim(Split(raw, '-')[0])
  }

  /** The room name is the trimmed text before the first dash (all of the
      text when there is none), so it never holds a dash. */
  lemma CancunRoomNameSpec(raw: string)
    ensures var k := |Split(raw, '-')[0]|;
      k <= |raw| && '-' !in raw[..k] && (k < |raw| ==> raw[k] == '-')
      && CancunRoomName(raw) == Trim(raw[..k])
    ensures '-' !in CancunRoomName(raw)
    ensures '-' !in raw ==> CancunRoomName(raw) == Trim(raw)
  {
    SplitHead(raw, '-');
    TrimKeepsOut(Split(raw, '-')[0], '-');
    if '-' !in raw {
      SplitWithoutSeparator(raw, '-');
    }
  }

  /** Whatever follows the first dash has no bearing on the name. */
  lemma CancunRoomNameOfParts(head: string, rest: string)
    requires '-' !in head
    ensures CancunRoomName(head + "-" + rest) == Trim(head)
  {
    SplitAfterHead(head, '-', rest);
  }

  lemma TrimDropsTrailingSpace(w: string)
    requires w != [] && !IsWhiteSpace(w[0]) && !IsWhiteSpace(w[|w| - 1])
    ensures Trim(w + " ") == w
  {
    var s := w + " ";
    assert s[0] == w[0];
    assert TrimStart(s) == s;
    assert s[..|s| - 1] == w;
    assert TrimEnd(w) == w;
  }

  /** Trimming drops the space left before the dash. The text is a
      parameter fixed by `requires` rather than a literal in the `ensures`:
      that keeps the verifier from unfolding the recursive `TrimStart` and
      `TrimEnd` on the literal, which makes the proof several times dearer. */
  lemma TrimExample(head: string)
    requires head == "Ocean Suite "
    ensures Trim(head) == "Ocean Suite"
  {
    var word := "Ocean Suite";
    assert head == word + " ";
    assert word[0] == 'O' && word[|word| - 1] == 'e';
    TrimDropsTrailingSpace(word);
  }

  lemma CancunRoomNameExample()
    ensures CancunRoomName("Ocean Suite - King") == "Ocean Suite"
  {
    var raw := "Ocean Suite - King";
    assert raw == "Ocean Suite " + "-" + " King";
    CancunRoomNameOfParts("Ocean Suite ", " King");
    TrimExample("Ocean Suite ");
  }

  // ---------------------------------------------------------------------
  // Cancun date split

  /** The three XPath attributes the Cancun calendar is searched by:
      `@data-day`, `@data-month` (0-based) and `@data-year`. `None` is
      JavaScript's `undefined` (for the month: `NaN`). */
  datatype Selector = Selector(day: Option<string>, month: Option<int>, year: Option<string>)

  /** Element `i` of a destructured array, `undefined` past its end. */
  function Piece(parts: seq<string>, i: nat): Option<string> {
    if i < |parts| then Some(parts[i]) else None
  }

  /** `mth - 1`: the text becomes a number first. Decimal digits read as
      their exact value (the empty text as 0); any other text is modelled
      as `NaN` (`None`), although JavaScript also reads white-space, sign,
      decimal-point, exponent, hexadecimal, binary, octal and "Infinity"
      forms, and rounds digit runs beyond 2^53. The calls in app.js only
      ever pass "11" and "12". */
  function MonthIndex(mth: Option<string>): Option<int> {
    if mth.Some? && AllDigits(mth.value) then Some(DigitsValue(mth.value) - 1) else None
  }

  /** `dayD[0] == "0" ? dayD[1] : dayD`: a leading zero is replaced by the
      SECOND character alone; "0" alone becomes `undefined`. */
  function DropLeadingZero(day: string): Option<string> {
    if 1 <= |day| && day[0] == '0' then (if 2 <= |day| then Some([day[1]]) else None)
    else Some(day)
  }

  /** `let [day, mth, year] = arrival.split("-")`, then the selector for it. */
  function ArrivalSelector(arrival: string): Selector {
    var parts := Split(arrival, '-');
    Selector(Some(parts[0]), MonthIndex(Piece(parts, 1)), Piece(parts, 2))
  }

  /** The departure is split the same way, and its day loses a leading zero. */
  function DepartureSelector(departure: string): Selector {
    var parts := Split(departure, '-');
    Selector(DropLeadingZero(parts[0]), MonthIndex(Piece(parts, 1)), Piece(parts, 2))
  }

  /** For a `day-month-year` text the arrival day and year are used
      verbatim and the month becomes its 0-based index; the departure day
      is the arrival rule with one leading zero dropped. */
  lemma SelectorsOfDate(d: string, m: string, y: string)
    requires '-' !in d && '-' !in m && '-' !in y
    requires AllDigits(m)
    ensures ArrivalSelector(d + "-" + m + "-" + y) == Selector(Some(d), Some(DigitsValue(m) - 1), Some(y))
    ensures DepartureSelector(d + "-" + m + "-" + y) == Selector(DropLeadingZero(d), Some(DigitsValue(m) - 1), Some(y))
  {
    SplitThree(d, m, y, '-');
  }

  /** On a two-digit day the leading-zero drop keeps the day's value and
      leaves a day without one untouched. */
  lemma DropLeadingZeroKeepsValue(day: string)
    requires |day| == 2 && AllDigits(day)
    ensures DropLeadingZero(day).Some?
    ensures day[0] != '0' ==> DropLeadingZero(day) == Some(day)
    ensures AllDigits(DropLeadingZero(day).value)
      && DigitsValue(DropLeadingZero(day).value) == DigitsValue(day)
  {
    assert day[..1][..0] == [];
    assert day[..1] == [day[0]];
    if day[0] == '0' {
      assert [day[1]][..0] == [];
    }
  }

  /** The arrival `cancun()` is hard-wired to: the month becomes its
      0-based index. */
  lemma CancunArrivalExample()
    ensures ArrivalSelector("30-11-2023") == Selector(Some("30"), Some(10), Some("2023"))
  {
    var arrival := "30-11-2023";
    assert arrival == "30" + "-" + "11" + "-" + "2023";
    SelectorsOfDate("30", "11", "2023");
    assert DigitsValue("11") == 11 by { assert "11"[..1] == "1"; assert "1"[..0] == ""; }
  }

  /** The departure `cancun()` is hard-wired to: its day also loses the
      leading zero. */
  lemma CancunDepartureExample()
    ensures DepartureSelector("02-12-2023") == Selector(Some("2"), Some(11), Some("2023"))
  {
    var departure := "02-12-2023";
    assert departure == "02" + "-" + "12" + "-" + "2023";
    SelectorsOfDate("02", "12", "2023");
    assert DigitsValue("12") == 12 by { assert "12"[..1] == "1"; assert "1"[..0] == ""; }
  }


}
