/** The thousands separator that `formatNumber` inserts with
    `replace(/\B(?=(\d{3})+(?!\d))/g, ",")` (src/components/VideoCard.tsx:34,
    src/components/CreatorCard.tsx:13), and a grouping reference it is
    proved equal to. */
module NumberFormat {
  import opened Strings

  /** The regular expression on a string of digits, read position by
      position from `i`: a comma goes before position `i` when `i` is not at
      the start (`\B` between two digits) and the digits from `i` to the end
      are a positive multiple of three (`(?=(\d{3})+(?!\d))`). */
  function SeparatorsFrom(digits: string, i: nat): string
    requires i <= |digits|
    decreases |digits| - i
  {
    if i == |digits| then ""
    else Mark(|digits|, i) + [digits[i]] + SeparatorsFrom(digits, i + 1)
  }

  /** The replacement only inserts commas: deleting them gives back the
      input from `i` on. */
  lemma {:induction false} SeparatorsKeepDigits(digits: string, i: nat)
    requires i <= |digits|
    ensures RemoveChar(SeparatorsFrom(digits, i), ',') == RemoveChar(digits[i..], ',')
    decreases |digits| - i
  {
    if i < |digits| {
      var mark, rest := Mark(|digits|, i), SeparatorsFrom(digits, i + 1);
      SeparatorsKeepDigits(digits, i + 1);
      assert digits[i..] == [digits[i]] + digits[i + 1..];
      RemoveCharConcat([digits[i]], digits[i + 1..], ',');
      RemoveCharConcat(mark + [digits[i]], rest, ',');
      RemoveCharConcat(mark, [digits[i]], ',');
    }
  }

  /** What the replacement puts before position `i` of a run of `length`
      digits. */
  function Mark(length: nat, i: nat): (mark: string)
    requires i < length
    ensures mark == "" || mark == ","
  {
    if 0 < i && (length - i) % 3 == 0 then "," else ""
  }

  function InsertSeparators(digits: string): (text: string)
    ensures text == Grouped(digits)
    ensures RemoveChar(text, ',') == RemoveChar(digits, ',')
  {
    RegexMatchesGrouping(digits);
    SeparatorsKeepDigits(digits, 0);
    SeparatorsFrom(digits, 0)
  }

  /** The reference: the last three digits form a group, and what precedes
      them is grouped the same way. */
  function Grouped(digits: string): string
    decreases |digits|
  {
    if |digits| <= 3 then digits
    else Grouped(digits[..|digits| - 3]) + "," + digits[|digits| - 3..]
  }

  /** Groups are separated by commas: the first has one to three digits,
      every later one exactly three. */
  predicate WellGrouped(groups: seq<string>)
  {
    && |groups| >= 1
    && 1 <= |groups[0]| <= 3
    && forall k :: 1 <= k < |groups| ==> |groups[k]| == 3
  }

  /** Positions before the last three digits are processed the same way in
      the whole string and in the string without them. */
  lemma {:induction false} SeparatorsSplit(p: string, tail: string, i: nat)
    requires |tail| == 3 && i <= |p|
    ensures SeparatorsFrom(p + tail, i) == SeparatorsFrom(p, i) + SeparatorsFrom(p + tail, |p|)
    decreases |p| - i
  {
    if i < |p| {
      SeparatorsSplit(p, tail, i + 1);
      SeparatorsSplitStep(p, tail, i);
    } else {
      assert SeparatorsFrom(p, |p|) == "";
    }
  }

  lemma SeparatorsSplitStep(p: string, tail: string, i: nat)
    requires |tail| == 3 && i < |p|
    requires SeparatorsFrom(p + tail, i + 1) == SeparatorsFrom(p, i + 1) + SeparatorsFrom(p + tail, |p|)
    ensures SeparatorsFrom(p + tail, i) == SeparatorsFrom(p, i) + SeparatorsFrom(p + tail, |p|)
  {
    var d := p + tail;
    var head := Mark(|p|, i) + [p[i]];
    var front, back := SeparatorsFrom(p, i + 1), SeparatorsFrom(d, |p|);
    MarkShift(|p|, i);
    assert d[i] == p[i];
    assert SeparatorsFrom(p, i) == head + front;
    assert SeparatorsFrom(d, i) == head + (front + back);
    assert head + (front + back) == (head + front) + back;
  }

  lemma MarkShift(length: nat, i: nat)
    requires i < length
    ensures Mark(length + 3, i) == Mark(length, i)
  {
    assert (length + 3 - i) % 3 == (length - i) % 3;
  }

  /** No separator lands in a tail shorter than three digits. */
  lemma {:induction false} SeparatorsShortTail(digits: string, i: nat)
    requires 0 < i <= |digits| && |digits| - i < 3
    ensures SeparatorsFrom(digits, i) == digits[i..]
    decreases |digits| - i
  {
    if i < |digits| {
      SeparatorsShortTail(digits, i + 1);
    }
  }

  /** The regular expression and the grouping reference agree on every
      digit string. */
  lemma {:induction false} RegexMatchesGrouping(digits: string)
    ensures SeparatorsFrom(digits, 0) == Grouped(digits)
    decreases |digits|
  {
    var n := |digits|;
    if n == 0 {
    } else if n <= 3 {
      if n > 1 {
        SeparatorsShortTail(digits, 1);
      } else {
        assert SeparatorsFrom(digits, 1) == "";
      }
    } else {
      var p := digits[..n - 3];
      assert digits == p + digits[n - 3..];
      SeparatorsSplit(p, digits[n - 3..], 0);
      RegexMatchesGrouping(p);
      LastGroup(p, digits[n - 3..]);
    }
  }

  /** The last three digits of a longer run get one comma before them. */
  lemma LastGroup(p: string, tail: string)
    requires |tail| == 3 && p != ""
    ensures SeparatorsFrom(p + tail, |p|) == "," + tail
  {
    var d := p + tail;
    var i := |p|;
    SeparatorsShortTail(d, i + 1);
    assert Mark(|d|, i) == ",";
    assert d[i] == tail[0];
    assert d[i + 1..] == tail[1..];
    assert [tail[0]] + tail[1..] == tail;
  }

  lemma NoCommaInDigits(s: string)
    requires AllDigits(s)
    ensures ',' !in s
  {
  }

  /** Deleting the commas gives back the digits. */
  lemma {:induction false} GroupedRemoveCommas(digits: string)
    requires AllDigits(digits)
    ensures RemoveChar(Grouped(digits), ',') == digits
    decreases |digits|
  {
    var n := |digits|;
    if n <= 3 {
      NoCommaInDigits(digits);
      RemoveCharAbsent(digits, ',');
    } else {
      var p, tail := digits[..n - 3], digits[n - 3..];
      assert AllDigits(p) && AllDigits(tail);
      GroupedRemoveCommas(p);
      RemoveCommasStep(p, tail);
      assert digits == p + tail;
    }
  }

  lemma RemoveCommasStep(p: string, tail: string)
    requires AllDigits(tail) && |tail| == 3 && p != ""
    requires RemoveChar(Grouped(p), ',') == p
    ensures RemoveChar(Grouped(p + tail), ',') == p + tail
  {
    GroupedStep(p, tail);
    NoCommaInDigits(tail);
    RemoveCommaJoin(Grouped(p), tail);
  }

  /** Grouping a string that ends in three more digits adds one group. */
  lemma GroupedStep(p: string, tail: string)
    requires |tail| == 3 && p != ""
    ensures Grouped(p + tail) == Grouped(p) + "," + tail
  {
    var d := p + tail;
    assert d[..|d| - 3] == p;
    assert d[|d| - 3..] == tail;
  }

  lemma RemoveCommaJoin(g: string, tail: string)
    requires ',' !in tail
    ensures RemoveChar(g + "," + tail, ',') == RemoveChar(g, ',') + tail
  {
    var comma: string := [','];
    var head := g + comma;
    RemoveCharAbsent(tail, ',');
    RemoveCharConcat(head, tail, ',');
    RemoveCharConcat(g, comma, ',');
    RemoveCommaAlone();
    assert RemoveChar(head, ',') == RemoveChar(g, ',');
  }

  lemma RemoveCommaAlone()
    ensures RemoveChar([','], ',') == ""
  {
    assert [','][1..] == [];
  }

  /** Split at the commas, the text falls into well-formed groups. */
  lemma {:induction false} GroupedGroups(digits: string)
    requires AllDigits(digits) && digits != ""
    ensures WellGrouped(Split(Grouped(digits), ','))
    decreases |digits|
  {
    var n := |digits|;
    if n <= 3 {
      NoCommaInDigits(digits);
      SplitNoSeparator(digits, ',');
    } else {
      var p, tail := digits[..n - 3], digits[n - 3..];
      assert AllDigits(p) && AllDigits(tail);
      GroupedGroups(p);
      NoCommaInDigits(tail);
      assert digits == p + tail;
      GroupsStep(p, tail);
    }
  }

  /** Three more digits add one group of three. */
  lemma GroupsStep(p: string, tail: string)
    requires |tail| == 3 && p != "" && ',' !in tail
    requires WellGrouped(Split(Grouped(p), ','))
    ensures WellGrouped(Split(Grouped(p + tail), ','))
  {
    var front := Split(Grouped(p), ',');
    GroupedStep(p, tail);
    SplitConcat(Grouped(p), tail, ',');
    SplitNoSeparator(tail, ',');
    assert Split(Grouped(p + tail), ',') == front + [tail];
  }

  /** A string of more than three digits gets at least one comma. */
  lemma GroupedComma(digits: string)
    requires AllDigits(digits)
    ensures |digits| > 3 <==> ',' in Grouped(digits)
    ensures |digits| <= 3 ==> Grouped(digits) == digits
  {
    NoCommaInDigits(digits);
    if |digits| > 3 {
      var head := Grouped(digits[..|digits| - 3]);
      assert Grouped(digits)[|head|] == ',';
    }
  }

  /** `num.toString().replace(...)` for a positive number: the commas sit
      between groups of three, and removing them gives back the number. */
  function WithSeparators(n: nat): (text: string)
    requires n > 0
    ensures RemoveChar(text, ',') == Digits(n)
    ensures ParseDecimal(RemoveChar(text, ',')) == n
    ensures WellGrouped(Split(text, ','))
    ensures n < 1000 <==> text == Digits(n)
    ensures n < 1000 <==> ',' !in text
  {
    var digits := Digits(n);
    GroupedRemoveCommas(digits);
    GroupedGroups(digits);
    ParseDigits(n);
    GroupedComma(digits);
    InsertSeparators(digits)
  }
}
