/** The pure string and array helpers of the utility namespace: the
    bounds-checked array subscript, character slicing, insertion and
    removal, CSV text building and the hour/minute/second split. */
module Utility {

  datatype Option<T> = None | Some(value: T)

  // ---------------------------------------------------------------------
  // Array subscript `safe:`

  /** The getter: the element at `index` when it is a valid index. */
  function SafeGet<T>(a: seq<T>, index: int): (r: Option<T>)
    ensures r.Some? <==> 0 <= index < |a|
    ensures r.Some? ==> r.value == a[index]
  {
    if 0 <= index < |a| then Some(a[index]) else None
  }

  /** The setter: writes only a present value at a valid index; anything
      else leaves the array as it was. */
  method SafeSet<T>(a: array<T>, index: int, newValue: Option<T>)
    modifies a
    ensures 0 <= index < a.Length && newValue.Some? ==> a[index] == newValue.value
    ensures forall j :: 0 <= j < a.Length && j != index ==> a[j] == old(a[j])
    ensures !(0 <= index < a.Length && newValue.Some?) ==> a[..] == old(a[..])
  {
    if 0 <= index < a.Length {
      if newValue.Some? {
        a[index] := newValue.value;
      }
    }
  }

  /** Reading back through the getter what the setter stored. */
  method SafeSetThenGet(a: array<int>, x: int)
    requires a.Length == 3
    modifies a
  {
    SafeSet(a, 1, Some(x));
    assert SafeGet(a[..], 1) == Some(x);
    var before := a[..];
    SafeSet(a, 3, Some(x));
    SafeSet(a, -1, Some(x));
    SafeSet(a, 0, None);
    assert a[..] == before && SafeGet(a[..], 3) == None;
  }

  // ---------------------------------------------------------------------
  // Characters of a string

  /** `stringSlice`: the characters from `startIndex` to `endIndex`, both
      included, or nothing when either index is past the end. Swift traps
      on a negative offset or a reversed range; those calls are excluded. */
  function StringSlice(str: string, startIndex: int, endIndex: int): (r: Option<string>)
    requires startIndex < |str| && endIndex < |str| ==> 0 <= startIndex <= endIndex
    ensures r.None? <==> (|str| <= endIndex || |str| <= startIndex)
    ensures r.Some? ==> |r.value| == endIndex - startIndex + 1
    ensures r.Some? ==> forall k :: 0 <= k < |r.value| ==> r.value[k] == str[startIndex + k]
  {
    if |str| <= endIndex || |str| <= startIndex then None
    else Some(str[startIndex..endIndex + 1])
  }

  /** `insertCharacter`: `element` placed before position `index`, or the
      text unchanged when `index` is outside 0..|text|. */
  function InsertCharacter(text: string, element: char, index: int): (r: string)
    ensures (index < 0 || index > |text|) ==> r == text
    ensures 0 <= index <= |text| ==>
      && |r| == |text| + 1
      && r[index] == element
      && r[..index] == text[..index]
      && r[index + 1..] == text[index..]
  {
    if index > |text| || index < 0 then text
    else text[..index] + [element] + text[index..]
  }

  /** `removeCharacter`: the text without the character at `index`, or
      unchanged when `index` is not a valid position. */
  function RemoveCharacter(text: string, index: int): (r: string)
    ensures (index < 0 || index >= |text|) ==> r == text
    ensures 0 <= index < |text| ==>
      && |r| == |text| - 1
      && r[..index] == text[..index]
      && r[index..] == text[index + 1..]
  {
    if index < 0 || index >= |text| then text
    else text[..index] + text[index + 1..]
  }

  /** Removing at the position just inserted at restores the text, for
      every index. */
  lemma RemoveAfterInsert(text: string, element: char, index: int)
    ensures RemoveCharacter(InsertCharacter(text, element, index), index) == text
  {
    if 0 <= index <= |text| {
      var r := InsertCharacter(text, element, index);
      assert RemoveCharacter(r, index) == r[..index] + r[index + 1..];
      assert text == text[..index] + text[index..];
    }
  }

  /** Putting back the character removed at a valid position restores
      the text. */
  lemma InsertAfterRemove(text: string, index: int)
    requires 0 <= index < |text|
    ensures InsertCharacter(RemoveCharacter(text, index), text[index], index) == text
  {
    var r := RemoveCharacter(text, index);
    var back := InsertCharacter(r, text[index], index);
    assert back == r[..index] + [text[index]] + r[index..];
    assert text == text[..index] + [text[index]] + text[index + 1..];
  }

  // ---------------------------------------------------------------------
  // CSV text

  /** What the inner loop appends for one value: the value in double
      quotes, then a comma. */
  function QuotedField(value: string): string
  {
    "\"" + value + "\","
  }

  /** All values of one row as the inner loop appends them. */
  function QuotedFields(line: seq<string>): string
  {
    if line == [] then "" else QuotedFields(line[..|line| - 1]) + QuotedField(line[|line| - 1])
  }

  /** One pass of the outer loop: append the row, drop the last character
      of the text if there is one, then end the line. */
  function AppendLine(csv: string, line: seq<string>): string
  {
    var c := csv + QuotedFields(line);
    (if |c| > 0 then c[..|c| - 1] else c) + "\n"
  }

  /** The text `makeCSVString` builds from its rows. */
  function CsvOf(rows: seq<seq<string>>): string
  {
    if rows == [] then "" else AppendLine(CsvOf(rows[..|rows| - 1]), rows[|rows| - 1])
  }

  /** `makeCSVString`: nested loops over rows and values. */
  method MakeCSVString(csvArr: seq<seq<string>>) returns (csv: string)
    ensures csv == CsvOf(csvArr)
  {
    csv := "";
    for i := 0 to |csvArr|
      invariant csv == CsvOf(csvArr[..i])
    {
      var line := csvArr[i];
      ghost var before := csv;
      for j := 0 to |line|
        invariant csv == before + QuotedFields(line[..j])
      {
        assert line[..j + 1][..j] == line[..j];
        csv := csv + "\"" + line[j] + "\",";
      }
      assert line[..|line|] == line;
      if |csv| > 0 {
        csv := csv[..|csv| - 1];
      }
      csv := csv + "\n";
      assert csvArr[..i + 1][..i] == csvArr[..i];
    }
    assert csvArr[..|csvArr|] == csvArr;
  }

  // The intended format, defined independently of the loop's trick of
  // removing the trailing comma.

  function Quote(value: string): string
  {
    "\"" + value + "\""
  }

  /** The quoted values of a row separated by commas. */
  function JoinQuoted(line: seq<string>): string
  {
    if line == [] then ""
    else if |line| == 1 then Quote(line[0])
    else JoinQuoted(line[..|line| - 1]) + "," + Quote(line[|line| - 1])
  }

  /** Every row on its own line. */
  function CsvLines(rows: seq<seq<string>>): string
  {
    if rows == [] then "" else CsvLines(rows[..|rows| - 1]) + JoinQuoted(rows[|rows| - 1]) + "\n"
  }

  lemma {:induction false} QuotedFieldsJoin(line: seq<string>)
    requires line != []
    ensures QuotedFields(line) == JoinQuoted(line) + ","
  {
    if |line| > 1 {
      QuotedFieldsJoin(line[..|line| - 1]);
    } else {
      assert line[..0] == [];
    }
  }

  /** On rows that all have a value, each row comes out as its quoted
      values joined by commas, followed by a newline. */
  lemma {:induction false} CsvOfNonEmptyRows(rows: seq<seq<string>>)
    requires forall i :: 0 <= i < |rows| ==> rows[i] != []
    ensures CsvOf(rows) == CsvLines(rows)
  {
    if rows != [] {
      var init, line := rows[..|rows| - 1], rows[|rows| - 1];
      CsvOfNonEmptyRows(init);
      QuotedFieldsJoin(line);
      var c := CsvOf(init) + QuotedFields(line);
      assert c == CsvLines(init) + JoinQuoted(line) + ",";
      assert c[..|c| - 1] == CsvLines(init) + JoinQuoted(line);
    }
  }

  /** An empty row after earlier output drops the newline before it and
      puts it back: it adds nothing. As the only row it gives one newline. */
  lemma EmptyRowAddsNothing(rows: seq<seq<string>>)
    ensures rows != [] ==> CsvOf(rows + [[]]) == CsvOf(rows)
    ensures CsvOf([[]]) == "\n"
  {
    if rows != [] {
      assert (rows + [[]])[..|rows|] == rows;
      var c := CsvOf(rows);
      assert |c| > 0 && c[|c| - 1] == '\n';
      assert c[..|c| - 1] + "\n" == c;
    }
    var single: seq<seq<string>> := [[]];
    assert single[..0] == [];
  }

  // ---------------------------------------------------------------------
  // Hours, minutes, seconds

  /** Swift's `/` on Int: the quotient rounded toward zero. */
  function Quot(a: int, b: int): (q: int)
    requires b > 0
    ensures a >= 0 ==> q == a / b
    ensures a >= 0 ==> 0 <= a - q * b < b
    ensures a < 0 ==> -b < a - q * b <= 0
  {
    if a >= 0 then a / b else -((-a) / b)
  }

  /** `x ?? 0`. */
  function OrZero(x: Option<int>): int
  {
    if x.Some? then x.value else 0
  }

  /** `secToTime`: whole hours and minutes, `nil` where they are zero, and
      the seconds left over. */
  method SecToTime(duration: int) returns (hour: Option<int>, min: Option<int>, sec: int)
    ensures OrZero(hour) * 3600 + OrZero(min) * 60 + sec == duration
    ensures hour.None? <==> -3600 < duration < 3600
    ensures min.None? <==> -60 < duration - OrZero(hour) * 3600 < 60
    ensures hour.Some? ==> hour.value != 0
    ensures min.Some? ==> min.value != 0
    ensures duration >= 0 ==> OrZero(hour) == duration / 3600
    ensures duration >= 0 ==> 0 <= OrZero(min) < 60 && 0 <= sec < 60
    ensures duration >= 0 ==> (min.None? <==> (duration % 3600) / 60 == 0)
    ensures duration < 0 ==> -60 < OrZero(min) <= 0 && -60 < sec <= 0
  {
    var rest := duration;
    hour := if Quot(rest, 60 * 60) == 0 then None else Some(Quot(rest, 60 * 60));
    rest := rest - OrZero(hour) * 60 * 60;
    min := if Quot(rest, 60) == 0 then None else Some(Quot(rest, 60));
    rest := rest - OrZero(min) * 60;
    sec := rest;
  }
}
