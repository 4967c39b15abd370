/**
 * The Tracon 2017 signup-extra model: its choice lists checked against the
 * character fields that store them, `get_query_class`, and the lodging-needs
 * text shown to organisers.
 */
module Tracon2017Models {
  import opened Wrappers
  import opened Choices

  // ---------------------------------------------------------------------
  // Choice lists and the fields that store them
  // ---------------------------------------------------------------------

  const ShirtSizes: seq<Choice> := [
    Choice("NO_SHIRT", "Ei paitaa"),
    Choice("XS", "XS Unisex"),
    Choice("S", "S Unisex"),
    Choice("M", "M Unisex"),
    Choice("L", "L Unisex"),
    Choice("XL", "XL Unisex"),
    Choice("XXL", "XXL Unisex"),
    Choice("3XL", "3XL Unisex"),
    Choice("4XL", "4XL Unisex"),
    Choice("5XL", "5XL Unisex"),
    Choice("LF_XS", "XS Ladyfit"),
    Choice("LF_S", "S Ladyfit"),
    Choice("LF_M", "M Ladyfit"),
    Choice("LF_L", "L Ladyfit"),
    Choice("LF_XL", "XL Ladyfit")
  ]

  const ShiftTypeChoices: seq<Choice> := [
    Choice("yksipitka", "Yksi pitkä vuoro"),
    Choice("montalyhytta", "Monta lyhyempää vuoroa"),
    Choice("kaikkikay", "Kumpi tahansa käy")
  ]

  const TotalWorkChoices: seq<Choice> := [
    Choice("8h", "Minimi - 8 tuntia (1 lämmin ateria)"),
    Choice("12h", "12 tuntia (2 lämmintä ateriaa)"),
    Choice("yli12h", "Työn Sankari! Yli 12 tuntia! (2 lämmintä ateriaa)")
  ]

  /** A `CharField` declared with `choices=`: its width and its default, if any. */
  datatype ChoiceField = ChoiceField(maxLength: nat, choices: seq<Choice>, default: Option<string>)

  const ShiftTypeField := ChoiceField(15, ShiftTypeChoices, None)
  const TotalWorkField := ChoiceField(15, TotalWorkChoices, None)
  const ShirtSizeField := ChoiceField(8, ShirtSizes, Some("NO_SHIRT"))

  /** Every key can be stored, keys are unambiguous, and the default is one of the keys. */
  predicate WellFormed(f: ChoiceField)
  {
    && KeysFit(f.choices, f.maxLength)
    && DistinctIds(f.choices)
    && (f.default.Some? ==> f.default.value in Ids(f.choices))
  }

  /** The three choice fields of the signup-extra model are well-formed. */
  lemma SignupExtraFieldsWellFormed()
    ensures WellFormed(ShiftTypeField)
    ensures WellFormed(TotalWorkField)
    ensures WellFormed(ShirtSizeField)
  {
    assert Ids(ShirtSizes)[0] == "NO_SHIRT";
  }

  // ---------------------------------------------------------------------
  // get_query_class
  // ---------------------------------------------------------------------

  datatype QueryClass = QueryClass(name: string)

  /** `get_query_class` is not implemented for this event: it always raises. */
  function GetQueryClass(): (r: Result<QueryClass, string>)
    ensures r.Err? && r.error == "NotImplementedError"
  {
    Err("NotImplementedError")
  }

  // ---------------------------------------------------------------------
  // formatted_lodging_needs
  // ---------------------------------------------------------------------

  /** A night of floor accommodation, identified by its primary key. */
  datatype Night = Night(pk: int, name: string)

  const NeedText := "Tarvitsee lattiamajoitusta"
  const NoNeedText := "Ei tarvetta lattiamajoitukselle"

  /** `'{night}: {need}'` for one night. */
  function LodgingLine(night: Night, needs: set<int>): string
  {
    night.name + ": " + (if night.pk in needs then NeedText else NoNeedText)
  }

  /** `'\n'.join(lines)`: the lines separated by newlines, with none after the last. */
  function JoinLines(lines: seq<string>): (s: string)
    ensures lines == [] ==> s == ""
    ensures |lines| == 1 ==> s == lines[0]
  {
    if lines == [] then ""
    else if |lines| == 1 then lines[0]
    else lines[0] + "\n" + JoinLines(lines[1..])
  }

  /** `s.split('\n')`: the text between newlines; a text without any is a single part. */
  function SplitLines(s: string): (parts: seq<string>)
    ensures |parts| >= 1
    ensures forall i :: 0 <= i < |parts| ==> '\n' !in parts[i]
    decreases |s|
  {
    if '\n' !in s then [s]
    else
      var i := FirstNewline(s);
      [s[..i]] + SplitLines(s[i + 1..])
  }

  function FirstNewline(s: string): (i: nat)
    requires '\n' in s
    ensures i < |s| && s[i] == '\n' && '\n' !in s[..i]
  {
    if s[0] == '\n' then 0
    else
      assert '\n' in s[1..] by {
        var k :| 0 <= k < |s| && s[k] == '\n';
        assert s[1..][k - 1] == '\n';
      }
      var j := FirstNewline(s[1..]);
      assert s[..j + 1] == [s[0]] + s[1..][..j];
      j + 1
  }

  /** The `formatted_lodging_needs` property: one line per night, in night order. */
  function FormattedLodgingNeeds(nights: seq<Night>, needs: set<int>): (s: string)
    ensures nights == [] ==> s == ""
  {
    JoinLines(seq(|nights|, i requires 0 <= i < |nights| => LodgingLine(nights[i], needs)))
  }

  /** Splitting the joined lines recovers them, provided no line holds a newline itself. */
  lemma {:induction false} SplitJoinRoundTrip(lines: seq<string>)
    requires |lines| >= 1
    requires forall i :: 0 <= i < |lines| ==> '\n' !in lines[i]
    ensures SplitLines(JoinLines(lines)) == lines
  {
    if |lines| > 1 {
      var rest := JoinLines(lines[1..]);
      var s := lines[0] + "\n" + rest;
      assert s[|lines[0]|] == '\n';
      assert s[..|lines[0]|] == lines[0];
      assert FirstNewline(s) == |lines[0]|;
      assert s[|lines[0]| + 1..] == rest;
      assert JoinLines(lines) == s;
      assert SplitLines(s) == [lines[0]] + SplitLines(rest);
      SplitJoinRoundTrip(lines[1..]);
      assert lines == [lines[0]] + lines[1..];
    }
  }

  /** Each line names its night and then says whether it needs floor accommodation. */
  lemma LodgingLineShape(night: Night, needs: set<int>)
    ensures LodgingLine(night, needs)[..|night.name|] == night.name
    ensures LodgingLine(night, needs)[|night.name|..|night.name| + 2] == ": "
    ensures night.pk in needs <==> LodgingLine(night, needs)[|night.name| + 2..] == NeedText
    ensures night.pk !in needs ==> LodgingLine(night, needs)[|night.name| + 2..] == NoNeedText
  {
    var line := LodgingLine(night, needs);
    assert line[|night.name|..|night.name| + 2] == ": ";
    if night.pk !in needs {
      assert line[|night.name| + 2..] == NoNeedText;
      assert NoNeedText[0] != NeedText[0];
    }
  }

  /** For nights whose names hold no newline, the text splits back into exactly one line per night. */
  lemma LodgingNeedsOneLinePerNight(nights: seq<Night>, needs: set<int>)
    requires |nights| >= 1
    requires forall i :: 0 <= i < |nights| ==> '\n' !in nights[i].name
    ensures |SplitLines(FormattedLodgingNeeds(nights, needs))| == |nights|
    ensures forall i :: 0 <= i < |nights| ==>
      SplitLines(FormattedLodgingNeeds(nights, needs))[i] == LodgingLine(nights[i], needs)
  {
    var lines := seq(|nights|, i requires 0 <= i < |nights| => LodgingLine(nights[i], needs));
    forall i | 0 <= i < |nights| ensures '\n' !in lines[i] {
      var need := if nights[i].pk in needs then NeedText else NoNeedText;
      assert lines[i] == nights[i].name + (": " + need);
    }
    SplitJoinRoundTrip(lines);
  }

  /** The text never ends in a newline. */
  lemma {:induction false} JoinLinesNoTrailingNewline(lines: seq<string>)
    requires |lines| >= 1 && |lines[|lines| - 1]| >= 1
    requires lines[|lines| - 1][|lines[|lines| - 1]| - 1] != '\n'
    ensures |JoinLines(lines)| >= 1 && JoinLines(lines)[|JoinLines(lines)| - 1] != '\n'
  {
    if |lines| > 1 {
      assert lines[1..][|lines[1..]| - 1] == lines[|lines| - 1];
      JoinLinesNoTrailingNewline(lines[1..]);
    }
  }

  /** A non-empty night list gives a text that does not end in a newline. */
  lemma LodgingNeedsNoTrailingNewline(nights: seq<Night>, needs: set<int>)
    requires |nights| >= 1
    ensures var s := FormattedLodgingNeeds(nights, needs); |s| >= 1 && s[|s| - 1] != '\n'
  {
    var lines := seq(|nights|, i requires 0 <= i < |nights| => LodgingLine(nights[i], needs));
    var last := lines[|lines| - 1];
    var night := nights[|nights| - 1];
    var need := if night.pk in needs then NeedText else NoNeedText;
    assert last == night.name + ": " + need;
    assert last[|last| - 1] == need[|need| - 1];
    JoinLinesNoTrailingNewline(lines);
  }
}
