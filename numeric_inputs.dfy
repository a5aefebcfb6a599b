/** The Volume and Collateral inputs of the frontend
    (frontend/pages/index.tsx:465-575): what a typed or button-scaled value
    does to the field. `format` stands for `Intl.NumberFormat('en-EN').format`;
    `Grouped` is what it does to whole numbers. */
module NumericInputs {
  import opened Wrappers
  import opened Text
  import opened JsNumbers
  import opened RouteKeys

  const MaxVolume: real := 1_200_000.0
  const MaxVolumeMessage: string := "Max volume: 1,200,000 m3."

  /** `[0-9,.]`. */
  predicate Allowed(c: char) {
    IsDigit(c) || c == ',' || c == '.'
  }

  /** `value.match(/[0-9,.]/g)?.length`, with 0 for no match. */
  function CountAllowed(value: string): (n: nat)
    ensures n <= |value|
    ensures n == |value| <==> forall i :: 0 <= i < |value| ==> Allowed(value[i])
  {
    if |value| == 0 then 0
    else
      var rest := CountAllowed(value[1..]);
      assert forall i :: 1 <= i < |value| ==> value[i] == value[1..][i - 1];
      (if Allowed(value[0]) then 1 else 0) + rest
  }

  /** What `onChange` does with a value: keep it as typed, ignore it, or
      read it as a number (before the button factor). */
  datatype Edit = KeepText | Ignore | SetNumber(n: JsNum)

  function Classify(value: string): (e: Edit)
    ensures e == KeepText <==> value == "" || (HasSuffix(value, ".") && Count(value, '.') == 1)
    ensures e == Ignore <==>
      (HasSuffix(value, ".") && Count(value, '.') != 1)
      || (!HasSuffix(value, ".") && value != "" && exists i :: 0 <= i < |value| && !Allowed(value[i]))
    ensures e.SetNumber? ==>
      !HasSuffix(value, ".") && value != "" && (forall i :: 0 <= i < |value| ==> Allowed(value[i]))
      && e.n == ToNumber(RemoveAll(value, ','))
  {
    if HasSuffix(value, ".") then (if Count(value, '.') == 1 then KeepText else Ignore)
    else if |value| == 0 then KeepText
    else if CountAllowed(value) != |value| then Ignore
    else SetNumber(ToNumber(RemoveAll(value, ',')))
  }

  /** A value ending in its only dot is kept as typed, letters and all. */
  lemma TrailingDotSkipsCharacterCheck()
    ensures Classify("1a.") == KeepText
  {
    assert "1a."[2] == '.';
    assert "1a."[..2] == "1a";
    assert Count("1a.", '.') == 1;
  }

  /** Typing a letter is refused: "10m" leaves the field as it was. */
  lemma LetterRefused()
    ensures Classify("10m") == Ignore
  {
    assert !Allowed("10m"[2]);
    assert "10m"[2..] != ".";
  }

  /** A button pressed on a field still `undefined` sends the text
      "undefined", whose letters are refused: nothing changes. */
  lemma UndefinedIgnored()
    ensures Classify(Show(None)) == Ignore
  {
    assert !Allowed(Show(None)[0]);
    assert Show(None)[|Show(None)| - 1..] != ".";
  }

  /** Three decimal digits of `k`, zero-padded. */
  function Pad3(k: nat): (s: string)
    requires k < 1000
    ensures |s| == 3 && IsDigits(s)
  {
    [DigitChar(k / 100), DigitChar((k / 10) % 10), DigitChar(k % 10)]
  }

  /** A number below a thousand has at most three digits. */
  lemma ShortNatToString(n: nat)
    requires n < 1000
    ensures |NatToString(n)| <= 3
  {
    if n >= 10 {
      assert |NatToString(n / 10)| <= 2 by {
        if n / 10 >= 10 {
          assert NatToString(n / 10) == NatToString(n / 100) + [DigitChar((n / 10) % 10)];
        }
      }
    }
  }

  /** Commas exactly where a multiple of four characters remain: the first
      group has one to three characters and every comma is followed by three. */
  predicate CommasEveryThree(s: string) {
    && |s| % 4 != 0
    && forall i :: 0 <= i < |s| ==> (s[i] == ',' <==> (|s| - i) % 4 == 0)
  }

  /** One more group of three digits keeps the commas in place. */
  lemma CommasEveryThreeAppend(head: string, tail: string)
    requires CommasEveryThree(head) && |tail| == 3 && IsDigits(tail)
    ensures CommasEveryThree(head + "," + tail)
  {
    var s := head + "," + tail;
    forall i | 0 <= i < |s|
      ensures s[i] == ',' <==> (|s| - i) % 4 == 0
    {
      if i < |head| {
        assert s[i] == head[i];
        assert |s| - i == (|head| - i) + 4;
      } else if i > |head| {
        assert s[i] == tail[i - |head| - 1];
      }
    }
  }

  /** How `format` renders a whole number: digits, with a comma before each
      group of three. */
  function Grouped(n: nat): (s: string)
    ensures |s| >= 1
    ensures forall i :: 0 <= i < |s| ==> IsDigit(s[i]) || s[i] == ','
    ensures IsDigit(s[|s| - 1])
    ensures CommasEveryThree(s)
  {
    if n < 1000 then
      ShortNatToString(n);
      NatToString(n)
    else
      var head := Grouped(n / 1000);
      var s := head + "," + Pad3(n % 1000);
      assert forall i :: 0 <= i < |head| ==> s[i] == head[i];
      assert forall i :: |head| + 1 <= i < |s| ==> s[i] == Pad3(n % 1000)[i - |head| - 1];
      CommasEveryThreeAppend(head, Pad3(n % 1000));
      s
  }

  lemma NatToStringThousands(a: nat, b: nat)
    requires a >= 1 && b < 1000
    ensures NatToString(a * 1000 + b) == NatToString(a) + Pad3(b)
  {
    var n := a * 1000 + b;
    ThousandsDigits(a, b);
    calc {
      NatToString(n);
      NatToString(n / 10) + [DigitChar(n % 10)];
      NatToString(n / 100) + [DigitChar((n / 10) % 10)] + [DigitChar(n % 10)];
      NatToString(a) + [DigitChar(b / 100)] + [DigitChar((b / 10) % 10)] + [DigitChar(b % 10)];
    }
  }

  /** The last three decimal digits of `a * 1000 + b` are those of `b`. */
  lemma ThousandsDigits(a: nat, b: nat)
    requires b < 1000
    ensures var n := a * 1000 + b;
      && n % 10 == b % 10 && (n / 10) % 10 == (b / 10) % 10 && (n / 100) % 10 == b / 100
      && (n / 10) / 10 == n / 100 && (n / 100) / 10 == a
  {
    var n := a * 1000 + b;
    assert n / 10 == a * 100 + b / 10;
    assert n / 100 == a * 10 + b / 100;
  }

  lemma {:induction false} RemoveAllAppend(x: string, y: string, c: char)
    ensures RemoveAll(x + y, c) == RemoveAll(x, c) + RemoveAll(y, c)
  {
    if |x| > 0 {
      assert (x + y)[1..] == x[1..] + y;
      RemoveAllAppend(x[1..], y, c);
    } else {
      assert x + y == y;
    }
  }

  lemma {:induction false} RemoveAllAbsent(x: string, c: char)
    requires c !in x
    ensures RemoveAll(x, c) == x
  {
    if |x| > 0 {
      RemoveAllAbsent(x[1..], c);
      assert x == [x[0]] + x[1..];
    }
  }

  /** Dropping the commas of a grouped number gives its plain digits. */
  lemma {:induction false} UngroupGrouped(n: nat)
    ensures RemoveAll(Grouped(n), ',') == NatToString(n)
  {
    if n < 1000 {
      DigitsHaveNo(NatToString(n), ',');
      RemoveAllAbsent(NatToString(n), ',');
    } else {
      var head, tail := Grouped(n / 1000), Pad3(n % 1000);
      UngroupGrouped(n / 1000);
      RemoveAllAppend(head + ",", tail, ',');
      RemoveAllAppend(head, ",", ',');
      DigitsHaveNo(tail, ',');
      RemoveAllAbsent(tail, ',');
      assert RemoveAll(",", ',') == "";
      assert n == (n / 1000) * 1000 + n % 1000;
      NatToStringThousands(n / 1000, n % 1000);
      calc {
        RemoveAll(Grouped(n), ',');
        RemoveAll(head + "," + tail, ',');
        RemoveAll(head + ",", ',') + RemoveAll(tail, ',');
        RemoveAll(head, ',') + RemoveAll(",", ',') + tail;
        NatToString(n / 1000) + "" + tail;
        { assert NatToString(n / 1000) + "" == NatToString(n / 1000); }
        NatToString(n / 1000) + tail;
      }
    }
  }

  /** A whole number the field displays reads back as itself, which is what
      the thousand, million and billion buttons scale. */
  lemma ClassifyGrouped(n: nat)
    ensures Classify(Grouped(n)) == SetNumber(Num(n as real))
  {
    var s := Grouped(n);
    assert s[|s| - 1] != '.';
    assert !HasSuffix(s, ".") by {
      assert s[|s| - 1..] != ".";
    }
    UngroupGrouped(n);
    NumberOfNatToString(n);
  }

  /** A plain whole number reads as itself. */
  lemma ClassifyNatToString(n: nat)
    ensures Classify(NatToString(n)) == SetNumber(Num(n as real))
  {
    var s := NatToString(n);
    assert !IsDigit('.');
    assert s[|s| - 1] != '.';
    assert !HasSuffix(s, ".") by {
      assert s[|s| - 1..] != ".";
    }
    DigitsHaveNo(s, ',');
    RemoveAllAbsent(s, ',');
    NumberOfNatToString(n);
  }

  /** Typing "10,000" gives ten thousand. */
  lemma SeparatorsAccepted()
    ensures Classify("10,000") == SetNumber(Num(10_000.0))
  {
    assert Grouped(10_000) == "10,000" by {
      assert Grouped(10) == "10";
      assert Pad3(0) == "000";
    }
    ClassifyGrouped(10_000);
  }

  /** The Volume field: its text (`undefined` at first) and its error. */
  class VolumeInput {
    var volume: Option<string>
    var error: Option<string>

    constructor()
      ensures volume.None? && error.None?
    {
      volume := None;
      error := None;
    }

    /** `onChange(value, factor)`: a number over 1,200,000 m3 after scaling
        sets the error, any other number clears it. */
    method OnChange(value: string, factor: real, format: JsNum -> string)
      modifies this
      ensures Classify(value) == Ignore ==> volume == old(volume) && error == old(error)
      ensures Classify(value) == KeepText ==> volume == Some(value) && error == old(error)
      ensures Classify(value).SetNumber? ==>
        var n := Times(factor, Classify(value).n);
        && volume == Some(format(n))
        && (error == Some(MaxVolumeMessage) <==> Above(n, MaxVolume))
        && (error.None? <==> !Above(n, MaxVolume))
    {
      if HasSuffix(value, ".") {
        if Count(value, '.') == 1 {
          volume := Some(value);
        }
        return;
      }
      if |value| == 0 {
        volume := Some("");
        return;
      }
      if |value| > 0 && CountAllowed(value) != |value| {
        return;
      }
      var sanitized := ToNumber(RemoveAll(value, ','));
      var newVolume := Times(factor, sanitized);
      if Above(newVolume, MaxVolume) {
        error := Some(MaxVolumeMessage);
      } else {
        error := None;
      }
      volume := Some(format(newVolume));
    }

    /** The thousand and million buttons: `onChange('' + volume, factor)`. */
    method Scale(factor: real, format: JsNum -> string)
      modifies this
      ensures var value := Show(old(volume));
        && (Classify(value) == Ignore ==> volume == old(volume) && error == old(error))
        && (Classify(value) == KeepText ==> volume == old(volume) && error == old(error))
        && (Classify(value).SetNumber? ==>
              var n := Times(factor, Classify(value).n);
              && volume == Some(format(n))
              && (error == Some(MaxVolumeMessage) <==> Above(n, MaxVolume))
              && (error.None? <==> !Above(n, MaxVolume)))
    {
      UndefinedIgnored();
      OnChange(Show(volume), factor, format);
    }
  }

  /** The Collateral field: the same rules, without a maximum. */
  class CollateralInput {
    var collateral: Option<string>

    constructor()
      ensures collateral.None?
    {
      collateral := None;
    }

    method OnChange(value: string, factor: real, format: JsNum -> string)
      modifies this
      ensures Classify(value) == Ignore ==> collateral == old(collateral)
      ensures Classify(value) == KeepText ==> collateral == Some(value)
      ensures Classify(value).SetNumber? ==> collateral == Some(format(Times(factor, Classify(value).n)))
    {
      if HasSuffix(value, ".") {
        if Count(value, '.') == 1 {
          collateral := Some(value);
        }
        return;
      }
      if |value| == 0 {
        collateral := Some("");
        return;
      }
      if |value| > 0 && CountAllowed(value) != |value| {
        return;
      }
      var sanitized := ToNumber(RemoveAll(value, ','));
      collateral := Some(format(Times(factor, sanitized)));
    }

    /** The million and billion buttons: `onChange('' + collateral, factor)`. */
    method Scale(factor: real, format: JsNum -> string)
      modifies this
      ensures var value := Show(old(collateral));
        && (Classify(value) == Ignore || Classify(value) == KeepText ==> collateral == old(collateral))
        && (Classify(value).SetNumber? ==> collateral == Some(format(Times(factor, Classify(value).n))))
    {
      UndefinedIgnored();
      OnChange(Show(collateral), factor, format);
    }
  }

  // ----- the field scenarios of the end-to-end tests, with `format` grouping whole numbers -----

  /** `format` as it renders whole numbers. */
  ghost predicate FormatsWholeNumbers(format: JsNum -> string) {
    forall n: nat :: format(Num(n as real)) == Grouped(n)
  }

  /** The numbers the scenarios type, as digits. */
  lemma TypedTexts()
    ensures NatToString(1) == "1" && NatToString(4) == "4" && NatToString(10) == "10"
    ensures NatToString(300) == "300" && NatToString(10_000) == "10000"
  {
  }

  lemma SmallGroupedTexts()
    ensures Grouped(1) == "1" && Grouped(4) == "4" && Grouped(10) == "10" && Grouped(300) == "300"
  {
    TypedTexts();
  }

  /** One more group: the grouping of `a` thousands and `b` is that of `a`,
      a comma and the three digits of `b`. */
  lemma GroupedThousands(a: nat, b: nat)
    requires a >= 1 && b < 1000
    ensures Grouped(a * 1000 + b) == Grouped(a) + "," + Pad3(b)
  {
    assert (a * 1000 + b) / 1000 == a && (a * 1000 + b) % 1000 == b;
  }

  /** The displays the scenarios expect, as `Grouped` renders them. */
  lemma GroupedTenThousand()
    ensures Grouped(10_000) == "10,000"
  {
    SmallGroupedTexts();
    GroupedThousands(10, 0);
    assert Pad3(0) == "000";
  }

  lemma GroupedMillion()
    ensures Grouped(1_000_000) == "1,000,000"
  {
    SmallGroupedTexts();
    assert Pad3(0) == "000";
    GroupedThousands(1, 0);
    GroupedThousands(1_000, 0);
  }

  lemma GroupedThreeHundredMillion()
    ensures Grouped(300_000_000) == "300,000,000"
  {
    SmallGroupedTexts();
    assert Pad3(0) == "000";
    GroupedThousands(300, 0);
    GroupedThousands(300_000, 0);
  }

  lemma GroupedFourBillion()
    ensures Grouped(4_000_000_000) == "4,000,000,000"
  {
    SmallGroupedTexts();
    assert Pad3(0) == "000";
    GroupedThousands(4, 0);
    GroupedThousands(4_000, 0);
    GroupedThousands(4_000_000, 0);
  }

  /** Typing 10000 into the Volume field shows "10,000". */
  method VolumeNaturalNumber(format: JsNum -> string) returns (shown: Option<string>, error: Option<string>)
    requires FormatsWholeNumbers(format)
    ensures shown == Some("10,000") && error.None?
  {
    var field := new VolumeInput();
    TypedTexts();
    GroupedTenThousand();
    ClassifyNatToString(10_000);
    assert format(Num(10_000 as real)) == Grouped(10_000);
    field.OnChange("10000", 1.0, format);
    shown, error := field.volume, field.error;
  }

  /** Typing 10 into the Volume field, then the thousand button, shows "10,000". */
  method VolumeTimesThousand(format: JsNum -> string) returns (shown: Option<string>)
    requires FormatsWholeNumbers(format)
    ensures shown == Some("10,000")
  {
    var field := new VolumeInput();
    TypedTexts();
    SmallGroupedTexts();
    GroupedTenThousand();
    ClassifyNatToString(10);
    assert format(Num(10 as real)) == Grouped(10);
    field.OnChange("10", 1.0, format);
    assert format(Num(10_000 as real)) == Grouped(10_000);
    field.Scale(1_000.0, format);
    shown := field.volume;
  }

  /** Typing 1 into the Volume field, then the million button, shows
      "1,000,000", within the maximum. */
  method VolumeTimesMillion(format: JsNum -> string) returns (shown: Option<string>, error: Option<string>)
    requires FormatsWholeNumbers(format)
    ensures shown == Some("1,000,000") && error.None?
  {
    var field := new VolumeInput();
    TypedTexts();
    SmallGroupedTexts();
    GroupedMillion();
    ClassifyNatToString(1);
    assert format(Num(1 as real)) == Grouped(1);
    field.OnChange("1", 1.0, format);
    assert format(Num(1_000_000 as real)) == Grouped(1_000_000);
    field.Scale(1_000_000.0, format);
    shown, error := field.volume, field.error;
  }

  /** Typing 300 into the Collateral field, then the million button, shows
      "300,000,000". */
  method CollateralTimesMillion(format: JsNum -> string) returns (shown: Option<string>)
    requires FormatsWholeNumbers(format)
    ensures shown == Some("300,000,000")
  {
    var field := new CollateralInput();
    TypedTexts();
    SmallGroupedTexts();
    GroupedThreeHundredMillion();
    ClassifyNatToString(300);
    assert format(Num(300 as real)) == Grouped(300);
    field.OnChange("300", 1.0, format);
    assert format(Num(300_000_000 as real)) == Grouped(300_000_000);
    field.Scale(1_000_000.0, format);
    shown := field.collateral;
  }

  /** Typing 4 into the Collateral field, then the billion button, shows
      "4,000,000,000". */
  method CollateralTimesBillion(format: JsNum -> string) returns (shown: Option<string>)
    requires FormatsWholeNumbers(format)
    ensures shown == Some("4,000,000,000")
  {
    var field := new CollateralInput();
    TypedTexts();
    SmallGroupedTexts();
    GroupedFourBillion();
    ClassifyNatToString(4);
    assert format(Num(4 as real)) == Grouped(4);
    field.OnChange("4", 1.0, format);
    assert format(Num(4_000_000_000 as real)) == Grouped(4_000_000_000);
    field.Scale(1_000_000_000.0, format);
    shown := field.collateral;
  }

  /** Typing "10m" into the Volume field leaves "10": the keystroke that
      adds the letter is refused. */
  method VolumeLetters(format: JsNum -> string) returns (shown: Option<string>)
    requires FormatsWholeNumbers(format)
    ensures shown == Some("10")
  {
    var field := new VolumeInput();
    TypedTexts();
    SmallGroupedTexts();
    ClassifyNatToString(10);
    assert format(Num(10 as real)) == Grouped(10);
    field.OnChange("10", 1.0, format);
    LetterRefused();
    field.OnChange("10m", 1.0, format);
    shown := field.volume;
  }
}
