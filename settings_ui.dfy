/**
 * The settings screen (UI/SettingsUIManager.cs) without its widgets: the text and
 * dropdown indices `Start` shows for the current settings, and the handlers that turn
 * an edited text or a chosen index back into a setting.
 *
 * Numbers are shown with `int.ToString()` and read back with `int.TryParse`, both
 * modelled with an ASCII `-` as the negative sign.
 */
module SettingsUI {
  import opened Wrappers
  import opened Bytes
  import opened Settings

  // Decimal text

  predicate IsDigit(c: char) {
    '0' <= c <= '9'
  }

  predicate AllDigits(s: string) {
    forall i :: 0 <= i < |s| ==> IsDigit(s[i])
  }

  function DigitChar(d: nat): (c: char)
    requires d < 10
    ensures IsDigit(c) && c as int - '0' as int == d
  {
    (d + '0' as int) as char
  }

  /** The decimal digits of `n`, most significant first, without leading zeros. */
  function NatToDigits(n: nat): (s: string)
    ensures |s| >= 1 && AllDigits(s)
    ensures s[0] == '0' ==> n == 0
    decreases n
  {
    if n < 10 then [DigitChar(n)] else NatToDigits(n / 10) + [DigitChar(n % 10)]
  }

  /** `int.ToString()`: a `-` before the digits of a negative number. */
  function IntToString(n: int): (s: string)
    ensures |s| >= 1 && (s[0] == '-' || IsDigit(s[0]))
  {
    if n < 0 then "-" + NatToDigits(-n) else NatToDigits(n)
  }

  /** The number a run of decimal digits stands for. */
  function DigitsValue(s: string): nat
    requires AllDigits(s)
    decreases |s|
  {
    if s == [] then 0 else DigitsValue(s[..|s| - 1]) * 10 + (s[|s| - 1] as int - '0' as int)
  }

  lemma {:induction false} DigitsRoundTrip(n: nat)
    ensures DigitsValue(NatToDigits(n)) == n
    decreases n
  {
    if n >= 10 {
      DigitsRoundTrip(n / 10);
      var s := NatToDigits(n);
      assert s[..|s| - 1] == NatToDigits(n / 10);
    }
  }

  /** The white space `int.TryParse` skips around the number. */
  predicate IsWhite(c: char) {
    c == ' ' || '\t' <= c <= '\r'
  }

  predicate AllWhite(w: string) {
    forall i :: 0 <= i < |w| ==> IsWhite(w[i])
  }

  function TrimStart(s: string): (t: string)
    ensures |t| <= |s| && t == s[|s| - |t|..]
    ensures t == [] || !IsWhite(t[0])
    ensures AllWhite(s[..|s| - |t|])
    decreases |s|
  {
    if s != [] && IsWhite(s[0]) then
      var t := TrimStart(s[1..]);
      assert s[..|s| - |t|] == [s[0]] + s[1..][..|s| - 1 - |t|];
      t
    else s
  }

  function TrimEnd(s: string): (t: string)
    ensures |t| <= |s| && t == s[..|t|]
    ensures t == [] || !IsWhite(t[|t| - 1])
    ensures AllWhite(s[|t|..])
    decreases |s|
  {
    if s != [] && IsWhite(s[|s| - 1]) then
      var t := TrimEnd(s[..|s| - 1]);
      assert s[|t|..] == s[..|s| - 1][|t|..] + [s[|s| - 1]];
      t
    else s
  }

  /**
   * `int.TryParse` with the default integer style: optional white space, an optional
   * sign, at least one decimal digit, optional white space, and a value that fits in an
   * `int`. Anything else yields `None` (the C# method returns false).
   */
  function TryParse(s: string): (r: Option<int32>)
    ensures AllWhite(s) ==> r == None
    ensures r.Some? ==> exists i :: 0 <= i < |s| && IsDigit(s[i])
  {
    ParseTrimmed(TrimEnd(TrimStart(s)))
  }

  /** The sign and digits left once the white space around them is gone. */
  function ParseTrimmed(t: string): (r: Option<int32>)
    ensures r.Some? ==> exists i :: 0 <= i < |t| && IsDigit(t[i])
  {
    var negative := |t| > 0 && t[0] == '-';
    var digits := if |t| > 0 && (t[0] == '-' || t[0] == '+') then t[1..] else t;
    if digits == [] || !AllDigits(digits) then None
    else
      var magnitude: int := DigitsValue(digits);
      var v := if negative then -magnitude else magnitude;
      if -0x8000_0000 <= v <= 0x7fff_ffff then
        assert IsDigit(t[|t| - |digits|]);
        Some(v)
      else None
  }

  /** Text without a single digit never parses. */
  lemma ParseNeedsDigit(s: string)
    requires forall i :: 0 <= i < |s| ==> !IsDigit(s[i])
    ensures TryParse(s) == None
  {
    var u := TrimStart(s);
    NoDigitInSuffix(s, u);
    var t := TrimEnd(u);
    NoDigitInPrefix(u, t);
  }

  lemma NoDigitInSuffix(s: string, u: string)
    requires forall i :: 0 <= i < |s| ==> !IsDigit(s[i])
    requires |u| <= |s| && u == s[|s| - |u|..]
    ensures forall i :: 0 <= i < |u| ==> !IsDigit(u[i])
  {
    forall i | 0 <= i < |u|
      ensures !IsDigit(u[i])
    {
      assert u[i] == s[|s| - |u| + i];
    }
  }

  lemma NoDigitInPrefix(u: string, t: string)
    requires forall i :: 0 <= i < |u| ==> !IsDigit(u[i])
    requires |t| <= |u| && t == u[..|t|]
    ensures forall i :: 0 <= i < |t| ==> !IsDigit(t[i])
  {
    forall i | 0 <= i < |t|
      ensures !IsDigit(t[i])
    {
      assert t[i] == u[i];
    }
  }

  /** Reading back what `int.ToString()` wrote gives the same number, for every `int`. */
  lemma ParseShownNumber(n: int32)
    ensures TryParse(IntToString(n)) == Some(n)
  {
    var s := IntToString(n);
    var magnitude: nat := if n < 0 then -(n as int) else n;
    var digits := NatToDigits(magnitude);
    DigitsRoundTrip(magnitude);
    var sign := if n < 0 then "-" else "";
    assert s == [] + sign + digits + [];
    ParseShape([], sign, digits, []);
  }

  /** The optional sign `int.TryParse` accepts before the digits. */
  predicate IsSign(sign: string) {
    sign == "" || sign == "+" || sign == "-"
  }

  /** The number a sign and a run of digits stand for, before the range check. */
  function SignedValue(sign: string, digits: string): int
    requires AllDigits(digits)
  {
    if sign == "-" then -(DigitsValue(digits) as int) else DigitsValue(digits)
  }

  predicate InInt32(v: int) {
    -0x8000_0000 <= v <= 0x7fff_ffff
  }

  /** A sign and digits parse to their value when it fits in an `int`, and fail otherwise. */
  lemma ParseSigned(sign: string, digits: string)
    requires IsSign(sign) && |digits| >= 1 && AllDigits(digits)
    ensures var v := SignedValue(sign, digits);
            ParseTrimmed(sign + digits) == if InInt32(v) then Some(v) else None
  {
    var t := sign + digits;
    if sign == "" {
      assert t == digits;
    } else {
      assert t[1..] == digits;
    }
  }

  /** White space before text that starts with something else is all `TrimStart` removes. */
  lemma {:induction false} TrimStartWhite(w: string, x: string)
    requires AllWhite(w) && x != [] && !IsWhite(x[0])
    ensures TrimStart(w + x) == x
    decreases |w|
  {
    if w != [] {
      var y := w + x;
      assert y[0] == w[0] && y[1..] == w[1..] + x;
      assert TrimStart(y) == TrimStart(y[1..]);
      TrimStartWhite(w[1..], x);
    } else {
      assert w + x == x;
    }
  }

  /** White space after text that ends with something else is all `TrimEnd` removes. */
  lemma {:induction false} TrimEndWhite(x: string, w: string)
    requires AllWhite(w) && x != [] && !IsWhite(x[|x| - 1])
    ensures TrimEnd(x + w) == x
    decreases |w|
  {
    if w != [] {
      var y := x + w;
      assert y[|y| - 1] == w[|w| - 1] && y[..|y| - 1] == x + w[..|w| - 1];
      assert TrimEnd(y) == TrimEnd(y[..|y| - 1]);
      TrimEndWhite(x, w[..|w| - 1]);
    } else {
      assert x + w == x;
    }
  }

  /**
   * `int.TryParse` accepts white space, an optional sign, decimal digits and white space,
   * and gives the signed value of the digits when it fits in an `int`; when it does not
   * fit, the parse fails.
   */
  lemma ParseShape(w1: string, sign: string, digits: string, w2: string)
    requires AllWhite(w1) && AllWhite(w2) && IsSign(sign)
    requires |digits| >= 1 && AllDigits(digits)
    ensures var v := SignedValue(sign, digits);
            TryParse(w1 + sign + digits + w2) == if InInt32(v) then Some(v) else None
  {
    var x := sign + digits;
    assert x[|x| - 1] == digits[|digits| - 1];
    assert w1 + sign + digits + w2 == w1 + (x + w2);
    TrimStartWhite(w1, x + w2);
    TrimEndWhite(x, w2);
    ParseSigned(sign, digits);
  }

  /**
   * Conversely, every text `int.TryParse` accepts has that shape, and the number read is
   * the signed value of its digits.
   */
  lemma ParseShapeOf(s: string, v: int32) returns (w1: string, sign: string, digits: string, w2: string)
    requires TryParse(s) == Some(v)
    ensures s == w1 + sign + digits + w2
    ensures AllWhite(w1) && AllWhite(w2) && IsSign(sign)
    ensures |digits| >= 1 && AllDigits(digits)
    ensures SignedValue(sign, digits) == v && DigitsValue(digits) == if v < 0 then -(v as int) else v
  {
    var t;
    w1, t, w2 := SplitTrimmed(s);
    sign, digits := SignAndDigits(t, v);
    Glue(s, w1, t, w2, sign, digits);
  }

  /** `s` is the white space `TrimStart` drops, what both trims keep, and the white space `TrimEnd` drops. */
  lemma SplitTrimmed(s: string) returns (w1: string, t: string, w2: string)
    ensures s == w1 + (t + w2) && t == TrimEnd(TrimStart(s))
    ensures AllWhite(w1) && AllWhite(w2)
  {
    var u := TrimStart(s);
    w1 := s[..|s| - |u|];
    t := TrimEnd(u);
    w2 := u[|t|..];
    SplitAt(s, |s| - |u|);
    SplitAt(u, |t|);
  }

  lemma SplitAt(s: string, k: nat)
    requires k <= |s|
    ensures s == s[..k] + s[k..]
  {
  }

  lemma Glue(s: string, w1: string, t: string, w2: string, sign: string, digits: string)
    requires s == w1 + (t + w2) && t == sign + digits
    ensures s == w1 + sign + digits + w2
  {
  }

  /** What `ParseTrimmed` accepts: an optional sign, then digits whose signed value is the result. */
  lemma SignAndDigits(t: string, v: int32) returns (sign: string, digits: string)
    requires ParseTrimmed(t) == Some(v)
    ensures t == sign + digits && IsSign(sign)
    ensures |digits| >= 1 && AllDigits(digits) && SignedValue(sign, digits) == v
  {
    if |t| > 0 && (t[0] == '-' || t[0] == '+') {
      sign, digits := t[..1], t[1..];
      assert sign == [t[0]];
    } else {
      sign, digits := [], t;
    }
  }

  // Dropdown indices and enum names

  /** `Array.IndexOf`: the first position of `x`, or -1. */
  function IndexOf(names: seq<string>, x: string): (i: int)
    ensures -1 <= i < |names|
    ensures i == -1 <==> x !in names
    ensures i >= 0 ==> names[i] == x && x !in names[..i]
  {
    if names == [] then -1
    else if names[0] == x then 0
    else
      var j := IndexOf(names[1..], x);
      if j == -1 then -1
      else
        assert names[..j + 1] == [names[0]] + names[1..][..j];
        j + 1
  }

  const QualityNames: seq<string> := ["_100", "_75", "_50", "_25"]
  const ResolutionNames: seq<string> := ["_1280x960", "_800x600", "_640x480", "_320x240"]

  /** The labels the quality and resolution dropdowns show, in index order. */
  const QualityOptions: seq<string> := ["100", "75", "50", "25"]
  const ResolutionOptions: seq<string> := ["1280x960", "800x600", "640x480", "320x240"]

  /** `ToString()` of a quality: its name, or the number when the value has none. */
  function QualityName(q: ImageQuality): (name: string)
    ensures IsNamedQuality(q) <==> name in QualityNames
  {
    if q == Quality100 then "_100"
    else if q == Quality75 then "_75"
    else if q == Quality50 then "_50"
    else if q == Quality25 then "_25"
    else IntToString(q as int)
  }

  function ResolutionName(r: ImageResolution): (name: string)
    ensures IsNamedResolution(r) <==> name in ResolutionNames
  {
    if r == Resolution1280x960 then "_1280x960"
    else if r == Resolution800x600 then "_800x600"
    else if r == Resolution640x480 then "_640x480"
    else if r == Resolution320x240 then "_320x240"
    else IntToString(r as int)
  }

  function Max(a: int, b: int): int {
    if a < b then b else a
  }

  /** The quality dropdown's initial index: the name's position, or 0 when it is not listed. */
  function InitialQualityIndex(q: ImageQuality): (i: int32)
    ensures 0 <= i < |QualityOptions|
    ensures !IsNamedQuality(q) ==> i == 0
  {
    Max(0, IndexOf(QualityNames, QualityName(q)))
  }

  function InitialResolutionIndex(r: ImageResolution): (i: int32)
    ensures 0 <= i < |ResolutionOptions|
    ensures !IsNamedResolution(r) ==> i == 0
  {
    Max(0, IndexOf(ResolutionNames, ResolutionName(r)))
  }

  function InitialEyeIndex(e: CameraEye): (i: int32)
    ensures i == 0 <==> e == Left
    ensures 0 <= i <= 1
  {
    if e == Left then 0 else 1
  }

  /** The quality handler: `100 - value * 25` in unchecked `int` arithmetic, cast to the enum. */
  function QualityFromIndex(v: int32): (q: ImageQuality)
    ensures 0 <= v <= 3 ==> q as int == 100 - 25 * v && IsNamedQuality(q)
    ensures (q as int - (100 - 25 * v)) % 0x1_0000_0000 == 0
  {
    Wrap32(100 - v * 25) as ImageQuality
  }

  const Resolutions: seq<ImageResolution> := [Resolution1280x960, Resolution800x600, Resolution640x480, Resolution320x240]

  /** The C# array access throws `IndexOutOfRangeException` outside 0..3. */
  datatype UIFault = IndexOutOfRange

  /** The resolution handler: the index selects from the enum's values in declaration order. */
  function ResolutionFromIndex(v: int32): (r: Result<ImageResolution, UIFault>)
    ensures r.Success? <==> 0 <= v < 4
    ensures r.Success? ==> r.value as int == v && IsNamedResolution(r.value)
  {
    if 0 <= v < |Resolutions| then Success(Resolutions[v]) else Failure(IndexOutOfRange)
  }

  /** The eye handler: 0 is Left, every other index Right. */
  function EyeFromIndex(v: int32): (e: CameraEye)
    ensures e == Left <==> v == 0
    ensures e == Left || e == Right
  {
    if v == 0 then Left else Right
  }

  lemma QualityLabels()
    ensures IntToString(100) == "100" && IntToString(75) == "75"
    ensures IntToString(50) == "50" && IntToString(25) == "25"
  {
    assert NatToDigits(10) == "10";
    assert NatToDigits(100) == "100";
  }

  lemma WidthLabels()
    ensures IntToString(1280) == "1280" && IntToString(800) == "800"
    ensures IntToString(640) == "640" && IntToString(320) == "320"
  {
    assert NatToDigits(12) == "12";
    assert NatToDigits(128) == "128";
    assert NatToDigits(80) == "80";
    assert NatToDigits(64) == "64";
    assert NatToDigits(32) == "32";
  }

  lemma HeightLabels()
    ensures IntToString(960) == "960" && IntToString(600) == "600"
    ensures IntToString(480) == "480" && IntToString(240) == "240"
  {
    assert NatToDigits(96) == "96";
    assert NatToDigits(60) == "60";
    assert NatToDigits(48) == "48";
    assert NatToDigits(24) == "24";
  }

  /** Each dropdown label describes the setting its index selects. */
  lemma OptionsMatchSettings(v: int32)
    requires 0 <= v < 4
    ensures IntToString(QualityFromIndex(v) as int) == QualityOptions[v]
    ensures var size := GetImageResolution(ResolutionFromIndex(v).value);
            IntToString(size.x) + "x" + IntToString(size.y) == ResolutionOptions[v]
  {
    QualityLabels();
    WidthLabels();
    HeightLabels();
    var size := GetImageResolution(ResolutionFromIndex(v).value);
    if v == 0 {
      assert size == Vector2Int(1280, 960);
    } else if v == 1 {
      assert size == Vector2Int(800, 600);
    } else if v == 2 {
      assert size == Vector2Int(640, 480);
    } else {
      assert size == Vector2Int(320, 240);
    }
  }

  /** A named quality's initial index leads the handler back to the same quality. */
  lemma QualityIndexRoundTrip(q: ImageQuality)
    requires IsNamedQuality(q)
    ensures QualityFromIndex(InitialQualityIndex(q)) == q
  {
    var i := IndexOf(QualityNames, QualityName(q));
    if q == Quality100 {
      assert i == 0;
    } else if q == Quality75 {
      assert i == 1;
    } else if q == Quality50 {
      assert i == 2;
    } else {
      assert i == 3;
    }
  }

  /** A named resolution's initial index leads the handler back to the same resolution. */
  lemma ResolutionIndexRoundTrip(r: ImageResolution)
    requires IsNamedResolution(r)
    ensures ResolutionFromIndex(InitialResolutionIndex(r)) == Success(r)
  {
    var i := IndexOf(ResolutionNames, ResolutionName(r));
    if r == Resolution1280x960 {
      assert i == 0;
    } else if r == Resolution800x600 {
      assert i == 1;
    } else if r == Resolution640x480 {
      assert i == 2;
    } else {
      assert i == 3;
    }
  }

  /** What `Start` puts in the widgets for the current settings. */
  datatype Widgets = Widgets(ipText: string, portText: string, qualityIndex: int32, resolutionIndex: int32, eyeIndex: int32)

  function InitialWidgets(v: Values): (w: Widgets)
    ensures w.ipText == v.serverIP && TryParse(w.portText) == Some(v.serverPort)
    ensures 0 <= w.qualityIndex < |QualityOptions| && 0 <= w.resolutionIndex < |ResolutionOptions|
    ensures w.eyeIndex == 0 <==> v.cameraEye == Left
  {
    ParseShownNumber(v.serverPort);
    Widgets(v.serverIP, IntToString(v.serverPort), InitialQualityIndex(v.imageQuality),
            InitialResolutionIndex(v.imageResolution), InitialEyeIndex(v.cameraEye))
  }

  /**
   * For named settings, feeding every widget's initial content back into its handler
   * reproduces the same settings and raises no event. A value without a name shows
   * index 0 and would come back as 100, 1280 by 960 or Right.
   */
  lemma WidgetsRoundTrip(v: Values)
    requires IsNamedQuality(v.imageQuality) && IsNamedResolution(v.imageResolution)
    requires v.cameraEye == Left || v.cameraEye == Right
    ensures var w := InitialWidgets(v);
            && AssignServerIP(v, w.ipText) == Assigned(v, [])
            && AssignServerPort(v, TryParse(w.portText).value) == Assigned(v, [])
            && AssignImageQuality(v, QualityFromIndex(w.qualityIndex)) == Assigned(v, [])
            && AssignImageResolution(v, ResolutionFromIndex(w.resolutionIndex).value) == Assigned(v, [])
            && AssignCameraEye(v, EyeFromIndex(w.eyeIndex)) == Assigned(v, [])
  {
    QualityIndexRoundTrip(v.imageQuality);
    ResolutionIndexRoundTrip(v.imageResolution);
  }

  // Handlers

  method OnServerIPChanged(settings: SettingsManager, value: string)
    modifies settings
    ensures var a := AssignServerIP(old(settings.State()), value);
            settings.State() == a.values && settings.raised == old(settings.raised) + a.raised
  {
    settings.SetServerIP(value);
  }

  /** Text that does not parse only logs a warning; the port is left as it was. */
  method OnServerPortChanged(settings: SettingsManager, value: string)
    modifies settings
    ensures TryParse(value).None? ==> unchanged(settings)
    ensures TryParse(value).Some? ==>
              var a := AssignServerPort(old(settings.State()), TryParse(value).value);
              settings.State() == a.values && settings.raised == old(settings.raised) + a.raised
  {
    var port := TryParse(value);
    if port.Some? {
      settings.SetServerPort(port.value);
    }
  }

  method OnImageQualityChanged(settings: SettingsManager, value: int32)
    modifies settings
    ensures var a := AssignImageQuality(old(settings.State()), QualityFromIndex(value));
            settings.State() == a.values && settings.raised == old(settings.raised) + a.raised
  {
    settings.SetImageQuality(Wrap32(100 - value * 25) as ImageQuality);
  }

  /** `thrown` reports the `IndexOutOfRangeException`, after which nothing has changed. */
  method OnImageResolutionChanged(settings: SettingsManager, value: int32) returns (thrown: bool)
    modifies settings
    ensures thrown <==> !(0 <= value < 4)
    ensures thrown ==> unchanged(settings)
    ensures !thrown ==>
              var a := AssignImageResolution(old(settings.State()), value as ImageResolution);
              settings.State() == a.values && settings.raised == old(settings.raised) + a.raised
  {
    var resolutions := Resolutions;
    if !(0 <= value < |resolutions|) {
      return true;
    }
    settings.SetImageResolution(resolutions[value]);
    thrown := false;
  }

  method OnCameraEyeChanged(settings: SettingsManager, value: int32)
    modifies settings
    ensures var a := AssignCameraEye(old(settings.State()), if value == 0 then Left else Right);
            settings.State() == a.values && settings.raised == old(settings.raised) + a.raised
  {
    settings.SetCameraEye(if value == 0 then Left else Right);
  }
}
