/** The parameter block of the crack-analysis route (`analyze_cracks_route`): it reads `filename`, `min_area`,
    `max_area` and `threshold` from the decoded JSON body, converts them with Python's `int()`, recognises the
    spellings of an unbounded `max_area`, and checks the ordering and the ranges before `process_crack` runs.
    Reading the image is an input (`readable`), and so is everything Flask does before `get_json` returns. */
module RequestParams {
  import opened Common

  /** A float as Python's `json` module decodes it; it accepts `NaN`, `Infinity` and `-Infinity`. */
  datatype PyFloat = Finite(x: real) | NaN | PosInf | NegInf

  /** A decoded JSON body. Objects become dicts in which the last of several equal keys wins, hence a map;
      numbers with a fraction or an exponent become floats and the others ints. */
  datatype Json =
    | JNull
    | JBool(b: bool)
    | JInt(i: int)
    | JFloat(f: PyFloat)
    | JStr(s: string)
    | JArray(items: seq<Json>)
    | JObject(fields: map<string, Json>)

  /** Python truthiness, as in `if not data` and `if not filename`. */
  predicate Truthy(v: Json)
  {
    match v
    case JNull => false
    case JBool(b) => b
    case JInt(i) => i != 0
    case JFloat(f) => f != Finite(0.0)
    case JStr(s) => s != ""
    case JArray(items) => items != []
    case JObject(fields) => fields != map[]
  }

  /** `dict.get(key, default)`. */
  function Get(fields: map<string, Json>, key: string, default: Json): Json
  {
    if key in fields then fields[key] else default
  }

  /** The defaults of the three numeric parameters: `1000`, `'inf'` and `100`. */
  const DefaultMinArea: Json := JInt(1000)
  const DefaultMaxArea: Json := JStr("inf")
  const DefaultThreshold: Json := JInt(100)

  // ---------------------------------------------------------------------------------------------------------------
  // Python's int()

  /** What `int(v)` does: a value, or the exception it raises. */
  datatype IntConversion = Converted(value: int) | ValueError | TypeError | OverflowError

  /** `int(x)` of a finite float: truncation toward zero. */
  function Trunc(x: real): (r: int)
    ensures 0.0 <= x ==> r as real <= x < r as real + 1.0
    ensures x < 0.0 ==> r as real - 1.0 < x <= r as real
  {
    if 0.0 <= x then x.Floor else -((-x).Floor)
  }

  /** The ASCII characters `int()` strips around its argument: space and the controls 9 to 13 (tab, line feed,
      vertical tab, form feed, carriage return). The separators 28 to 31 are not stripped. */
  predicate IsSpace(c: char)
  {
    c == ' ' || (9 <= c as int <= 13)
  }

  predicate IsDigit(c: char)
  {
    '0' <= c <= '9'
  }

  function TrimStart(s: string): (r: string)
    ensures |r| <= |s|
    decreases |s|
  {
    if |s| > 0 && IsSpace(s[0]) then TrimStart(s[1..]) else s
  }

  function TrimEnd(s: string): (r: string)
    ensures |r| <= |s|
    decreases |s|
  {
    if |s| > 0 && IsSpace(s[|s| - 1]) then TrimEnd(s[..|s| - 1]) else s
  }

  function Strip(s: string): string
  {
    TrimEnd(TrimStart(s))
  }

  /** Decimal digits with single underscores between them, the digit part `int()` accepts in base 10. */
  predicate DigitGroups(s: string)
  {
    && |s| > 0 && IsDigit(s[0]) && IsDigit(s[|s| - 1])
    && (forall k :: 0 <= k < |s| ==> IsDigit(s[k]) || s[k] == '_')
    && (forall k :: 0 <= k < |s| - 1 ==> s[k] != '_' || s[k + 1] != '_')
  }

  function NotUnderscore(): char -> bool
  {
    (c: char) => c != '_'
  }

  function DigitValue(c: char): nat
  {
    if IsDigit(c) then c as int - '0' as int else 0
  }

  /** The number a string of decimal digits denotes, most significant digit first. */
  function DigitsValue(s: string): nat
    decreases |s|
  {
    if |s| == 0 then 0 else DigitsValue(s[..|s| - 1]) * 10 + DigitValue(s[|s| - 1])
  }

  /** An optional leading sign: whether it is a minus, and what follows it. */
  function SplitSign(t: string): (bool, string)
  {
    if |t| > 0 && (t[0] == '+' || t[0] == '-') then (t[0] == '-', t[1..]) else (false, t)
  }

  /** The default limit on the number of digits `int()` converts from text (`sys.get_int_max_str_digits()`). */
  const MaxStrDigits: nat := 4300

  /** `int(s)` for a string: surrounding whitespace, an optional sign, then digit groups with at most
      `MaxStrDigits` digits (leading zeros count, underscores do not); anything else is a `ValueError`, here
      `None`. */
  function ParseInt(s: string): Option<int>
  {
    ParseStripped(Strip(s))
  }

  /** The parse once the whitespace is gone. */
  function ParseStripped(t: string): Option<int>
  {
    var sign := SplitSign(t);
    var digits := Filter(sign.1, NotUnderscore());
    if DigitGroups(sign.1) && |digits| <= MaxStrDigits then
      var n: int := DigitsValue(digits);
      Some(if sign.0 then -n else n)
    else None
  }

  /** `int(v)` for a decoded JSON value: bools are 0 and 1, floats truncate (NaN is a `ValueError`, an infinity an
      `OverflowError`), strings are parsed, and `None`, lists and dicts are a `TypeError`. */
  function PyInt(v: Json): (r: IntConversion)
    ensures r.TypeError? <==> v.JNull? || v.JArray? || v.JObject?
    ensures r.OverflowError? <==> v == JFloat(PosInf) || v == JFloat(NegInf)
    ensures r.ValueError? <==> v == JFloat(NaN) || (v.JStr? && ParseInt(v.s).None?)
    ensures v.JBool? ==> r == Converted(if v.b then 1 else 0)
    ensures v.JInt? ==> r == Converted(v.i)
    ensures v.JFloat? && v.f.Finite? ==> r == Converted(Trunc(v.f.x))
    ensures v.JStr? && ParseInt(v.s).Some? ==> r == Converted(ParseInt(v.s).value)
  {
    match v
    case JBool(b) => Converted(if b then 1 else 0)
    case JInt(i) => Converted(i)
    case JFloat(f) =>
      (match f
       case Finite(x) => Converted(Trunc(x))
       case NaN => ValueError
       case PosInf => OverflowError
       case NegInf => OverflowError)
    case JStr(s) => (match ParseInt(s) case Some(n) => Converted(n) case None => ValueError)
    case JNull => TypeError
    case JArray(_) => TypeError
    case JObject(_) => TypeError
  }

  /** Decimal notation of a natural number, as `str()` writes it. */
  function ShowNat(n: nat): (r: string)
    ensures |r| > 0
    ensures forall k :: 0 <= k < |r| ==> IsDigit(r[k])
    decreases n
  {
    (if n < 10 then [] else ShowNat(n / 10)) + [DigitChar(n % 10)]
  }

  function DigitChar(d: nat): (c: char)
    requires d < 10
    ensures IsDigit(c) && DigitValue(c) == d
  {
    ('0' as int + d) as char
  }

  function ShowInt(n: int): string
  {
    if n < 0 then "-" + ShowNat(-n) else ShowNat(n)
  }

  lemma {:induction false} ShowNatValue(n: nat)
    ensures DigitsValue(ShowNat(n)) == n
    decreases n
  {
    var s := ShowNat(n);
    var head := if n < 10 then [] else ShowNat(n / 10);
    assert s == head + [DigitChar(n % 10)];
    assert s[..|s| - 1] == head;
    assert DigitsValue(s) == DigitsValue(head) * 10 + n % 10;
    if n >= 10 {
      ShowNatValue(n / 10);
      assert DigitsValue(head) == n / 10;
    }
  }

  /** A string with no whitespace at either end is left alone by `strip`. */
  lemma StripNoSpace(s: string)
    requires |s| > 0 && !IsSpace(s[0]) && !IsSpace(s[|s| - 1])
    ensures Strip(s) == s
  {
  }

  /** A run of digits contains no underscore, so it is its own digit part. */
  lemma DigitsAreGroups(d: string)
    requires |d| > 0 && forall k :: 0 <= k < |d| ==> IsDigit(d[k])
    ensures DigitGroups(d) && Filter(d, NotUnderscore()) == d
  {
    assert forall k :: 0 <= k < |d| ==> NotUnderscore()(d[k]);
    FilterAll(d, NotUnderscore());
  }

  /** A plain run of digits parses to the number it denotes. */
  lemma ParseUnsigned(d: string)
    requires 0 < |d| <= MaxStrDigits && forall k :: 0 <= k < |d| ==> IsDigit(d[k])
    ensures ParseInt(d) == Some(DigitsValue(d))
  {
    StripNoSpace(d);
    DigitsAreGroups(d);
    assert SplitSign(d) == (false, d);
  }

  /** A minus sign followed by digits parses to the negated number. */
  lemma ParseNegative(t: string)
    requires 1 < |t| <= MaxStrDigits + 1 && t[0] == '-' && forall k :: 1 <= k < |t| ==> IsDigit(t[k])
    ensures ParseInt(t) == Some(-(DigitsValue(t[1..]) as int))
  {
    var d := t[1..];
    StripNoSpace(t);
    assert SplitSign(t) == (true, d);
    DigitsAreGroups(d);
  }

  /** Two strings that strip to the same text parse alike. */
  lemma SameStrip(s: string, t: string)
    requires Strip(s) == Strip(t)
    ensures ParseInt(s) == ParseInt(t)
  {
  }

  /** Vertical tab and form feed around the digits are stripped: `int("\x0b5\x0c") == 5`. */
  lemma ControlsStripped()
    ensures ParseInt("\U{0b}5\U{0c}") == Some(5)
  {
    var s := "\U{0b}5\U{0c}";
    assert Strip(s) == "5" by {
      assert s[1..] == "5\U{0c}";
      assert TrimStart(s) == TrimStart("5\U{0c}") == "5\U{0c}";
      assert "5\U{0c}"[..1] == "5";
      assert TrimEnd("5\U{0c}") == TrimEnd("5") == "5";
    }
    StripNoSpace("5");
    SameStrip(s, "5");
    ParseUnsigned("5");
    assert DigitsValue("5") == 5 by {
      assert "5"[..0] == "";
    }
  }

  /** The separator characters 28 to 31 are not stripped, so a digit next to one is a `ValueError`:
      `int("\x1c5")` and `int("5\x1f")` both raise. */
  lemma SeparatorsNotStripped()
    ensures ParseInt("\U{1c}5") == None
    ensures ParseInt("5\U{1f}") == None
  {
    StripNoSpace("\U{1c}5");
    assert SplitSign("\U{1c}5") == (false, "\U{1c}5");
    assert !IsDigit("\U{1c}5"[0]);
    StripNoSpace("5\U{1f}");
    assert SplitSign("5\U{1f}") == (false, "5\U{1f}");
    assert !IsDigit("5\U{1f}"[1]);
  }

  /** More than `MaxStrDigits` digits are a `ValueError`, with or without a minus sign. */
  lemma OverLongRejected(d: string)
    requires |d| > MaxStrDigits && forall k :: 0 <= k < |d| ==> IsDigit(d[k])
    ensures ParseInt(d) == None
    ensures ParseInt("-" + d) == None
  {
    StripNoSpace(d);
    DigitsAreGroups(d);
    assert SplitSign(d) == (false, d);
    var t := "-" + d;
    StripNoSpace(t);
    assert SplitSign(t) == (true, d);
  }

  function Pow10(k: nat): (r: nat)
    ensures r > 0
  {
    if k == 0 then 1 else 10 * Pow10(k - 1)
  }

  /** A natural number below `10^k` has at most `k` digits (and at least one). */
  lemma {:induction false} ShowNatLength(n: nat, k: nat)
    requires 0 < k && n < Pow10(k)
    ensures |ShowNat(n)| <= k
    decreases n
  {
    if n >= 10 {
      assert Pow10(k) == 10 * Pow10(k - 1);
      assert n / 10 < Pow10(k - 1);
      ShowNatLength(n / 10, k - 1);
    }
  }

  /** A 64-bit integer has at most 19 digits, far below `MaxStrDigits`. */
  lemma Int64Digits(n: int)
    requires -0x8000_0000_0000_0000 <= n < 0x8000_0000_0000_0000
    ensures |ShowNat(if n < 0 then -n else n)| <= 19
  {
    assert Pow10(4) == 10_000;
    assert Pow10(8) == 100_000_000;
    assert Pow10(12) == 1_000_000_000_000;
    assert Pow10(16) == 10_000_000_000_000_000;
    assert Pow10(19) == 10_000_000_000_000_000_000;
    ShowNatLength(if n < 0 then -n else n, 19);
  }

  /** `int(str(n)) == n` wherever `str(n)` is defined: the decimal notation of an integer of at most
      `MaxStrDigits` digits (`str()` raises `ValueError` beyond) is accepted and denotes that integer. */
  lemma IntRoundTrip(n: int)
    requires |ShowNat(if n < 0 then -n else n)| <= MaxStrDigits
    ensures ParseInt(ShowInt(n)) == Some(n)
  {
    var m: nat := if n < 0 then -n else n;
    ShowNatValue(m);
    if n < 0 {
      assert ShowInt(n)[1..] == ShowNat(m);
      ParseNegative(ShowInt(n));
    } else {
      ParseUnsigned(ShowNat(m));
    }
  }

  /** The spelling of an unbounded `max_area`: `None`, or a string whose lower case is `inf`, `infinity` or empty. */
  predicate Unbounded(v: Json)
  {
    v.JNull? || (v.JStr? && var l := LowerAscii(v.s); l == "inf" || l == "infinity" || l == "")
  }

  /** `str.lower()` on the letters A to Z. */
  function LowerAscii(s: string): (r: string)
    ensures |r| == |s|
  {
    seq(|s|, k requires 0 <= k < |s| => if 'A' <= s[k] <= 'Z' then (s[k] as int + 32) as char else s[k])
  }

  // ---------------------------------------------------------------------------------------------------------------
  // The route's decisions

  datatype Param = MinArea | MaxArea | Threshold

  /** Why the route refused a request: each case is an early `return`, with its HTTP status given by `Status`. */
  datatype Rejection =
    | EmptyRequest           // 请求数据为空
    | MissingFilename        // 缺少文件名参数
    | UnreadableImage        // 无法读取图像
    | NotAnInteger(param: Param)  // 参数错误: the ValueError of int()
    | MinAboveMax            // 参数错误: 最小面积不能大于最大面积
    | MinAreaTooSmall        // 最小面积必须≥1
    | ThresholdOutOfRange    // 阈值必须在0-255之间
    | InternalError          // 服务器内部错误: a TypeError, AttributeError or OverflowError reaching the outer handler

  function Status(r: Rejection): int
  {
    if r == InternalError then 500 else 400
  }

  /** The arguments `process_crack` is called with; `maxArea == None` stands for `float('inf')`. */
  datatype CrackParams = CrackParams(filename: string, minArea: int, maxArea: Option<int>, threshold: int)

  datatype RouteOutcome = Accepted(params: CrackParams) | Rejected(reason: Rejection)

  /** A failed `int()`: a `ValueError` is answered with 400 and names the parameter; the other exceptions escape the
      inner `try` and become a 500. */
  function ConversionFailure(c: IntConversion, p: Param): Rejection
  {
    if c.ValueError? then NotAnInteger(p) else InternalError
  }

  /** The conversions and checks of lines 272-294, in their order: `min_area`, `threshold`, `max_area`, the
      ordering check, the `min_area` range, the threshold range. */
  function CheckParams(filename: string, minV: Json, maxV: Json, thrV: Json): (r: RouteOutcome)
    ensures r.Accepted? ==>
      && 1 <= r.params.minArea
      && 0 <= r.params.threshold <= 255
      && (r.params.maxArea.Some? ==> r.params.minArea <= r.params.maxArea.value)
  {
    var mi := PyInt(minV);
    var th := PyInt(thrV);
    var mx := PyInt(maxV);
    if !mi.Converted? then Rejected(ConversionFailure(mi, MinArea))
    else if !th.Converted? then Rejected(ConversionFailure(th, Threshold))
    else if !Unbounded(maxV) && !mx.Converted? then Rejected(ConversionFailure(mx, MaxArea))
    else if !Unbounded(maxV) && mi.value > mx.value then Rejected(MinAboveMax)
    else if mi.value < 1 then Rejected(MinAreaTooSmall)
    else if th.value < 0 || th.value > 255 then Rejected(ThresholdOutOfRange)
    else Accepted(CrackParams(filename, mi.value, if Unbounded(maxV) then None else Some(mx.value), th.value))
  }

  /** What the route decides for a decoded body, up to the call of `process_crack`; `readable` says whether
      `cv2.imread` can read the uploaded file of that name. */
  function CrackRequest(data: Json, readable: string -> bool): (r: RouteOutcome)
    ensures r.Accepted? ==> data.JObject? && readable(r.params.filename)
  {
    if !Truthy(data) then Rejected(EmptyRequest)
    else if !data.JObject? then Rejected(InternalError)
    else
      var filename := Get(data.fields, "filename", JNull);
      if !Truthy(filename) then Rejected(MissingFilename)
      else if !filename.JStr? then Rejected(InternalError)
      else if !readable(filename.s) then Rejected(UnreadableImage)
      else CheckParams(filename.s, Get(data.fields, "min_area", DefaultMinArea),
                       Get(data.fields, "max_area", DefaultMaxArea), Get(data.fields, "threshold", DefaultThreshold))
  }

  /** The route's parameter handling as it runs: each parameter is converted in turn and each check exits early. */
  method ValidateCrackRequest(data: Json, readable: string -> bool) returns (r: RouteOutcome)
    ensures r == CrackRequest(data, readable)
  {
    if !Truthy(data) {
      return Rejected(EmptyRequest);
    }
    if !data.JObject? {
      return Rejected(InternalError);
    }
    var filename := Get(data.fields, "filename", JNull);
    var minArea := Get(data.fields, "min_area", DefaultMinArea);
    var maxArea := Get(data.fields, "max_area", DefaultMaxArea);
    var thresholdVal := Get(data.fields, "threshold", DefaultThreshold);
    if !Truthy(filename) {
      return Rejected(MissingFilename);
    }
    if !filename.JStr? {
      return Rejected(InternalError);
    }
    if !readable(filename.s) {
      return Rejected(UnreadableImage);
    }
    var minConv := PyInt(minArea);
    if !minConv.Converted? {
      return Rejected(ConversionFailure(minConv, MinArea));
    }
    var minValue := minConv.value;
    var thrConv := PyInt(thresholdVal);
    if !thrConv.Converted? {
      return Rejected(ConversionFailure(thrConv, Threshold));
    }
    var thrValue := thrConv.value;
    var maxValue: Option<int>;
    if Unbounded(maxArea) {
      maxValue := None;
    } else {
      var maxConv := PyInt(maxArea);
      if !maxConv.Converted? {
        return Rejected(ConversionFailure(maxConv, MaxArea));
      }
      maxValue := Some(maxConv.value);
    }
    if maxValue.Some? && minValue > maxValue.value {
      return Rejected(MinAboveMax);
    }
    if minValue < 1 {
      return Rejected(MinAreaTooSmall);
    }
    if thrValue < 0 || thrValue > 255 {
      return Rejected(ThresholdOutOfRange);
    }
    r := Accepted(CrackParams(filename.s, minValue, maxValue, thrValue));
  }

  // ---------------------------------------------------------------------------------------------------------------
  // Properties

  /** `process_crack` is reached exactly when every conversion succeeds and every check passes, and then with the
      converted values; `max_area` is unbounded exactly when it was spelt as the sentinel. */
  lemma AcceptedExactly(filename: string, minV: Json, maxV: Json, thrV: Json)
    ensures var r := CheckParams(filename, minV, maxV, thrV);
      r.Accepted? <==>
        && PyInt(minV).Converted? && PyInt(thrV).Converted?
        && (Unbounded(maxV) || PyInt(maxV).Converted?)
        && 1 <= PyInt(minV).value && 0 <= PyInt(thrV).value <= 255
        && (!Unbounded(maxV) ==> PyInt(minV).value <= PyInt(maxV).value)
    ensures var r := CheckParams(filename, minV, maxV, thrV);
      r.Accepted? ==>
        && r.params.filename == filename
        && Converted(r.params.minArea) == PyInt(minV)
        && Converted(r.params.threshold) == PyInt(thrV)
        && (r.params.maxArea.None? <==> Unbounded(maxV))
        && (r.params.maxArea.Some? ==> Converted(r.params.maxArea.value) == PyInt(maxV))
  {
  }

  /** The ordering check runs before the range checks: with a finite `max_area` below `min_area` the answer is the
      ordering error, whatever `min_area` and the threshold are. */
  lemma OrderingBeforeRanges(filename: string, minV: Json, maxV: Json, thrV: Json)
    requires PyInt(minV).Converted? && PyInt(thrV).Converted? && !Unbounded(maxV) && PyInt(maxV).Converted?
    requires PyInt(maxV).value < PyInt(minV).value
    ensures CheckParams(filename, minV, maxV, thrV) == Rejected(MinAboveMax)
    ensures Status(MinAboveMax) == 400
  {
  }

  /** A conversion failure of `min_area` is reported before anything about the threshold or `max_area`. */
  lemma MinAreaConvertedFirst(filename: string, minV: Json, maxV: Json, thrV: Json)
    requires !PyInt(minV).Converted?
    ensures var r := CheckParams(filename, minV, maxV, thrV);
      && r.Rejected?
      && (PyInt(minV).ValueError? <==> r.reason == NotAnInteger(MinArea))
      && (Status(r.reason) == 500 <==> PyInt(minV).TypeError? || PyInt(minV).OverflowError?)
  {
  }

  /** A body that names only a readable file is analysed with the defaults 1000, unbounded and 100. */
  lemma DefaultsApply(filename: string, readable: string -> bool)
    requires filename != "" && readable(filename)
    ensures CrackRequest(JObject(map["filename" := JStr(filename)]), readable)
         == Accepted(CrackParams(filename, 1000, None, 100))
  {
    var data := JObject(map["filename" := JStr(filename)]);
    assert "filename" in data.fields;
    assert "min_area" !in data.fields && "max_area" !in data.fields && "threshold" !in data.fields;
    assert LowerAscii("inf") == "inf";
    assert Unbounded(DefaultMaxArea);
  }

  /** The sentinel is recognised in any letter case, and `None` counts too; a padded spelling does not. */
  lemma SentinelSpellings()
    ensures Unbounded(JNull) && Unbounded(JStr("")) && Unbounded(JStr("INF")) && Unbounded(JStr("Infinity"))
    ensures !Unbounded(JStr(" inf")) && !Unbounded(JInt(0))
  {
    assert LowerAscii("INF") == "inf";
    assert LowerAscii("Infinity") == "infinity";
    assert LowerAscii(" inf") != "inf";
  }

  /** The body must be a non-empty JSON object naming a non-empty file name: an empty body is a 400, a non-empty
      body of another kind (which has no `.get`) is a 500, and so is a file name that is not a string. */
  lemma BodyShape(data: Json, readable: string -> bool)
    ensures var r := CrackRequest(data, readable);
      && (!Truthy(data) <==> r == Rejected(EmptyRequest))
      && (Truthy(data) && !data.JObject? ==> r == Rejected(InternalError))
      && (data.JObject? && Truthy(data) && !Truthy(Get(data.fields, "filename", JNull)) ==> r == Rejected(MissingFilename))
  {
  }
}
