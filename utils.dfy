/** The pure helpers of the app's `Utils` object: date and timestamp
    formatting, the percentage colour scale, EXIF-based rotation of a
    decoded photo and the JPEG re-compression loop that shrinks a photo
    before upload.

    Platform services are parameters: the java.time parsers/formatters are
    functions returning `None` when they throw, a decoded bitmap is an
    opaque value, and the JPEG encoder is a function from a bitmap and a
    quality to the number of bytes it produces. */
module Utils {
  import opened Results

  // ---------------------------------------------------------------------
  // formatDate

  /** `formatDate`: a string containing 'T' is parsed as an ISO instant and
      shown as "dd MMM yyyy, HH:mm"; any other string is parsed as a
      "yyyy-MM-dd" local date and shown as "dd MMM yyyy". Either parse may
      throw, and then the input is returned unchanged. `instantText` and
      `localDateText` are the two java.time parse-then-format pipelines
      (None = the pipeline threw). */
  function FormatDate(dateString: string,
                      instantText: string -> Option<string>,
                      localDateText: string -> Option<string>): (r: string)
    // the result is the input or what the selected pipeline produced
    ensures r == dateString
            || (if 'T' in dateString then instantText(dateString) == Some(r)
                else localDateText(dateString) == Some(r))
    // a failing selected pipeline is never visible: the input comes back
    ensures 'T' in dateString && instantText(dateString).None? ==> r == dateString
    ensures 'T' !in dateString && localDateText(dateString).None? ==> r == dateString
    // a successful selected pipeline always wins
    ensures 'T' in dateString && instantText(dateString).Some? ==> r == instantText(dateString).value
    ensures 'T' !in dateString && localDateText(dateString).Some? ==> r == localDateText(dateString).value
  {
    if 'T' in dateString then instantText(dateString).OrElse(dateString)
    else localDateText(dateString).OrElse(dateString)
  }

  /** Only the pipeline selected by the 'T' test is ever consulted: replacing
      the other one changes nothing. */
  lemma FormatDateConsultsOnePipeline(dateString: string,
                                      instant1: string -> Option<string>, instant2: string -> Option<string>,
                                      local1: string -> Option<string>, local2: string -> Option<string>)
    ensures 'T' in dateString && instant1(dateString) == instant2(dateString)
            ==> FormatDate(dateString, instant1, local1) == FormatDate(dateString, instant2, local2)
    ensures 'T' !in dateString && local1(dateString) == local2(dateString)
            ==> FormatDate(dateString, instant1, local1) == FormatDate(dateString, instant2, local2)
  {
  }

  /** A string its selected pipeline rejects comes back unchanged, and
      formatting the result again still leaves it alone. */
  lemma RejectedStringIsFixedPoint(dateString: string,
                                   instantText: string -> Option<string>,
                                   localDateText: string -> Option<string>)
    requires ('T' in dateString && instantText(dateString).None?)
             || ('T' !in dateString && localDateText(dateString).None?)
    ensures FormatDate(dateString, instantText, localDateText) == dateString
    ensures FormatDate(FormatDate(dateString, instantText, localDateText), instantText, localDateText)
            == dateString
  {
  }

  // ---------------------------------------------------------------------
  // formatTimestamp

  /** Kotlin `Long`: 64-bit two's complement. */
  const LONG_MIN: int := -0x8000_0000_0000_0000
  const LONG_MAX: int := 0x7FFF_FFFF_FFFF_FFFF
  const LONG_MODULUS: int := 0x1_0000_0000_0000_0000

  predicate IsLong(x: int) {
    LONG_MIN <= x <= LONG_MAX
  }

  /** The value a 64-bit subtraction or addition actually yields. */
  function WrapLong(x: int): (r: int)
    ensures IsLong(r)
    ensures (r - x) % LONG_MODULUS == 0
    ensures IsLong(x) ==> r == x
  {
    (x - LONG_MIN) % LONG_MODULUS + LONG_MIN
  }

  const ONE_DAY_MS: int := 24 * 60 * 60 * 1000
  const ONE_WEEK_MS: int := 7 * 24 * 60 * 60 * 1000

  /** The three `SimpleDateFormat` patterns `formatTimestamp` picks from. */
  datatype DatePattern = HourMinute | Weekday | DayMonthYear {
    function Text(): (t: string)
      ensures |t| > 0
    {
      match this
      case HourMinute => "HH:mm"
      case Weekday => "EEE"
      case DayMonthYear => "dd/MM/yy"
    }

    /** How much of the date the pattern shows: finer patterns first. */
    function Coarseness(): (n: nat)
      ensures n <= 2
    {
      match this
      case HourMinute => 0
      case Weekday => 1
      case DayMonthYear => 2
    }
  }

  /** The pattern `formatTimestamp` chooses for an epoch-millisecond
      `timestamp` read at clock value `now`; the age `now - timestamp` is a
      64-bit subtraction. */
  function TimestampPattern(timestamp: int, now: int): (p: DatePattern)
    requires IsLong(timestamp) && IsLong(now)
    // for every age the subtraction represents exactly:
    ensures IsLong(now - timestamp) ==> (p == HourMinute <==> now - timestamp < ONE_DAY_MS)
    ensures IsLong(now - timestamp) ==> (p == Weekday <==> ONE_DAY_MS <= now - timestamp < ONE_WEEK_MS)
    ensures IsLong(now - timestamp) ==> (p == DayMonthYear <==> ONE_WEEK_MS <= now - timestamp)
  {
    var diff := WrapLong(now - timestamp);
    if diff < ONE_DAY_MS then HourMinute
    else if diff < ONE_WEEK_MS then Weekday
    else DayMonthYear
  }

  /** The text `SimpleDateFormat(pattern).format(Date(epochMillis))` yields;
      the calendar arithmetic itself is left to the platform. */
  datatype DateText = DateText(pattern: string, epochMillis: int)

  /** `formatTimestamp`: the timestamp itself (not its age) is formatted,
      with one of the three patterns. */
  function FormatTimestamp(timestamp: int, now: int): (r: DateText)
    requires IsLong(timestamp) && IsLong(now)
    ensures r.epochMillis == timestamp
    ensures r.pattern == TimestampPattern(timestamp, now).Text()
    ensures r.pattern in {"HH:mm", "EEE", "dd/MM/yy"}
    ensures IsLong(now - timestamp) && now - timestamp < ONE_DAY_MS ==> r.pattern == "HH:mm"
    ensures IsLong(now - timestamp) && ONE_DAY_MS <= now - timestamp < ONE_WEEK_MS ==> r.pattern == "EEE"
    ensures IsLong(now - timestamp) && ONE_WEEK_MS <= now - timestamp ==> r.pattern == "dd/MM/yy"
  {
    DateText(TimestampPattern(timestamp, now).Text(), timestamp)
  }

  /** Of two timestamps read at the same moment, the older one never gets a
      finer pattern; a timestamp in the future shows the time of day. */
  lemma OlderTimestampsAreCoarser(newer: int, older: int, now: int)
    requires IsLong(newer) && IsLong(older) && IsLong(now)
    requires older <= newer && IsLong(now - older) && IsLong(now - newer)
    ensures TimestampPattern(newer, now).Coarseness() <= TimestampPattern(older, now).Coarseness()
    ensures newer > now ==> TimestampPattern(newer, now) == HourMinute
  {
  }

  /** The 64-bit subtraction wraps for the oldest representable instant:
      `Long.MIN_VALUE` read at any non-negative clock counts as less than a
      day old and is shown as a time of day. */
  lemma OldestInstantWrapsToTimeOfDay(now: int)
    requires 0 <= now <= LONG_MAX
    ensures !IsLong(now - LONG_MIN)
    ensures TimestampPattern(LONG_MIN, now) == HourMinute
  {
    assert (now - LONG_MIN - LONG_MIN) % LONG_MODULUS == now by {
      assert now - LONG_MIN - LONG_MIN == now + LONG_MODULUS;
    }
    assert WrapLong(now - LONG_MIN) == now + LONG_MIN;
  }

  // ---------------------------------------------------------------------
  // getColorBasedOnPercentage

  /** The six theme colours of the progress scale. */
  datatype ThemeColor = YellowDark | YellowLight | OrangeDark | OrangeLight | RedDark | RedLight {
    predicate IsDark() {
      YellowDark? || OrangeDark? || RedDark?
    }

    function Hue(): Hue {
      if YellowDark? || YellowLight? then Yellow
      else if OrangeDark? || OrangeLight? then Orange
      else Red
    }
  }

  datatype Hue = Yellow | Orange | Red {
    function Rank(): nat {
      match this
      case Yellow => 0
      case Orange => 1
      case Red => 2
    }
  }

  /** Kotlin's `coerceIn(lo, hi)`. */
  function CoerceIn(x: int, lo: int, hi: int): (r: int)
    requires lo <= hi
    ensures lo <= r <= hi
    ensures lo <= x <= hi ==> r == x
    ensures x < lo ==> r == lo
    ensures hi < x ==> r == hi
  {
    if x < lo then lo else if hi < x then hi else x
  }

  /** `getColorBasedOnPercentage`: the percentage is clamped to 0..100, then
      0..33 is yellow, 34..66 orange and the rest red, in the dark or light
      shade as the system theme asks. */
  function ColorBasedOnPercentage(isSystemDarkMode: bool, percentage: int): (c: ThemeColor)
    ensures c.IsDark() == isSystemDarkMode
    // the bands, stated on the unclamped input
    ensures c.Hue() == Yellow <==> percentage <= 33
    ensures c.Hue() == Orange <==> 34 <= percentage <= 66
    ensures c.Hue() == Red <==> 67 <= percentage
  {
    var clamped := CoerceIn(percentage, 0, 100);
    if 0 <= clamped <= 33 then (if isSystemDarkMode then YellowDark else YellowLight)
    else if 34 <= clamped <= 66 then (if isSystemDarkMode then OrangeDark else OrangeLight)
    else (if isSystemDarkMode then RedDark else RedLight)
  }

  /** The scale is monotone in the percentage, and the theme only picks the
      shade, never the hue. */
  lemma ColorScaleMonotone(isSystemDarkMode: bool, p: int, q: int)
    requires p <= q
    ensures ColorBasedOnPercentage(isSystemDarkMode, p).Hue().Rank()
            <= ColorBasedOnPercentage(isSystemDarkMode, q).Hue().Rank()
    ensures ColorBasedOnPercentage(true, p).Hue() == ColorBasedOnPercentage(false, p).Hue()
  {
  }

  // ---------------------------------------------------------------------
  // getBitmapWithCorrectRotation

  /** `ExifInterface` orientation codes the app reacts to. */
  const ORIENTATION_UNDEFINED: int := 0
  const ORIENTATION_ROTATE_180: int := 3
  const ORIENTATION_ROTATE_90: int := 6
  const ORIENTATION_ROTATE_270: int := 8

  /** A decoded image: the file it came from, or a rotated copy of another. */
  datatype Bitmap = Decoded(path: string) | Rotated(source: Bitmap, degrees: int)

  /** The clockwise rotation an EXIF orientation asks for; 0 for every code
      the app ignores (flips, transposes, undefined). */
  function RotationDegrees(orientation: int): (degrees: int)
    ensures degrees in {0, 90, 180, 270}
    ensures degrees == 90 <==> orientation == ORIENTATION_ROTATE_90
    ensures degrees == 180 <==> orientation == ORIENTATION_ROTATE_180
    ensures degrees == 270 <==> orientation == ORIENTATION_ROTATE_270
  {
    if orientation == ORIENTATION_ROTATE_90 then 90
    else if orientation == ORIENTATION_ROTATE_180 then 180
    else if orientation == ORIENTATION_ROTATE_270 then 270
    else 0
  }

  /** `getBitmapWithCorrectRotation`. `decoded` is what `decodeFile`
      returned (None = it could not decode). `orientation` is the EXIF tag
      (ORIENTATION_UNDEFINED when the tag is absent), or None when opening
      the EXIF data threw. Rotating a null bitmap throws too; every throw is
      caught and the bitmap is returned as decoded. */
  function BitmapWithCorrectRotation(decoded: Option<Bitmap>, orientation: Option<int>): (r: Option<Bitmap>)
    ensures r.None? <==> decoded.None?
    ensures decoded.Some? && orientation.Some? && RotationDegrees(orientation.value) != 0
            ==> r == Some(Rotated(decoded.value, RotationDegrees(orientation.value)))
    ensures orientation.None? || RotationDegrees(orientation.value) == 0 ==> r == decoded
  {
    match (decoded, orientation)
    case (Some(b), Some(o)) =>
      var degrees := RotationDegrees(o);
      if degrees == 0 then decoded else Some(Rotated(b, degrees))
    case _ => decoded
  }

  /** Rotation is applied at most once, on top of the decoded image. */
  lemma RotationIsSingle(path: string, orientation: Option<int>)
    ensures var r := BitmapWithCorrectRotation(Some(Decoded(path)), orientation);
            r == Some(Decoded(path))
            || (r.Some? && r.value.Rotated? && r.value.source == Decoded(path) && r.value.degrees in {90, 180, 270})
  {
  }

  // ---------------------------------------------------------------------
  // compressImageSize

  const MAXIMAL_SIZE: int := 500000
  const INITIAL_QUALITY: int := 60
  const QUALITY_STEP: int := 10
  /** Index of the last quality the platform accepts: QualityAt(6) == 0. */
  const LAST_VALID_INDEX: int := 6

  /** `Bitmap.compress` accepts a quality in 0..100 and throws
      IllegalArgumentException otherwise. */
  predicate ValidQuality(q: int) {
    0 <= q <= 100
  }

  /** The quality of the i-th encoding attempt: 60, 50, 40, ... */
  function QualityAt(i: int): (q: int)
    ensures 0 <= i <= LAST_VALID_INDEX <==> ValidQuality(q) && q <= INITIAL_QUALITY
  {
    INITIAL_QUALITY - QUALITY_STEP * i
  }

  /** The qualities of the first n attempts, in order. */
  function Attempts(n: nat): (qs: seq<int>)
    ensures |qs| == n
    ensures forall i :: 0 <= i < n ==> qs[i] == QualityAt(i)
  {
    if n == 0 then [] else Attempts(n - 1) + [QualityAt(n - 1)]
  }

  /** The i-th attempt still produces more than MAXIMAL_SIZE bytes. */
  predicate Exceeds(b: Bitmap, encodedSize: (Bitmap, int) -> nat, i: int) {
    encodedSize(b, QualityAt(i)) > MAXIMAL_SIZE
  }

  /** The first attempt index at or after k whose encoding fits, among the
      qualities the platform accepts. */
  function FirstFit(b: Bitmap, encodedSize: (Bitmap, int) -> nat, k: nat): (r: Option<nat>)
    requires k <= LAST_VALID_INDEX + 1
    ensures r.Some? ==> k <= r.value <= LAST_VALID_INDEX && !Exceeds(b, encodedSize, r.value)
    ensures r.Some? ==> forall j :: k <= j < r.value ==> Exceeds(b, encodedSize, j)
    ensures r.None? ==> forall j :: k <= j <= LAST_VALID_INDEX ==> Exceeds(b, encodedSize, j)
    decreases LAST_VALID_INDEX + 1 - k
  {
    if k > LAST_VALID_INDEX then None
    else if !Exceeds(b, encodedSize, k) then Some(k)
    else FirstFit(b, encodedSize, k + 1)
  }

  /** How the call ends: the file is left alone (no bitmap), it is
      rewritten at a quality, or `Bitmap.compress` threw at a quality (by
      then the output stream has already truncated the file). */
  datatype Compression = FileKept | Rewritten(quality: int) | CompressThrew(quality: int)

  /** What `compressImageSize` does as written. With no bitmap the stream
      stays empty, the loop runs once and nothing is written. Otherwise the
      loop stops at the first quality whose encoding fits, having already
      lowered the quality by another step, and the file is written at that
      lowered quality; when no accepted quality fits, the attempt at -10
      throws. */
  function AsWrittenOutcome(bitmap: Option<Bitmap>, encodedSize: (Bitmap, int) -> nat): Compression {
    match bitmap
    case None => FileKept
    case Some(b) =>
      match FirstFit(b, encodedSize, 0)
      case None => CompressThrew(QualityAt(LAST_VALID_INDEX + 1))
      case Some(i) =>
        var q := QualityAt(i) - QUALITY_STEP;
        if ValidQuality(q) then Rewritten(q) else CompressThrew(q)
  }

  /** The qualities the as-written loop measures. */
  function AsWrittenAttempts(bitmap: Option<Bitmap>, encodedSize: (Bitmap, int) -> nat): seq<int> {
    match bitmap
    case None => Attempts(1)
    case Some(b) =>
      match FirstFit(b, encodedSize, 0)
      case None => Attempts(LAST_VALID_INDEX + 1)
      case Some(i) => Attempts(i + 1)
  }

  /** `compressImageSize`, as written. */
  method CompressImageSize(decoded: Option<Bitmap>, orientation: Option<int>,
                           encodedSize: (Bitmap, int) -> nat)
    returns (tried: seq<int>, outcome: Compression)
    ensures var bitmap := BitmapWithCorrectRotation(decoded, orientation);
            tried == AsWrittenAttempts(bitmap, encodedSize) && outcome == AsWrittenOutcome(bitmap, encodedSize)
  {
    var bitmap := BitmapWithCorrectRotation(decoded, orientation);
    var quality := INITIAL_QUALITY;
    var streamLength := 0;
    tried := [];
    while true
      invariant quality == QualityAt(|tried|) && quality >= -QUALITY_STEP
      invariant tried == Attempts(|tried|)
      invariant bitmap.None? ==> tried == []
      invariant bitmap.Some? ==> |tried| <= LAST_VALID_INDEX + 1
      invariant bitmap.Some? ==> forall j :: 0 <= j < |tried| ==> Exceeds(bitmap.value, encodedSize, j)
      decreases quality + QUALITY_STEP
    {
      if bitmap.Some? && !ValidQuality(quality) {
        // every accepted quality was measured and none fitted
        outcome := CompressThrew(quality);
        return;
      }
      streamLength := if bitmap.Some? then encodedSize(bitmap.value, quality) else 0;
      tried := tried + [quality];
      quality := quality - QUALITY_STEP;
      if streamLength <= MAXIMAL_SIZE {
        break;
      }
    }
    if bitmap.None? {
      outcome := FileKept;
    } else if ValidQuality(quality) {
      outcome := Rewritten(quality);
    } else {
      outcome := CompressThrew(quality);
    }
  }

  /** As written, the file is always rewritten one step below the quality
      whose size was measured to fit; for an encoder whose output does not
      grow as the quality drops, the written file still fits. */
  lemma AsWrittenWritesBelowMeasuredQuality(b: Bitmap, encodedSize: (Bitmap, int) -> nat)
    ensures var out := AsWrittenOutcome(Some(b), encodedSize);
            out.Rewritten? ==> encodedSize(b, out.quality + QUALITY_STEP) <= MAXIMAL_SIZE
                               && out.quality + QUALITY_STEP in AsWrittenAttempts(Some(b), encodedSize)
                               && out.quality !in AsWrittenAttempts(Some(b), encodedSize)
    ensures var out := AsWrittenOutcome(Some(b), encodedSize);
            out.Rewritten?
            && (forall q :: ValidQuality(q) && ValidQuality(q + QUALITY_STEP) ==> encodedSize(b, q) <= encodedSize(b, q + QUALITY_STEP))
            ==> encodedSize(b, out.quality) <= MAXIMAL_SIZE
  {
    var out := AsWrittenOutcome(Some(b), encodedSize);
    if out.Rewritten? {
      var i := FirstFit(b, encodedSize, 0).value;
      var tried := AsWrittenAttempts(Some(b), encodedSize);
      assert tried[i] == out.quality + QUALITY_STEP;
      assert forall j :: 0 <= j < |tried| ==> tried[j] > out.quality;
    }
  }

  /** An encoder that only fits at the lowest accepted quality, 0. */
  function FitsOnlyAtZero(b: Bitmap, q: int): nat {
    if q <= 0 then 400000 else 600000
  }

  /** The failure as written: the size measured at quality 0 fits, the loop
      lowers the quality to -10 anyway, and the final write there throws
      instead of producing the 400000-byte file that was measured. */
  lemma AsWrittenThrowsAfterFitAtZero(path: string)
    ensures FitsOnlyAtZero(Decoded(path), 0) <= MAXIMAL_SIZE
            && AsWrittenAttempts(Some(Decoded(path)), FitsOnlyAtZero) == [60, 50, 40, 30, 20, 10, 0]
            && AsWrittenOutcome(Some(Decoded(path)), FitsOnlyAtZero) == CompressThrew(-10)
    ensures IntendedOutcome(Some(Decoded(path)), FitsOnlyAtZero) == Rewritten(0)
  {
    var b := Decoded(path);
    assert FirstFit(b, FitsOnlyAtZero, 0) == Some(6) by {
      assert !Exceeds(b, FitsOnlyAtZero, 6);
      assert forall j :: 0 <= j < 6 ==> Exceeds(b, FitsOnlyAtZero, j);
    }
    assert Attempts(7) == [60, 50, 40, 30, 20, 10, 0];
  }

  /** What `compressImageSize` evidently means to do: write the file at the
      quality whose size was measured, and stop lowering the quality at 0. */
  function IntendedOutcome(bitmap: Option<Bitmap>, encodedSize: (Bitmap, int) -> nat): Compression {
    match bitmap
    case None => FileKept
    case Some(b) =>
      match FirstFit(b, encodedSize, 0)
      case None => Rewritten(QualityAt(LAST_VALID_INDEX))
      case Some(i) => Rewritten(QualityAt(i))
  }

  /** The intended behaviour never throws, writes at an accepted quality,
      and the written file fits unless even quality 0 does not. */
  lemma IntendedMeetsLimitOrFloor(b: Bitmap, encodedSize: (Bitmap, int) -> nat)
    ensures IntendedOutcome(Some(b), encodedSize).Rewritten?
    ensures ValidQuality(IntendedOutcome(Some(b), encodedSize).quality)
    ensures var q := IntendedOutcome(Some(b), encodedSize).quality;
            encodedSize(b, q) <= MAXIMAL_SIZE
            || (q == 0 && forall j :: 0 <= j <= LAST_VALID_INDEX ==> Exceeds(b, encodedSize, j))
  {
  }

  /** The corrected `compressImageSize`: the same measuring loop, bounded
      below by quality 0, writing at the last measured quality. */
  method CompressImageSizeIntended(decoded: Option<Bitmap>, orientation: Option<int>,
                                   encodedSize: (Bitmap, int) -> nat)
    returns (tried: seq<int>, outcome: Compression)
    ensures var bitmap := BitmapWithCorrectRotation(decoded, orientation);
            outcome == IntendedOutcome(bitmap, encodedSize)
            && (bitmap.Some? ==> tried == AsWrittenAttempts(bitmap, encodedSize))
  {
    var bitmap := BitmapWithCorrectRotation(decoded, orientation);
    var quality := INITIAL_QUALITY;
    var streamLength := if bitmap.Some? then encodedSize(bitmap.value, quality) else 0;
    tried := [quality];
    while streamLength > MAXIMAL_SIZE && quality > 0
      invariant 1 <= |tried| <= LAST_VALID_INDEX + 1
      invariant quality == QualityAt(|tried| - 1)
      invariant tried == Attempts(|tried|)
      invariant bitmap.Some? ==> streamLength == encodedSize(bitmap.value, quality)
      invariant bitmap.None? ==> streamLength == 0
      invariant bitmap.Some? ==> forall j :: 0 <= j < |tried| - 1 ==> Exceeds(bitmap.value, encodedSize, j)
      decreases quality
    {
      quality := quality - QUALITY_STEP;
      streamLength := encodedSize(bitmap.value, quality);
      tried := tried + [quality];
    }
    outcome := if bitmap.None? then FileKept else Rewritten(quality);
  }
}
