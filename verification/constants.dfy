/**
 * The configuration of the bunny mark: the body count read from the page URL,
 * the count presets offered by the UI, and the numeric constants shared by the
 * physics step, the spritesheet and the renderer (src/constants.ts).
 */
module Constants {
  import opened Wrappers

  const DEFAULT_COUNT: int := 100_000
  const MIN_COUNT: int := 1_000
  const MAX_COUNT: int := 2_000_000

  const COUNT_PRESETS: seq<(string, int)> := [
    ("1K", 1_000), ("50K", 50_000), ("100K", 100_000), ("200K", 200_000),
    ("500K", 500_000), ("1M", 1_000_000), ("1.5M", 1_500_000), ("2M", 2_000_000)
  ]

  const SPRITE_COLUMNS: nat := 4
  const SPRITE_ROWS: nat := 3
  const SPRITE_TYPES: nat := 12

  const GRAVITY: real := -0.00075
  const BOUNCE_DAMPING: real := 0.85
  const BOUNDS_LEFT: real := -1.0
  const BOUNDS_RIGHT: real := 1.0
  const BOUNDS_BOTTOM: real := -1.0
  const BOUNDS_TOP: real := 1.0

  const TEXTURE_WIDTH: nat := 104
  const TEXTURE_HEIGHT: nat := 111

  const SCALE_X: real := 0.015
  const SCALE_Y: real := 0.02

  const TARGET_FPS: nat := 60
  /** Milliseconds per reference frame, 1000/60 as an exact rational. */
  const TARGET_FRAME_TIME: real := 1000.0 / (TARGET_FPS as real)

  const BUNNY_NAMES: seq<string> := [
    "rabbitv3_ash", "rabbitv3_batman", "rabbitv3_bb8", "rabbitv3_frankenstein",
    "rabbitv3_neo", "rabbitv3_sonic", "rabbitv3_spidey", "rabbitv3_stormtrooper",
    "rabbitv3_superman", "rabbitv3_tron", "rabbitv3_wolverine", "rabbitv3"
  ]

  // ---------------------------------------------------------------------------
  // parseInt(s, 10)
  // ---------------------------------------------------------------------------

  /** The characters ECMAScript's parseInt skips before the number. */
  predicate IsJsWhitespace(c: char) {
    c == ' ' || c == '\t' || c == '\n' || c == '\r' || c == '\U{0B}' || c == '\U{0C}'
    || c == '\U{A0}' || c == '\U{1680}' || ('\U{2000}' <= c <= '\U{200A}')
    || c == '\U{2028}' || c == '\U{2029}' || c == '\U{202F}' || c == '\U{205F}'
    || c == '\U{3000}' || c == '\U{FEFF}'
  }

  predicate IsDigit(c: char) { '0' <= c <= '9' }

  function DigitValue(c: char): (d: nat)
    requires IsDigit(c)
    ensures d < 10
  {
    (c as int) - ('0' as int)
  }

  /** The longest prefix of `s` made of decimal digits. */
  function DigitPrefix(s: string): (p: string)
    ensures |p| <= |s| && p == s[..|p|]
    ensures forall i :: 0 <= i < |p| ==> IsDigit(p[i])
    ensures |p| < |s| ==> !IsDigit(s[|p|])
  {
    if s == [] || !IsDigit(s[0]) then [] else [s[0]] + DigitPrefix(s[1..])
  }

  /** The value of a string of decimal digits, most significant first. */
  function DigitsValue(ds: string): nat
    requires forall i :: 0 <= i < |ds| ==> IsDigit(ds[i])
  {
    if ds == [] then 0 else DigitsValue(ds[..|ds| - 1]) * 10 + DigitValue(ds[|ds| - 1])
  }

  /** The input without its leading whitespace. */
  function TrimStart(s: string): (t: string)
    ensures |t| <= |s| && t == s[|s| - |t|..]
    ensures forall i :: 0 <= i < |s| - |t| ==> IsJsWhitespace(s[i])
    ensures t == [] || !IsJsWhitespace(t[0])
  {
    if s != [] && IsJsWhitespace(s[0]) then TrimStart(s[1..]) else s
  }

  /** Input that does not start with whitespace is kept whole. */
  lemma TrimStartKeeps(s: string)
    requires s == [] || !IsJsWhitespace(s[0])
    ensures TrimStart(s) == s
  {
  }

  /**
   * parseInt with radix 10: leading whitespace, an optional sign, then the
   * longest run of digits; `None` stands for NaN (no digit after the sign).
   */
  function ParseInt(s: string): Option<int> {
    var t := TrimStart(s);
    var negative := t != [] && t[0] == '-';
    var body := if t != [] && (t[0] == '-' || t[0] == '+') then t[1..] else t;
    var digits := DigitPrefix(body);
    if digits == [] then None
    else
      var magnitude: int := DigitsValue(digits);
      Some(if negative then -magnitude else magnitude)
  }

  /** The decimal rendering of a natural number, as a template literal writes it. */
  function DecimalString(n: nat): (s: string)
    ensures s != [] && forall i :: 0 <= i < |s| ==> IsDigit(s[i])
    ensures s[0] == '0' <==> n == 0
  {
    (if n < 10 then [] else DecimalString(n / 10)) + [('0' as int + n % 10) as char]
  }

  lemma {:induction false} DecimalStringValue(n: nat)
    ensures DigitsValue(DecimalString(n)) == n
  {
    var s := DecimalString(n);
    assert s[..|s| - 1] == (if n < 10 then [] else DecimalString(n / 10));
    if n >= 10 {
      DecimalStringValue(n / 10);
    }
  }

  lemma {:induction false} DigitPrefixOfDigits(ds: string)
    requires forall i :: 0 <= i < |ds| ==> IsDigit(ds[i])
    ensures DigitPrefix(ds) == ds
  {
    if ds != [] {
      DigitPrefixOfDigits(ds[1..]);
    }
  }

  /** A non-empty run of digits is read as its decimal value. */
  lemma ParseIntOfDigits(s: string)
    requires s != [] && forall i :: 0 <= i < |s| ==> IsDigit(s[i])
    ensures ParseInt(s) == Some(DigitsValue(s))
  {
    var c := s[0];
    assert IsDigit(c);
    assert !IsJsWhitespace(c);
    TrimStartKeeps(s);
    assert c != '-' && c != '+';
    DigitPrefixOfDigits(s);
    assert DigitPrefix(s) == s;
  }

  /** Round trip: parseInt reads back the decimal rendering of every natural number. */
  lemma ParseIntDecimal(n: nat)
    ensures ParseInt(DecimalString(n)) == Some(n)
  {
    ParseIntOfDigits(DecimalString(n));
    DecimalStringValue(n);
  }

  // ---------------------------------------------------------------------------
  // getCountFromURL
  // ---------------------------------------------------------------------------

  /** Math.max(1000, Math.min(parsed, 2_000_000)). */
  function ClampCount(parsed: int): (r: int)
    ensures MIN_COUNT <= r <= MAX_COUNT
    ensures MIN_COUNT <= parsed <= MAX_COUNT ==> r == parsed
    ensures parsed < MIN_COUNT ==> r == MIN_COUNT
    ensures parsed > MAX_COUNT ==> r == MAX_COUNT
  {
    var upper := if parsed < MAX_COUNT then parsed else MAX_COUNT;
    if MIN_COUNT > upper then MIN_COUNT else upper
  }

  lemma ClampCountIdempotent(parsed: int)
    ensures ClampCount(ClampCount(parsed)) == ClampCount(parsed)
  {
  }

  /**
   * The body count for the value of the `bunny-count` query parameter
   * (`None` when the parameter is absent). An absent or empty parameter, or
   * one parseInt reads as NaN, gives DEFAULT_COUNT; anything else is clamped.
   */
  function CountFromURL(param: Option<string>): (r: int)
    ensures MIN_COUNT <= r <= MAX_COUNT
    ensures param == None || param == Some("") ==> r == DEFAULT_COUNT
    ensures param.Some? && ParseInt(param.value) == None ==> r == DEFAULT_COUNT
    ensures param.Some? && param.value != "" && ParseInt(param.value).Some? ==>
              r == ClampCount(ParseInt(param.value).value)
  {
    if param == None || param.value == "" then DEFAULT_COUNT
    else match ParseInt(param.value)
      case None => DEFAULT_COUNT
      case Some(parsed) => ClampCount(parsed)
  }

  /** A decimal count inside the allowed range is taken as it is. */
  lemma CountFromURLDecimal(n: nat)
    requires MIN_COUNT <= n <= MAX_COUNT
    ensures CountFromURL(Some(DecimalString(n))) == n
  {
    ParseIntDecimal(n);
  }

  /** Every preset lies in the allowed range and the presets are strictly
      increasing, hence distinct. */
  lemma PresetsInRange()
    ensures forall i :: 0 <= i < |COUNT_PRESETS| ==> MIN_COUNT <= COUNT_PRESETS[i].1 <= MAX_COUNT
    ensures forall i, j :: 0 <= i < j < |COUNT_PRESETS| ==> COUNT_PRESETS[i].1 < COUNT_PRESETS[j].1
  {
  }

  /** The link the UI builds for a preset, `?bunny-count=<value>`, yields that value. */
  lemma PresetLinksRoundTrip(i: nat)
    requires i < |COUNT_PRESETS|
    ensures CountFromURL(Some(DecimalString(COUNT_PRESETS[i].1))) == COUNT_PRESETS[i].1
  {
    PresetsInRange();
    CountFromURLDecimal(COUNT_PRESETS[i].1);
  }

  /** The atlas grid, the sprite-type count and the name list agree. */
  lemma SpriteConstantsAgree()
    ensures SPRITE_TYPES == SPRITE_COLUMNS * SPRITE_ROWS == |BUNNY_NAMES|
    ensures forall i, j :: 0 <= i < j < |BUNNY_NAMES| ==> BUNNY_NAMES[i] != BUNNY_NAMES[j]
  {
  }

  /** The intervals the physics step clamps positions into are non-empty. */
  lemma BoundsNonEmpty()
    ensures BOUNDS_LEFT < BOUNDS_RIGHT - SCALE_X
    ensures BOUNDS_BOTTOM < BOUNDS_TOP - SCALE_Y
  {
  }
}
