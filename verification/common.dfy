/** Value types and string helpers shared by every part of the delivery engine model.

    The Python code base relies on a handful of built-in behaviours that matter to
    the engine: truthiness of optional strings, `str.startswith`, `str.split(":", 1)`,
    `str.rstrip("/")`, `str.strip()`, substring tests and `int(...)` conversion of
    request fields.  Each is written out here once. */
module Common {

  datatype Option<T> = None | Some(value: T)

  /** Instants on one integer clock, in seconds since 0001-01-01 00:00:00, the
      earliest instant a Python `datetime` can hold. */
  type Time = int

  /** `timedelta(days=1)` in seconds. */
  const SECONDS_PER_DAY: int := 86400

  /** The start of year 10000, one second past the last whole second a
      `datetime` can hold: 3652059 days after the clock's origin. */
  const DATETIME_END: int := 3652059 * SECONDS_PER_DAY

  /** The largest day count a `timedelta` accepts, in either direction. */
  const TIMEDELTA_MAX_DAYS: int := 999999999

  /** Whether a `datetime` can hold the instant. */
  predicate InDatetimeRange(t: Time)
  {
    0 <= t < DATETIME_END
  }

  /** `now + timedelta(days=days)`: `None` where Python raises `OverflowError`,
      either because the day count is out of `timedelta`'s range or because the
      sum leaves `datetime`'s. */
  function AddDays(now: Time, days: int): (r: Option<Time>)
    ensures r.Some? ==> InDatetimeRange(r.value) && r.value - now == days * SECONDS_PER_DAY
    ensures r.None? <==> days < -TIMEDELTA_MAX_DAYS || TIMEDELTA_MAX_DAYS < days ||
                         !InDatetimeRange(now + days * SECONDS_PER_DAY)
  {
    if days < -TIMEDELTA_MAX_DAYS || TIMEDELTA_MAX_DAYS < days then None
    else if InDatetimeRange(now + days * SECONDS_PER_DAY) then Some(now + days * SECONDS_PER_DAY)
    else None
  }

  /** From any instant a `datetime` holds, adding at least 3652059 days (the
      whole span of `datetime`) overflows, while adding days that keep the sum
      before year 10000 never does. */
  lemma AddDaysRange(now: Time, days: int)
    requires InDatetimeRange(now)
    ensures days >= 3652059 ==> AddDays(now, days).None?
    ensures 0 <= days && now + days * SECONDS_PER_DAY < DATETIME_END ==> AddDays(now, days) == Some(now + days * SECONDS_PER_DAY)
  {
    if days >= 3652059 {
      assert days * SECONDS_PER_DAY >= DATETIME_END;
    }
    if 0 <= days && now + days * SECONDS_PER_DAY < DATETIME_END {
      assert days * SECONDS_PER_DAY < DATETIME_END;
      assert days < 3652059;
    }
  }

  /** A stored `premium_until` field: absent or `None` (or an empty string),
      an instant (a `datetime`, or an ISO string that `fromisoformat` accepts),
      or a string that `fromisoformat` rejects. */
  datatype PremiumUntil = Unset | At(t: Time) | Unparseable

  /** What a client observes when it asks an ad-status endpoint over HTTP:
      nothing (timeout, connection error, bad JSON) or a status code with the
      `status` field of the JSON body, if any. */
  datatype StatusReply = Unreachable | HttpReply(code: int, status: Option<string>)

  /** A JSON scalar as it arrives in a request body; a missing key reads as `JNull`. */
  datatype Json = JNull | JBool(b: bool) | JInt(i: int) | JStr(s: string)

  /** Python truthiness of an optional string: `None` and `""` are false. */
  predicate Truthy(s: Option<string>)
  {
    s.Some? && s.value != ""
  }

  /** Python truthiness of a JSON scalar. */
  predicate JTruthy(v: Json)
  {
    match v
    case JNull => false
    case JBool(b) => b
    case JInt(i) => i != 0
    case JStr(s) => s != ""
  }

  predicate StartsWith(s: string, prefix: string)
  {
    |prefix| <= |s| && s[..|prefix|] == prefix
  }

  predicate OccursAt(s: string, w: string, i: int)
  {
    0 <= i && i + |w| <= |s| && s[i..i + |w|] == w
  }

  /** Python's `w in s` for strings. */
  predicate Contains(s: string, w: string)
  {
    exists i :: 0 <= i <= |s| - |w| && OccursAt(s, w, i)
  }

  // ---------------------------------------------------------------------------
  // s.split(c, 1)[1]
  // ---------------------------------------------------------------------------

  /** Index of the first occurrence of `c`, if any. */
  function IndexOf(s: string, c: char): (r: Option<nat>)
    ensures r.Some? ==> r.value < |s| && s[r.value] == c
    ensures r.Some? ==> forall k :: 0 <= k < r.value ==> s[k] != c
    ensures r.None? ==> forall k :: 0 <= k < |s| ==> s[k] != c
  {
    if s == [] then None
    else if s[0] == c then Some(0)
    else match IndexOf(s[1..], c)
      case None => None
      case Some(i) => Some(i + 1)
  }

  /** `s.split(c, 1)[1]`: everything after the first `c`; `None` where Python
      raises `IndexError` because `c` does not occur. */
  function AfterFirst(s: string, c: char): (r: Option<string>)
    ensures r.None? <==> c !in s
    ensures r.Some? ==> |r.value| < |s| && s[|s| - |r.value| - 1] == c
    ensures r.Some? ==> c !in s[..|s| - |r.value| - 1] && r.value == s[|s| - |r.value|..]
  {
    match IndexOf(s, c)
    case None => None
    case Some(i) =>
      assert s[..i] == s[..|s| - |s[i + 1..]| - 1];
      Some(s[i + 1..])
  }

  /** After a prefix whose only `c` is its last character, the split yields
      exactly the rest of the string: this is how `"ad_check:<token>"` gives up
      its token. */
  lemma AfterPrefix(s: string, prefix: string, c: char)
    requires StartsWith(s, prefix) && |prefix| > 0
    requires prefix[|prefix| - 1] == c && c !in prefix[..|prefix| - 1]
    ensures AfterFirst(s, c) == Some(s[|prefix|..])
  {
    var i := |prefix| - 1;
    assert s[i] == c;
    assert forall k :: 0 <= k < i ==> s[k] == prefix[..i][k];
  }

  // ---------------------------------------------------------------------------
  // str.rstrip("/") and str.strip()
  // ---------------------------------------------------------------------------

  /** `s.rstrip("/")`: `s` without all of its trailing slashes. */
  function RStripSlash(s: string): (r: string)
    ensures StartsWith(s, r)
    ensures r == [] || r[|r| - 1] != '/'
    ensures forall k :: |r| <= k < |s| ==> s[k] == '/'
  {
    if |s| > 0 && s[|s| - 1] == '/' then RStripSlash(s[..|s| - 1]) else s
  }

  /** The characters for which Python's `str.isspace()` holds, which are the
      ones `str.strip()` and `int()` remove: the ASCII controls 9-13 and 28-31,
      the space, U+0085, U+00A0, U+1680, U+2000-U+200A, U+2028, U+2029,
      U+202F, U+205F and U+3000. */
  predicate IsSpace(c: char)
  {
    var n := c as int;
    (9 <= n <= 13) || (28 <= n <= 32) || n == 0x85 || n == 0xA0 || n == 0x1680 ||
    (0x2000 <= n <= 0x200A) || n == 0x2028 || n == 0x2029 || n == 0x202F || n == 0x205F || n == 0x3000
  }

  /** Index of the first non-space character (or `|s|`). */
  function LeadingEnd(s: string): (a: nat)
    ensures a <= |s|
    ensures forall k :: 0 <= k < a ==> IsSpace(s[k])
    ensures a < |s| ==> !IsSpace(s[a])
  {
    if |s| > 0 && IsSpace(s[0]) then 1 + LeadingEnd(s[1..]) else 0
  }

  /** One past the last non-space character (or 0). */
  function TrailingStart(s: string): (b: nat)
    ensures b <= |s|
    ensures forall k :: b <= k < |s| ==> IsSpace(s[k])
    ensures b > 0 ==> !IsSpace(s[b - 1])
  {
    if |s| > 0 && IsSpace(s[|s| - 1]) then TrailingStart(s[..|s| - 1]) else |s|
  }

  /** The window `[a, b)` that `str.strip()` keeps: only whitespace lies outside it. */
  function StripWindow(s: string): (w: (nat, nat))
    ensures w.0 <= w.1 <= |s|
    ensures forall k :: 0 <= k < w.0 ==> IsSpace(s[k])
    ensures forall k :: w.1 <= k < |s| ==> IsSpace(s[k])
    ensures w.0 < w.1 ==> !IsSpace(s[w.0]) && !IsSpace(s[w.1 - 1])
  {
    var a := LeadingEnd(s);
    if a == |s| then (a, a) else (a, TrailingStart(s))
  }

  /** `s.strip()`: the slice of `s` left after removing whitespace from both
      ends, and nothing more. */
  function Strip(s: string): (r: string)
    ensures exists a, b :: 0 <= a <= b <= |s| && r == s[a..b] &&
              (forall k :: 0 <= k < a ==> IsSpace(s[k])) && (forall k :: b <= k < |s| ==> IsSpace(s[k]))
    ensures r == [] || (!IsSpace(r[0]) && !IsSpace(r[|r| - 1]))
  {
    var w := StripWindow(s);
    s[w.0..w.1]
  }

  /** A word without whitespace that occurs in `s` still occurs after `s.strip()`. */
  lemma StripKeepsWord(s: string, w: string)
    requires |w| > 0 && forall k :: 0 <= k < |w| ==> !IsSpace(w[k])
    requires Contains(s, w)
    ensures Contains(Strip(s), w)
  {
    var i :| 0 <= i <= |s| - |w| && OccursAt(s, w, i);
    var win := StripWindow(s);
    assert s[i] == w[0];
    assert win.0 <= i;
    assert s[i + |w| - 1] == w[|w| - 1];
    assert i + |w| <= win.1;
    var r := Strip(s);
    assert r[i - win.0..i - win.0 + |w|] == s[i..i + |w|];
    assert OccursAt(r, w, i - win.0);
  }

  /** A string that neither starts nor ends with whitespace is left alone by `strip()`. */
  lemma StripNoop(s: string)
    requires s == [] || (!IsSpace(s[0]) && !IsSpace(s[|s| - 1]))
    ensures Strip(s) == s
  {
    if s != [] {
      assert LeadingEnd(s) == 0;
      assert TrailingStart(s) == |s|;
    }
  }

  // ---------------------------------------------------------------------------
  // int(...)
  // ---------------------------------------------------------------------------

  predicate IsDigit(c: char)
  {
    '0' <= c <= '9'
  }

  predicate AllDigits(s: string)
  {
    forall k :: 0 <= k < |s| ==> IsDigit(s[k])
  }

  function DigitsValue(s: string): nat
    requires AllDigits(s)
  {
    if s == [] then 0 else DigitsValue(s[..|s| - 1]) * 10 + ((s[|s| - 1] as int) - ('0' as int))
  }

  /** A run of digits is left alone by `strip()`. */
  lemma DigitsUnstripped(s: string)
    ensures s != [] && AllDigits(s) ==> Strip(s) == s
  {
    if s != [] && AllDigits(s) {
      StripNoop(s);
    }
  }

/** Python's `int(s)` on a string: surrounding whitespace, an optional sign and
      at least one ASCII digit; `None` where Python raises `ValueError`. */
  function ParseInt(s: string): (r: Option<int>)
    ensures s != [] && AllDigits(s) ==> r == Some(DigitsValue(s))
  {
    DigitsUnstripped(s);
    var t := Strip(s);
    if |t| > 0 && (t[0] == '-' || t[0] == '+') then
      var d := t[1..];
      if |d| > 0 && AllDigits(d) then Some(if t[0] == '-' then 0 - DigitsValue(d) else DigitsValue(d) as int) else None
    else if |t| > 0 && AllDigits(t) then Some(DigitsValue(t))
    else None
  }

  /** `int(s)` succeeds only on text holding at least one digit: an empty,
      blank or sign-only argument is refused. */
  lemma ParseIntNeedsDigit(s: string)
    ensures ParseInt(s).Some? ==> exists k :: 0 <= k < |s| && IsDigit(s[k])
  {
    if ParseInt(s).Some? {
      var w := StripWindow(s);
      var t := Strip(s);
      assert t == s[w.0..w.1];
      if t[0] == '-' || t[0] == '+' {
        assert IsDigit(t[1]);
        assert t[1] == s[w.0 + 1];
      } else {
        assert IsDigit(t[0]);
        assert t[0] == s[w.0];
      }
    }
  }

  /** Python's `int(v)` on a JSON scalar; `None` where Python raises. */
  function PyInt(v: Json): (r: Option<int>)
    ensures v.JInt? ==> r == Some(v.i)
    ensures v.JBool? ==> r.Some? && (r.value == 1 <==> v.b) && (r.value == 0 <==> !v.b)
    ensures r.None? ==> v.JNull? || (v.JStr? && ParseInt(v.s).None?)
  {
    match v
    case JNull => None
    case JBool(b) => Some(if b then 1 else 0)
    case JInt(i) => Some(i)
    case JStr(s) => ParseInt(s)
  }

  /** `str(n)` for a natural number. */
  function NatToString(n: nat): (s: string)
    ensures |s| > 0 && AllDigits(s) && DigitsValue(s) == n
  {
    if n < 10 then [('0' as int + n) as char]
    else
      var s := NatToString(n / 10) + [('0' as int + n % 10) as char];
      assert s[..|s| - 1] == NatToString(n / 10);
      s
  }

  /** `str(n)` for an integer. */
  function IntToString(n: int): string
  {
    if n < 0 then "-" + NatToString(-n) else NatToString(n)
  }

  /** `int(str(n)) == n`: ids and day counts written in decimal read back exactly. */
  lemma ParseIntToString(n: int)
    ensures ParseInt(IntToString(n)) == Some(n)
  {
    var s := IntToString(n);
    StripNoop(s);
    if n < 0 {
      assert s[1..] == NatToString(-n);
    }
  }

  /** A user id sent as a decimal string reads the same as one sent as a JSON number. */
  lemma PyIntDecimalString(n: int)
    ensures PyInt(JStr(IntToString(n))) == PyInt(JInt(n)) == Some(n)
  {
    ParseIntToString(n);
  }
}
