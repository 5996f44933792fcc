/**
 The display helpers of the dashboard's process cards and table rows:
 the CSS class of a status, the unit of a memory figure, the elapsed time
 since a process came up, and the script name shown for its executable path.
 */
module Format {
  import opened Text

  // ---------------------------------------------------------------------------
  // getStatusClass
  // ---------------------------------------------------------------------------

  const ERRORED := "errored"

  /**
   The CSS class for a process status: `errored` when the status is missing or
   empty, otherwise the status lower-cased.
   */
  function StatusClass(status: Option<string>): (r: string)
    ensures r != ""
    ensures IsLowerAscii(r)
    ensures status.None? || status.value == "" ==> r == ERRORED
    ensures status.Some? && status.value != "" ==> EqualIgnoringCase(r, status.value)
  {
    if status.None? || status.value == "" then ERRORED
    else
      ToLowerAsciiSpec(status.value);
      ToLowerAscii(status.value)
  }

  /** A status class fed back in as a status comes out unchanged. */
  lemma StatusClassIdempotent(status: Option<string>)
    ensures StatusClass(Some(StatusClass(status))) == StatusClass(status)
  {
    LowerAsciiFixed(StatusClass(status));
  }

  /** Two statuses that differ only in letter case get the same class. */
  lemma {:induction false} StatusClassIgnoresCase(a: string, b: string)
    requires EqualIgnoringCase(a, b)
    ensures StatusClass(Some(a)) == StatusClass(Some(b))
  {
    if a != "" {
      assert |ToLowerAscii(a)| == |ToLowerAscii(b)|;
      forall i | 0 <= i < |a| ensures ToLowerAscii(a)[i] == ToLowerAscii(b)[i] {
      }
    }
  }

  // ---------------------------------------------------------------------------
  // formatMemory
  // ---------------------------------------------------------------------------

  const MIB: int := 1024 * 1024
  const GIB: int := 1024 * 1024 * 1024

  /**
   What `formatMemory` shows: the fixed text `0 MB`, or a quantity of mebibytes
   or gibibytes that is then printed with one decimal.
   */
  datatype MemoryDisplay = ZeroMB | Megabytes(mb: real) | Gigabytes(gb: real)
  {
    function Unit(): string {
      if Gigabytes? then "GB" else "MB"
    }
  }

  /**
   A missing or zero byte count shows `0 MB`; otherwise the count is divided by
   1024 * 1024, and a quotient of 1024 or more is shown in gigabytes instead.
   */
  function FormatMemory(bytes: Option<int>): (r: MemoryDisplay)
    ensures r.ZeroMB? <==> bytes.None? || bytes.value == 0
    ensures r.Unit() == "GB" <==> bytes.Some? && bytes.value >= GIB
    ensures r.Megabytes? ==> r.mb * MIB as real == bytes.value as real && r.mb < 1024.0
    ensures r.Gigabytes? ==> r.gb * GIB as real == bytes.value as real && r.gb >= 1.0
  {
    if bytes.None? || bytes.value == 0 then ZeroMB
    else
      var mb := bytes.value as real / (1024.0 * 1024.0);
      if mb >= 1024.0 then Gigabytes(mb / 1024.0) else Megabytes(mb)
  }

  // ---------------------------------------------------------------------------
  // formatUptime
  // ---------------------------------------------------------------------------

  /** The one format `formatUptime` picks, with the two numbers it prints. */
  datatype UptimeDisplay =
    | NotAvailable
    | DaysHours(days: int, hours: int)
    | HoursMinutes(hours: int, minutes: int)
    | MinutesSeconds(minutes: int, seconds: int)
    | Seconds(seconds: int)

  /**
   `r` truthfully shows an elapsed time of `elapsed` milliseconds: the leading
   number counts the largest unit that is at least one, the second number
   counts the whole next-smaller units left over, and the rest is dropped.
   */
  ghost predicate Shows(r: UptimeDisplay, elapsed: int) {
    match r
    case NotAvailable => false
    case DaysHours(d, h) =>
      d >= 1 && 0 <= h < 24 &&
      d * 86400000 + h * 3600000 <= elapsed < d * 86400000 + (h + 1) * 3600000
    case HoursMinutes(h, m) =>
      1 <= h && 0 <= m < 60 && elapsed < 86400000 &&
      h * 3600000 + m * 60000 <= elapsed < h * 3600000 + (m + 1) * 60000
    case MinutesSeconds(m, s) =>
      1 <= m && 0 <= s < 60 && elapsed < 3600000 &&
      m * 60000 + s * 1000 <= elapsed < m * 60000 + (s + 1) * 1000
    case Seconds(s) =>
      elapsed < 60000 &&
      s * 1000 <= elapsed < (s + 1) * 1000
  }

  /** A positive multiple of a positive number is at least that number. */
  lemma {:induction false} MulGrows(d: int, k: int)
    requires d > 0 && k >= 1
    ensures d * k >= d
    decreases k
  {
    if k > 1 {
      MulGrows(d, k - 1);
      assert d * k == d * (k - 1) + d;
    }
  }

  /** `q` is the floor of `a / d`. */
  lemma FloorUnique(a: int, d: int, q: int)
    requires d > 0 && d * q <= a < d * q + d
    ensures a / d == q
  {
    var q0 := a / d;
    assert d * q0 <= a < d * q0 + d;
    var k := q - q0;
    assert d * q == d * q0 + d * k;
    if k >= 1 {
      MulGrows(d, k);
    } else if k <= -1 {
      MulGrows(d, -k);
    }
  }

  /**
   The nested floors of `formatUptime` agree with direct floors of the elapsed
   milliseconds, and days and hours-of-day recombine into hours.
   */
  lemma NestedFloors(uptime: int)
    ensures uptime / 1000 / 60 == uptime / 60000
    ensures uptime / 1000 / 60 / 60 == uptime / 3600000
    ensures uptime / 1000 / 60 / 60 / 24 == uptime / 86400000
    ensures (uptime / 1000 / 60 / 60 / 24) * 24 + (uptime / 1000 / 60 / 60) % 24 == uptime / 1000 / 60 / 60
  {
    var seconds := uptime / 1000;
    var minutes := seconds / 60;
    var hours := minutes / 60;
    var days := hours / 24;
    assert 1000 * seconds <= uptime < 1000 * seconds + 1000;
    assert 60 * minutes <= seconds < 60 * minutes + 60;
    assert 60 * hours <= minutes < 60 * hours + 60;
    assert 24 * days <= hours < 24 * days + 24;
    FloorUnique(uptime, 60000, minutes);
    FloorUnique(uptime, 3600000, hours);
    FloorUnique(uptime, 86400000, days);
  }

  /**
   The uptime shown for a process that came up at `timestamp` (milliseconds
   since the epoch) when the clock reads `now`. A missing or zero timestamp
   shows `N/A`.
   */
  function FormatUptime(timestamp: Option<int>, now: int): (r: UptimeDisplay)
    ensures r.NotAvailable? <==> timestamp.None? || timestamp.value == 0
    ensures timestamp.Some? && timestamp.value != 0 ==> Shows(r, now - timestamp.value)
  {
    if timestamp.None? || timestamp.value == 0 then NotAvailable
    else
      var uptime := now - timestamp.value;
      // Math.floor of a quotient by a positive constant is Dafny's `/`.
      var seconds := uptime / 1000;
      var minutes := seconds / 60;
      var hours := minutes / 60;
      var days := hours / 24;
      NestedFloors(uptime);
      if days > 0 then DaysHours(days, hours % 24)
      else if hours > 0 then HoursMinutes(hours, minutes % 60)
      else if minutes > 0 then MinutesSeconds(minutes, seconds % 60)
      else Seconds(seconds)
  }

  /** At most one display shows a given elapsed time. */
  lemma ShowsUnique(r1: UptimeDisplay, r2: UptimeDisplay, elapsed: int)
    requires Shows(r1, elapsed) && Shows(r2, elapsed)
    ensures r1 == r2
  {
    match r1
    case DaysHours(d, h) =>
      var DaysHours(d', h') := r2;
      FloorUnique(elapsed, 86400000, d);
      FloorUnique(elapsed, 86400000, d');
      FloorUnique(elapsed - d * 86400000, 3600000, h);
      FloorUnique(elapsed - d * 86400000, 3600000, h');
    case HoursMinutes(h, m) =>
      var HoursMinutes(h', m') := r2;
      FloorUnique(elapsed, 3600000, h);
      FloorUnique(elapsed, 3600000, h');
      FloorUnique(elapsed - h * 3600000, 60000, m);
      FloorUnique(elapsed - h * 3600000, 60000, m');
    case MinutesSeconds(m, s) =>
      var MinutesSeconds(m', s') := r2;
      FloorUnique(elapsed, 60000, m);
      FloorUnique(elapsed, 60000, m');
      FloorUnique(elapsed - m * 60000, 1000, s);
      FloorUnique(elapsed - m * 60000, 1000, s');
    case Seconds(s) =>
      var Seconds(s') := r2;
      FloorUnique(elapsed, 1000, s);
      FloorUnique(elapsed, 1000, s');
  }

  /** `${x}u ${y}v` */
  function PairText(x: int, u: char, y: int, v: char): string {
    IntToString(x) + ([u, ' '] + (IntToString(y) + [v]))
  }

  /** The text of a display: `N/A`, `Xd Yh`, `Xh Ym`, `Xm Ys` or `Xs`. */
  function UptimeText(r: UptimeDisplay): string {
    match r
    case NotAvailable => "N/A"
    case DaysHours(d, h) => PairText(d, 'd', h, 'h')
    case HoursMinutes(h, m) => PairText(h, 'h', m, 'm')
    case MinutesSeconds(m, s) => PairText(m, 'm', s, 's')
    case Seconds(s) => IntToString(s) + "s"
  }

  /** Reads a display back from its text. */
  function ParseUptime(text: string): Option<UptimeDisplay> {
    if text == "N/A" then Some(NotAvailable)
    else match ReadInt(text)
      case None => None
      case Some(Reading(x, rest)) => ParseAfterFirst(x, rest)
  }

  /** Reads what follows the first number `x`: a seconds letter, or a unit letter, a space and a second number. */
  function ParseAfterFirst(x: int, rest: string): Option<UptimeDisplay> {
    if rest == "s" then Some(Seconds(x))
    else if |rest| >= 2 && rest[1] == ' ' then
      match ReadInt(rest[2..])
      case None => None
      case Some(Reading(y, tail)) => PairDisplay(x, rest[0], y, tail)
    else None
  }

  /** The two-number display whose unit letters are `u` and `tail`, if there is one. */
  function PairDisplay(x: int, u: char, y: int, tail: string): Option<UptimeDisplay> {
    if u == 'd' && tail == "h" then Some(DaysHours(x, y))
    else if u == 'h' && tail == "m" then Some(HoursMinutes(x, y))
    else if u == 'm' && tail == "s" then Some(MinutesSeconds(x, y))
    else None
  }

  /** The two numbers of a two-number text are read back with the letters around them. */
  lemma ReadPair(x: int, u: char, y: int, v: char)
    requires !IsDigit(u) && !IsDigit(v)
    ensures PairText(x, u, y, v) != "N/A"
    ensures ReadInt(PairText(x, u, y, v)) == Some(Reading(x, [u, ' '] + (IntToString(y) + [v])))
    ensures ReadInt(IntToString(y) + [v]) == Some(Reading(y, [v]))
  {
    IntToStringHead(x);
    assert PairText(x, u, y, v)[0] != 'N';
    ReadIntString(x, [u, ' '] + (IntToString(y) + [v]));
    ReadIntString(y, [v]);
  }

  /** The two-number formats read back, one unit letter at a time. */
  lemma ParsePair(x: int, u: char, y: int, v: char)
    requires !IsDigit(u) && !IsDigit(v)
    ensures ParseUptime(PairText(x, u, y, v)) == PairDisplay(x, u, y, [v])
  {
    ReadPair(x, u, y, v);
    var rest := [u, ' '] + (IntToString(y) + [v]);
    assert ParseUptime(PairText(x, u, y, v)) == ParseAfterFirst(x, rest);
    assert rest[2..] == IntToString(y) + [v];
    assert |rest| >= 3;
  }

  /** Every display text is read back as the display it came from. */
  lemma ParseUptimeText(r: UptimeDisplay)
    ensures ParseUptime(UptimeText(r)) == Some(r)
  {
    match r
    case NotAvailable =>
    case DaysHours(d, h) =>
      ParsePair(d, 'd', h, 'h');
    case HoursMinutes(h, m) =>
      ParsePair(h, 'h', m, 'm');
    case MinutesSeconds(m, s) =>
      ParsePair(m, 'm', s, 's');
    case Seconds(s) =>
      IntToStringHead(s);
      assert UptimeText(r)[0] != 'N';
      ReadIntString(s, "s");
  }

  /** Different displays never print the same text. */
  lemma UptimeTextInjective(r1: UptimeDisplay, r2: UptimeDisplay)
    requires UptimeText(r1) == UptimeText(r2)
    ensures r1 == r2
  {
    ParseUptimeText(r1);
    ParseUptimeText(r2);
  }

  // ---------------------------------------------------------------------------
  // The script name shown for pm_exec_path
  // ---------------------------------------------------------------------------

  /** `path.split('/').pop()` */
  function Basename(path: string): string {
    Last(Split(path, '/'))
  }

  /**
   The script column: the last `/`-separated piece of the executable path, or
   `N/A` when the path is missing or that piece is empty.
   */
  function ExecPathDisplay(path: Option<string>): (r: string)
    ensures r == "N/A" <==> path.None? || Basename(path.value) == ""
    ensures path.Some? && Basename(path.value) != "" ==> r == Basename(path.value) && '/' !in r
  {
    if path.None? then "N/A"
    else
      var b := Basename(path.value);
      if b == "" then "N/A" else b
  }

  /**
   A shown script name is a non-empty tail of the path with no `/` in it,
   and it is the whole path or comes right after a `/`.
   */
  lemma ExecPathDisplayIsTail(path: string)
    ensures var r := ExecPathDisplay(Some(path));
      r == "N/A" ||
      (r != "" && '/' !in r && |r| <= |path| && path[|path| - |r|..] == r &&
       (|r| < |path| ==> path[|path| - |r| - 1] == '/'))
  {
    LastPieceIsSuffix(path, '/');
  }

  /** A path that ends in `/`, or is empty, shows `N/A`. */
  lemma ExecPathDisplayEmptyTail(path: string)
    requires path == "" || path[|path| - 1] == '/'
    ensures ExecPathDisplay(Some(path)) == "N/A"
  {
    LastPieceIsSuffix(path, '/');
  }
}
