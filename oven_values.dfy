/** Events, enumerations, constants and the pure helpers of the oven
    thermometer controller: temperature conversion, the button mappings,
    menu navigation arithmetic, the time split and the glitch filter. */
module OvenValues {

  datatype Option<T> = None | Some(value: T)

  /** One entry of the event queue.  `Button(id)` is the user event posted by
      the GPIO callback or re-posted by a key press; `Touch(button, ticks)` is a
      mouse/touch press with the value of the millisecond tick counter at the
      moment it is handled. */
  datatype Event =
    | Quit
    | RecTick
    | DispTick
    | Button(id: int)
    | Touch(button: int, ticks: int)
    | Key(ch: char)

  /** What the normal-mode screen shows. */
  datatype View = Temperature | Graph

  /** The active menu page.  The script compares page dictionaries with
      `==`, which compares contents; the three pages never have equal
      contents, so each comparison picks out exactly one page. */
  datatype Page = Main | TempAdj | TimeAdj

  /** One line of the CSV log: a sample, or the all-zero restart marker. */
  datatype LogLine = Record(secs: int, tempC: real, tempF: real) | RestartMark

  /** Number of selectable lines on the main menu (lines 1 to 4). */
  const Mmenumax: int := 4
  /** Main-menu line numbers. */
  const LineTempAdj: int := 1
  const LineTimeAdj: int := 2
  const LineReturn: int := 3
  const LineExit: int := 4

  /** The allowed recording intervals, in seconds. */
  const Timevals: seq<int> := [6, 30, 60, 120, 600, 1800, 3600]

  /** Calibration offset at start-up, -3.2 degrees C, in tenths of a degree. */
  const InitialTempadj: int := -32
  /** Bounds of the staged calibration offset, +-10.0 degrees C in tenths. */
  const MaxAdj: int := 100
  const MinAdj: int := -100

  /** Display refresh interval in seconds. */
  const Updinterval: int := 1
  /** Touch debounce window in whole seconds. */
  const Mousewait: int := 2

  /** The three PiTFT button channels (BCM numbering). */
  const Channel2: int := 22
  const Channel3: int := 23
  const Channel4: int := 27

  /** The millisecond tick counter in whole seconds.  The script divides the
      integer tick count by 1000 under Python 2, whose `/` on integers
      floors; Dafny's `/` by a positive divisor floors too. */
  function Seconds(ticks: int): (secs: int)
    ensures secs * 1000 <= ticks < secs * 1000 + 1000
  {
    ticks / 1000
  }

  /** A calibration offset in tenths of a degree as degrees C. */
  function Tenths(t: int): (c: real)
    ensures c * 10.0 == t as real
  {
    t as real / 10.0
  }

  /** Celsius to Fahrenheit: 0 C is 32 F and each degree C is 9/5 of a
      degree F. */
  function CToF(c: real): (f: real)
    ensures (f - 32.0) * 5.0 == c * 9.0
  {
    c * 9.0 / 5.0 + 32.0
  }

  /** Fahrenheit to Celsius, the inverse conversion. */
  function FToC(f: real): (c: real)
    ensures c * 9.0 == (f - 32.0) * 5.0
  {
    (f - 32.0) * 5.0 / 9.0
  }

  /** The two conversions undo each other. */
  lemma CToFRoundTrip(c: real, f: real)
    ensures FToC(CToF(c)) == c
    ensures CToF(FToC(f)) == f
  {
  }

  lemma CToFStrictlyMonotone(c1: real, c2: real)
    ensures c1 < c2 <==> CToF(c1) < CToF(c2)
  {
  }

  /** The GPIO callback: channels 22, 23 and 27 become buttons 2, 3 and 4;
      any other channel posts nothing. */
  function GpioButton(channel: int): (b: Option<int>)
    ensures b.Some? <==> channel in {Channel2, Channel3, Channel4}
    ensures b.Some? ==> 2 <= b.value <= 4
    ensures b.Some? ==> channel == [Channel2, Channel3, Channel4][b.value - 2]
  {
    if channel == Channel2 then Some(2)
    else if channel == Channel3 then Some(3)
    else if channel == Channel4 then Some(4)
    else None
  }

  /** The keys that re-post a button event: h/r/m in normal mode, u/d/s in
      menu mode.  Any other key posts nothing ('x' is handled as exit). */
  function KeyButton(menu: bool, ch: char): (b: Option<int>)
    ensures b.Some? ==> 2 <= b.value <= 4
    ensures b.Some? <==> ch in (if menu then "uds" else "hrm")
    ensures b.Some? ==> (if menu then "uds" else "hrm")[b.value - 2] == ch
    ensures ch == 'x' ==> b.None?
  {
    if !menu then
      if ch == 'h' then Some(2) else if ch == 'r' then Some(3) else if ch == 'm' then Some(4) else None
    else
      if ch == 'u' then Some(2) else if ch == 'd' then Some(3) else if ch == 's' then Some(4) else None
  }

  /** Up on the main menu: line 1 rolls to the bottom line, otherwise up one.
      On the selectable range this is a cyclic predecessor. */
  function MenuLineUp(line: int): (r: int)
    ensures 1 <= line <= Mmenumax ==> 1 <= r <= Mmenumax && r == (line - 2) % Mmenumax + 1
  {
    if line == 1 then Mmenumax else line - 1
  }

  /** Down on the main menu: the bottom line rolls to line 1, otherwise down
      one.  On the selectable range this is a cyclic successor. */
  function MenuLineDown(line: int): (r: int)
    ensures 1 <= line <= Mmenumax ==> 1 <= r <= Mmenumax && r == line % Mmenumax + 1
  {
    if line == Mmenumax then 1 else line + 1
  }

  lemma MenuLineUpDownInverse(line: int)
    requires 1 <= line <= Mmenumax
    ensures MenuLineDown(MenuLineUp(line)) == line
    ensures MenuLineUp(MenuLineDown(line)) == line
  {
  }

  function Min(a: int, b: int): (m: int)
    ensures m <= a && m <= b && (m == a || m == b)
  {
    if a <= b then a else b
  }

  function Max(a: int, b: int): (m: int)
    ensures m >= a && m >= b && (m == a || m == b)
  {
    if a <= b then b else a
  }

  /** Up on the temperature-adjust page: one tenth more while below +10.0. */
  function AdjUp(t: int): (r: int)
    ensures t <= MaxAdj ==> r == Min(t + 1, MaxAdj)
    ensures t > MaxAdj ==> r == t
  {
    if t < MaxAdj then t + 1 else t
  }

  /** Down on the temperature-adjust page: one tenth less while above -10.0. */
  function AdjDown(t: int): (r: int)
    ensures t >= MinAdj ==> r == Max(t - 1, MinAdj)
    ensures t < MinAdj ==> r == t
  {
    if t > MinAdj then t - 1 else t
  }

  /** Up on the time-adjust page: the next interval, stopping at the last. */
  function IndexUp(i: int): (r: int)
    ensures i <= |Timevals| - 1 ==> r == Min(i + 1, |Timevals| - 1)
    ensures i > |Timevals| - 1 ==> r == i
  {
    if i < |Timevals| - 1 then i + 1 else i
  }

  /** Down on the time-adjust page: the previous interval, stopping at the first. */
  function IndexDown(i: int): (r: int)
    ensures i >= 0 ==> r == Max(i - 1, 0)
    ensures i < 0 ==> r == i
  {
    if i > 0 then i - 1 else i
  }

  /** Elapsed seconds as minutes and leftover seconds (floor division by 60,
      which agrees with Python's `//` and `%` for a positive divisor). */
  function SplitTime(secs: int): (ms: (int, int))
    ensures ms.0 * 60 + ms.1 == secs
    ensures 0 <= ms.1 < 60
  {
    (secs / 60, secs % 60)
  }

  /** The series ends in a one-sample spike: the third-last and the last
      values agree and the one between them differs. */
  predicate EndsInGlitch(t: seq<real>) {
    |t| > 2 && t[|t| - 3] == t[|t| - 1] && t[|t| - 2] != t[|t| - 1]
  }

  /** The glitch filter: a spike at the second-last position is overwritten
      with the last value; anything else is left alone. */
  function Deglitch(t: seq<real>): (r: seq<real>)
    ensures |r| == |t|
    ensures forall i :: 0 <= i < |t| && i != |t| - 2 ==> r[i] == t[i]
    ensures !EndsInGlitch(r)
    ensures EndsInGlitch(t) ==> r[|t| - 2] == t[|t| - 1]
    ensures !EndsInGlitch(t) ==> r == t
  {
    if EndsInGlitch(t) then t[|t| - 2 := t[|t| - 1]] else t
  }

  lemma DeglitchIdempotent(t: seq<real>)
    ensures Deglitch(Deglitch(t)) == Deglitch(t)
  {
  }

  /** A one-sample spike is flattened; a ramp is kept. */
  lemma DeglitchExamples()
    ensures Deglitch([70.0, 71.0, 70.0]) == [70.0, 70.0, 70.0]
    ensures Deglitch([70.0, 71.0, 72.0]) == [70.0, 71.0, 72.0]
  {
    assert EndsInGlitch([70.0, 71.0, 70.0]);
    assert !EndsInGlitch([70.0, 71.0, 72.0]);
  }
}
