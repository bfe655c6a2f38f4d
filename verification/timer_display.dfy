/** The Timer component: the "Session"/"Break" label and the "MM:SS" text,
    built with the zero-padding helper `padZero`. */
module TimerDisplay {

  /** A prop as the component receives it: a number, or a string that was
      already formatted by the caller. */
  datatype Value = Num(n: nat) | Str(s: string)

  /** What the component renders. */
  datatype View = View(timerLabel: string, timeLeft: string)

  predicate IsDigit(c: char) {
    '0' <= c <= '9'
  }

  predicate IsDecimal(s: string) {
    forall i :: 0 <= i < |s| ==> IsDigit(s[i])
  }

  function DigitChar(d: int): (c: char)
    requires 0 <= d <= 9
    ensures IsDigit(c) && DigitValue(c) == d
  {
    ('0' as int + d) as char
  }

  function DigitValue(c: char): int
    requires IsDigit(c)
  {
    c as int - '0' as int
  }

  /** Number.prototype.toString on a non-negative integer: its decimal
      digits, most significant first, with no leading zero. */
  function NatToString(n: nat): (r: string)
    ensures IsDecimal(r) && |r| >= 1
    ensures |r| == 1 <==> n < 10
    ensures n < 100 ==> |r| <= 2
    ensures r[0] == '0' ==> n == 0
    decreases n
  {
    if n < 10 then [DigitChar(n)] else NatToString(n / 10) + [DigitChar(n % 10)]
  }

  /** Reading a string of digits back as a number; a leading zero is
      allowed and adds nothing. */
  function ParseDecimal(s: string): nat
    requires IsDecimal(s)
    decreases |s|
  {
    if s == [] then 0 else ParseDecimal(s[..|s| - 1]) * 10 + DigitValue(s[|s| - 1])
  }

  /** Reading the decimal text of n gives n back. */
  lemma {:induction false} ParseNatToString(n: nat)
    ensures ParseDecimal(NatToString(n)) == n
    decreases n
  {
    var r := NatToString(n);
    if n < 10 {
      assert r[..0] == [];
    } else {
      ParseNatToString(n / 10);
      assert r[..|r| - 1] == NatToString(n / 10);
    }
  }

  /** toString on either kind of prop: a string is its own text. */
  function ToText(v: Value): (r: string)
    ensures v.Num? ==> r == NatToString(v.n) && IsDecimal(r) && |r| >= 1
    ensures v.Num? ==> ParseDecimal(r) == v.n
    ensures v.Str? ==> r == v.s
  {
    match v
    case Num(n) => ParseNatToString(n); NatToString(n)
    case Str(s) => s
  }

  /** String.prototype.padStart with a one-character filler: fill on the
      left up to the target length; a text already that long is kept. */
  function PadStart(s: string, targetLength: nat, fill: char): (r: string)
    ensures |r| == if |s| >= targetLength then |s| else targetLength
    ensures r[|r| - |s|..] == s
    ensures forall i :: 0 <= i < |r| - |s| ==> r[i] == fill
  {
    if |s| >= targetLength then s else seq(targetLength - |s|, _ => fill) + s
  }

  /** padZero: the prop's text, left-padded with '0' to two characters. */
  function PadZero(v: Value): (r: string)
    ensures v.Num? && v.n < 10 ==> r == ['0', DigitChar(v.n)]
    ensures v.Num? && v.n >= 10 ==> r == NatToString(v.n)
    ensures v.Num? ==> IsDecimal(r) && |r| >= 2
    ensures v.Num? && v.n < 100 ==> |r| == 2
  {
    PadStart(ToText(v), 2, '0')
  }

  /** Reading the padded text of a number back gives the number. */
  lemma PadZeroRoundTrip(n: nat)
    ensures ParseDecimal(PadZero(Num(n))) == n
  {
    var r := PadZero(Num(n));
    if n < 10 {
      var d := DigitChar(n);
      assert r == ['0', d];
      assert r[..1] == ['0'];
      assert ['0'][..0] == [];
      assert ParseDecimal(['0']) == 0;
      assert ParseDecimal(r) == ParseDecimal(['0']) * 10 + DigitValue(d);
    } else {
      ParseNatToString(n);
    }
  }

  /** Padding text that is already padded changes nothing. */
  lemma PadZeroIdempotent(v: Value)
    ensures PadZero(Str(PadZero(v))) == PadZero(v)
  {
  }

  /** Text of exactly the shape "MM:SS". */
  predicate IsClockText(t: string) {
    |t| == 5 && t[2] == ':' && IsDecimal(t[..2]) && IsDecimal(t[3..])
  }

  /** Reading minutes and seconds back from "MM:SS". */
  function ReadClock(t: string): (int, int)
    requires IsClockText(t)
  {
    (ParseDecimal(t[..2]), ParseDecimal(t[3..]))
  }

  function Label(isSession: bool): (r: string)
    ensures r == "Session" <==> isSession
    ensures r == "Break" <==> !isSession
  {
    if isSession then "Session" else "Break"
  }

  /** Two two-digit texts joined by ':' read back as the two texts. */
  lemma JoinedClockText(a: string, b: string)
    requires |a| == 2 && |b| == 2 && IsDecimal(a) && IsDecimal(b)
    ensures IsClockText(a + ":" + b)
    ensures ReadClock(a + ":" + b) == (ParseDecimal(a), ParseDecimal(b))
  {
    var t := a + ":" + b;
    assert t[..2] == a;
    assert t[3..] == b;
  }

  /** Two numbers below 100 padded and joined by ':' make "MM:SS", and
      reading that text back gives the two numbers. */
  lemma ClockTextReadsBack(m: nat, sec: nat)
    requires m < 100 && sec < 100
    ensures IsClockText(PadZero(Num(m)) + ":" + PadZero(Num(sec)))
    ensures ReadClock(PadZero(Num(m)) + ":" + PadZero(Num(sec))) == (m, sec)
  {
    JoinedClockText(PadZero(Num(m)), PadZero(Num(sec)));
    PadZeroRoundTrip(m);
    PadZeroRoundTrip(sec);
  }

  /** The component: the label, then both props padded and joined by ':'. */
  function Render(minutes: Value, seconds: Value, isSession: bool): (v: View)
    ensures v.timerLabel == Label(isSession)
    ensures minutes.Num? && seconds.Num? && minutes.n < 100 && seconds.n < 100 ==>
      IsClockText(v.timeLeft) && ReadClock(v.timeLeft) == (minutes.n, seconds.n)
  {
    var text := PadZero(minutes) + ":" + PadZero(seconds);
    if minutes.Num? && seconds.Num? && minutes.n < 100 && seconds.n < 100 then
      ClockTextReadsBack(minutes.n, seconds.n);
      View(Label(isSession), text)
    else
      View(Label(isSession), text)
  }
}
