/**
 * `StreamLogObserver`: writes each log message to an output stream as one
 * line, "[HH:MM:SS] LABEL message", with the time since the observer was
 * created and the thread id added inside the brackets in detailed mode.
 */
module StreamLog {
  import opened Common

  /** The importance levels of Ember's log, least severe first. */
  datatype MessageImportance = Verbose | Info | Warning | Failure | Critical

  /** The clock fields of the local time of day, as whole numbers. */
  datatype TimeOfDay = TimeOfDay(hours: nat, minutes: nat, seconds: nat)

  /** The label written for an importance; anything not named gets "VERBOSE". */
  function Label(importance: MessageImportance): string
  {
    match importance
    case Critical => "CRITICAL"
    case Failure => "FAILURE"
    case Warning => "WARNING"
    case Info => "INFO"
    case Verbose => "VERBOSE"
  }

  /** Different importances get different labels, so the label identifies the importance. */
  lemma LabelInjective(a: MessageImportance, b: MessageImportance)
    ensures Label(a) == Label(b) <==> a == b
  {
  }

  predicate IsDigit(c: char)
  {
    '0' <= c <= '9'
  }

  predicate AllDigits(s: string)
  {
    forall i :: 0 <= i < |s| ==> IsDigit(s[i])
  }

  function DigitChar(d: nat): char
    requires d < 10
  {
    ('0' as int + d) as char
  }

  /** The decimal digits of `n`, most significant first, as a stream writes a number. */
  function Digits(n: nat): (r: string)
    ensures 1 <= |r| && AllDigits(r)
    ensures n < 10 ==> |r| == 1
    ensures 10 <= n < 100 ==> |r| == 2
  {
    if n < 10 then [DigitChar(n)] else Digits(n / 10) + [DigitChar(n % 10)]
  }

  /** The number a string of decimal digits denotes. */
  function Value(s: string): nat
    requires AllDigits(s)
  {
    if s == [] then 0 else 10 * Value(s[..|s| - 1]) + (s[|s| - 1] as int - '0' as int)
  }

  /** Reading the digits back gives the number. */
  lemma {:induction false} ValueDigits(n: nat)
    ensures Value(Digits(n)) == n
  {
    if n >= 10 {
      ValueDigits(n / 10);
      var d := Digits(n / 10) + [DigitChar(n % 10)];
      assert d[..|d| - 1] == Digits(n / 10);
    }
  }

  function Zeros(k: nat): (r: string)
    ensures |r| == k && AllDigits(r)
  {
    seq(k, _ => '0')
  }

  /** Leading zeros do not change the value. */
  lemma {:induction false} ValueLeadingZeros(k: nat, s: string)
    requires AllDigits(s)
    ensures Value(Zeros(k) + s) == Value(s)
    decreases |s|
  {
    if s == [] {
      ValueZeros(k);
      assert Zeros(k) + s == Zeros(k);
    } else {
      var init := s[..|s| - 1];
      ValueLeadingZeros(k, init);
      assert (Zeros(k) + s)[..|Zeros(k) + s| - 1] == Zeros(k) + init;
    }
  }

  lemma {:induction false} ValueZeros(k: nat)
    ensures Value(Zeros(k)) == 0
  {
    if k > 0 {
      ValueZeros(k - 1);
      assert Zeros(k)[..k - 1] == Zeros(k - 1);
    }
  }

  /** A number written into a field of the given width, filled on the left with '0'. */
  function Padded(n: nat, width: nat): (r: string)
    ensures AllDigits(r)
  {
    var digits := Digits(n);
    if |digits| < width then Zeros(width - |digits|) + digits else digits
  }

  /**
   * A padded field is as wide as the field or as the number, whichever is
   * wider, and reads back as the number.
   */
  lemma PaddedField(n: nat, width: nat)
    ensures |Padded(n, width)| == if |Digits(n)| < width then width else |Digits(n)|
    ensures Value(Padded(n, width)) == n
  {
    ValueDigits(n);
    if |Digits(n)| < width {
      ValueLeadingZeros(width - |Digits(n)|, Digits(n));
    }
  }

  /** A number below 100 fills a two-character field exactly. */
  lemma PaddedTwo(n: nat)
    requires n < 100
    ensures |Padded(n, 2)| == 2
  {
  }

  /** The clock text has nine characters when every field is below 100. */
  lemma ClockLength(clock: TimeOfDay)
    requires clock.hours < 100 && clock.minutes < 100 && clock.seconds < 100
    ensures |ClockText(clock)| == 9
  {
    PaddedTwo(clock.hours);
    PaddedTwo(clock.minutes);
    PaddedTwo(clock.seconds);
  }

  /** The part inside the brackets after the clock in detailed mode. */
  function Detail(detailed: bool, micros: nat, threadId: string): string
  {
    if detailed then "(" + Padded(micros, 8) + ":" + threadId + ")" else ""
  }

  /** The opening bracket and the clock, "[HH:MM:SS" for fields below 100. */
  function ClockText(clock: TimeOfDay): string
  {
    "[" + Padded(clock.hours, 2) + ":" + Padded(clock.minutes, 2) + ":" + Padded(clock.seconds, 2)
  }

  /** What follows the bracketed prefix: the label, a space, the message and the end of the line. */
  function Tail(importance: MessageImportance, message: string): string
  {
    "] " + Label(importance) + " " + message + "\n"
  }

  /** The line `onNewMessage` writes for one message. */
  function FormatLine(clock: TimeOfDay, detailed: bool, micros: nat, threadId: string,
                      importance: MessageImportance, message: string): string
  {
    ClockText(clock) + Detail(detailed, micros, threadId) + Tail(importance, message)
  }

  /** The three parts of a concatenation can be sliced back out of it. */
  lemma ConcatParts<T>(a: seq<T>, b: seq<T>, c: seq<T>)
    ensures (a + b + c)[..|a|] == a
    ensures (a + b + c)[|a|..] == b + c
    ensures (a + b + c)[|a| + |b|..] == c
  {
  }

  /** Two-digit fields make the clock text a run of nine characters. */
  lemma ClockChars(h: string, m: string, sc: string)
    requires |h| == 2 && |m| == 2 && |sc| == 2
    ensures "[" + h + ":" + m + ":" + sc == ['[', h[0], h[1], ':', m[0], m[1], ':', sc[0], sc[1]]
  {
    assert h == [h[0], h[1]] && m == [m[0], m[1]] && sc == [sc[0], sc[1]];
  }

  /** The last `k` elements of a concatenation whose right part has at least `k`. */
  lemma SuffixOfConcat<T>(x: seq<T>, t: seq<T>, k: nat)
    requires k <= |t|
    ensures (x + t)[|x + t| - k..] == t[|t| - k..]
  {
    var n := |x|;
    assert (x + t)[n..] == t;
    assert |x + t| - k == n + (|t| - k);
  }

  /** For fields below 100, the clock text is nine characters: "[", then two digits per field separated by ':'. */
  lemma ClockLayout(clock: TimeOfDay)
    requires clock.hours < 100 && clock.minutes < 100 && clock.seconds < 100
    ensures var c := ClockText(clock);
            && |c| == 9 && c[0] == '[' && c[3] == ':' && c[6] == ':'
            && c[1..3] == Padded(clock.hours, 2)
            && c[4..6] == Padded(clock.minutes, 2)
            && c[7..9] == Padded(clock.seconds, 2)
  {
    PaddedField(clock.hours, 2);
    PaddedField(clock.minutes, 2);
    PaddedField(clock.seconds, 2);
    var h, m, sc := Padded(clock.hours, 2), Padded(clock.minutes, 2), Padded(clock.seconds, 2);
    ClockChars(h, m, sc);
    var c := ClockText(clock);
    assert c[1..3] == h by {
      assert |c[1..3]| == 2 && c[1..3][0] == h[0] && c[1..3][1] == h[1];
    }
    assert c[4..6] == m by {
      assert |c[4..6]| == 2 && c[4..6][0] == m[0] && c[4..6][1] == m[1];
    }
    assert c[7..9] == sc by {
      assert |c[7..9]| == 2 && c[7..9][0] == sc[0] && c[7..9][1] == sc[1];
    }
  }

  /** The end of the line: a space, the message, a newline. */
  lemma TailLayout(importance: MessageImportance, message: string)
    ensures var t := Tail(importance, message);
            && |t| == |Label(importance)| + |message| + 4
            && t[..2] == "] " && t[2..2 + |Label(importance)|] == Label(importance)
            && t[|t| - |message| - 2..] == " " + message + "\n"
  {
    var l := Label(importance);
    ConcatParts("] ", l, " " + message + "\n");
    assert Tail(importance, message) == "] " + l + (" " + message + "\n");
  }

  /** The line opens with the clock: "[HH:MM:SS", each field reading back as the clock. */
  lemma LineClock(clock: TimeOfDay, detailed: bool, micros: nat, threadId: string,
                  importance: MessageImportance, message: string)
    requires clock.hours < 100 && clock.minutes < 100 && clock.seconds < 100
    ensures var line := FormatLine(clock, detailed, micros, threadId, importance, message);
            && |line| >= 9 && line[0] == '[' && line[3] == ':' && line[6] == ':'
            && AllDigits(line[1..3]) && Value(line[1..3]) == clock.hours
            && AllDigits(line[4..6]) && Value(line[4..6]) == clock.minutes
            && AllDigits(line[7..9]) && Value(line[7..9]) == clock.seconds
  {
    PaddedField(clock.hours, 2);
    PaddedField(clock.minutes, 2);
    PaddedField(clock.seconds, 2);
    ClockLayout(clock);
    var c := ClockText(clock);
    ConcatParts(c, Detail(detailed, micros, threadId), Tail(importance, message));
    var line := FormatLine(clock, detailed, micros, threadId, importance, message);
    assert line[..9] == c;
    assert line[1..3] == c[1..3] && line[4..6] == c[4..6] && line[7..9] == c[7..9];
  }

  /** After the clock comes '(' in detailed mode and ']' otherwise. */
  lemma LineMarker(clock: TimeOfDay, detailed: bool, micros: nat, threadId: string,
                   importance: MessageImportance, message: string)
    requires clock.hours < 100 && clock.minutes < 100 && clock.seconds < 100
    ensures var line := FormatLine(clock, detailed, micros, threadId, importance, message);
            |line| > 9 && (line[9] == '(' <==> detailed)
  {
    ClockLength(clock);
    var c, d, t := ClockText(clock), Detail(detailed, micros, threadId), Tail(importance, message);
    ConcatParts(c, d, t);
    assert t[0] == ']';
    assert detailed ==> d[0] == '(';
    var line := FormatLine(clock, detailed, micros, threadId, importance, message);
    assert line[9] == (d + t)[0];
  }

  /** The line ends with a space, the message and a newline. */
  lemma LineEnd(clock: TimeOfDay, detailed: bool, micros: nat, threadId: string,
                importance: MessageImportance, message: string)
    ensures var line := FormatLine(clock, detailed, micros, threadId, importance, message);
            |line| >= |message| + 2 && line[|line| - |message| - 2..] == " " + message + "\n"
  {
    TailLayout(importance, message);
    var t := Tail(importance, message);
    SuffixOfConcat(ClockText(clock) + Detail(detailed, micros, threadId), t, |message| + 2);
  }

  /**
   * For clock fields below 100 the line starts "[HH:MM:SS" with each field two
   * digits wide and reading back as the clock; a '(' follows exactly in
   * detailed mode; the line ends with the message and a newline.
   */
  lemma LineLayout(clock: TimeOfDay, detailed: bool, micros: nat, threadId: string,
                   importance: MessageImportance, message: string)
    requires clock.hours < 100 && clock.minutes < 100 && clock.seconds < 100
    ensures var line := FormatLine(clock, detailed, micros, threadId, importance, message);
            && |line| > 10 + |message|
            && line[0] == '[' && line[3] == ':' && line[6] == ':'
            && AllDigits(line[1..3]) && Value(line[1..3]) == clock.hours
            && AllDigits(line[4..6]) && Value(line[4..6]) == clock.minutes
            && AllDigits(line[7..9]) && Value(line[7..9]) == clock.seconds
            && (line[9] == '(' <==> detailed)
            && line[|line| - |message| - 2..] == " " + message + "\n"
  {
    LineClock(clock, detailed, micros, threadId, importance, message);
    LineMarker(clock, detailed, micros, threadId, importance, message);
    LineEnd(clock, detailed, micros, threadId, importance, message);
    ClockLength(clock);
  }

  /** In normal mode the clock is followed directly by "] " and the label. */
  lemma NormalLayout(clock: TimeOfDay, micros: nat, threadId: string,
                     importance: MessageImportance, message: string)
    requires clock.hours < 100 && clock.minutes < 100 && clock.seconds < 100
    ensures var line := FormatLine(clock, false, micros, threadId, importance, message);
            var labelText := Label(importance);
            && |line| >= 11 + |labelText| && line[9..11] == "] " && line[11..11 + |labelText|] == labelText
  {
    ClockLength(clock);
    TailLayout(importance, message);
    var c, t := ClockText(clock), Tail(importance, message);
    ConcatParts(c, [], t);
    var line := FormatLine(clock, false, micros, threadId, importance, message);
    assert line[9..] == t;
  }

  /** The detail part opens with '(' and eight digits of the padded microsecond count. */
  lemma DetailDigits(micros: nat, threadId: string)
    ensures var d := Detail(true, micros, threadId);
            && |d| >= 11 && d[0] == '(' && AllDigits(d[1..9])
            && (micros < 100000000 ==> d[1..9] == Padded(micros, 8))
  {
    var p := Padded(micros, 8);
    PaddedField(micros, 8);
    ConcatParts("(", p, ":" + threadId + ")");
    var d := Detail(true, micros, threadId);
    assert d == "(" + p + (":" + threadId + ")");
    assert d[1..9] == p[..8];
    if micros < 100000000 {
      DigitsBelow(micros, 8);
      assert p[..8] == p;
    }
  }

  /**
   * In detailed mode the clock is followed by '(' and the microseconds since
   * creation, at least eight digits wide, reading back as that count when
   * it fits in eight digits.
   */
  lemma DetailedLayout(clock: TimeOfDay, micros: nat, threadId: string,
                       importance: MessageImportance, message: string)
    requires clock.hours < 100 && clock.minutes < 100 && clock.seconds < 100
    ensures var line := FormatLine(clock, true, micros, threadId, importance, message);
            && |line| >= 19 && AllDigits(line[10..18]) && (micros < 100000000 ==> Value(line[10..18]) == micros)
  {
    ClockLength(clock);
    DetailDigits(micros, threadId);
    PaddedField(micros, 8);
    var c, d, t := ClockText(clock), Detail(true, micros, threadId), Tail(importance, message);
    ConcatParts(c, d, t);
    var line := FormatLine(clock, true, micros, threadId, importance, message);
    assert line[9..] == d + t;
    assert line[10..18] == d[1..9];
  }

  /** A number below 10^k, k at least 1, has at most k digits. */
  lemma {:induction false} DigitsBelow(n: nat, k: nat)
    requires 0 < k && n < Power10(k)
    ensures |Digits(n)| <= k
  {
    if n >= 10 {
      assert k > 0 && Power10(k) == 10 * Power10(k - 1);
      assert |Digits(n)| == |Digits(n / 10)| + 1;
      assert n / 10 < Power10(k - 1) by {
        assert 10 * (n / 10) <= n;
      }
      DigitsBelow(n / 10, k - 1);
    }
  }

  function Power10(k: nat): (r: nat)
    ensures r >= 1
  {
    if k == 0 then 1 else 10 * Power10(k - 1)
  }

  /** The output stream the observer writes to; only what has been written is modelled. */
  class OutputStream {
    var contents: string

    constructor ()
      ensures contents == []
    {
      contents := [];
    }

    method Write(s: string)
      modifies this
      ensures contents == old(contents) + s
    {
      contents := contents + s;
    }
  }

  class StreamLogObserver {
    const out: OutputStream
    var detailed: bool

    /** A new observer writes to `out` and starts in normal mode. */
    constructor (out: OutputStream)
      ensures this.out == out && !detailed
    {
      this.out := out;
      detailed := false;
    }

    /** The copy constructor: the same stream and the same mode. */
    constructor Copy(source: StreamLogObserver)
      ensures out == source.out && detailed == source.detailed
    {
      out := source.out;
      detailed := source.detailed;
    }

    /**
     * `onNewMessage`: append one formatted line to the stream, piece by piece.
     * The clock, the microseconds since creation and the thread id are
     * passed in.
     */
    method OnNewMessage(message: string, importance: MessageImportance,
                        clock: TimeOfDay, micros: nat, threadId: string)
      modifies out
      ensures out.contents == old(out.contents) + FormatLine(clock, detailed, micros, threadId, importance, message)
    {
      ghost var start := out.contents;
      WriteClock(clock);
      if detailed {
        WriteDetail(micros, threadId);
      }
      ConcatAssociative(start, ClockText(clock), Detail(detailed, micros, threadId));
      WriteTail(importance, message);
      ConcatAssociative(start, ClockText(clock) + Detail(detailed, micros, threadId), Tail(importance, message));
    }

    /** The closing bracket, the label, and the message on the rest of the line. */
    method WriteTail(importance: MessageImportance, message: string)
      modifies out
      ensures out.contents == old(out.contents) + Tail(importance, message)
    {
      ghost var start := out.contents;
      out.Write("] ");
      WriteLabel(importance);
      ConcatAssociative(start, "] ", Label(importance));
      out.Write(" ");
      ConcatAssociative(start, "] " + Label(importance), " ");
      out.Write(message);
      ConcatAssociative(start, "] " + Label(importance) + " ", message);
      out.Write("\n");
      ConcatAssociative(start, "] " + Label(importance) + " " + message, "\n");
    }

    /** The opening bracket and the three zero-padded clock fields. */
    method WriteClock(clock: TimeOfDay)
      modifies out
      ensures out.contents == old(out.contents) + ClockText(clock)
    {
      ghost var start := out.contents;
      var h, m, sc := Padded(clock.hours, 2), Padded(clock.minutes, 2), Padded(clock.seconds, 2);
      out.Write("[");
      out.Write(h);
      ConcatAssociative(start, "[", h);
      out.Write(":");
      ConcatAssociative(start, "[" + h, ":");
      out.Write(m);
      ConcatAssociative(start, "[" + h + ":", m);
      out.Write(":");
      ConcatAssociative(start, "[" + h + ":" + m, ":");
      out.Write(sc);
      ConcatAssociative(start, "[" + h + ":" + m + ":", sc);
    }

    /** The detailed-mode part: microseconds since creation, padded to eight digits, and the thread id. */
    method WriteDetail(micros: nat, threadId: string)
      modifies out
      ensures out.contents == old(out.contents) + Detail(true, micros, threadId)
    {
      ghost var start := out.contents;
      var p := Padded(micros, 8);
      out.Write("(");
      out.Write(p);
      ConcatAssociative(start, "(", p);
      out.Write(":");
      ConcatAssociative(start, "(" + p, ":");
      out.Write(threadId);
      ConcatAssociative(start, "(" + p + ":", threadId);
      out.Write(")");
      ConcatAssociative(start, "(" + p + ":" + threadId, ")");
    }

    /** The importance label. */
    method WriteLabel(importance: MessageImportance)
      modifies out
      ensures out.contents == old(out.contents) + Label(importance)
    {
      if importance == Critical {
        out.Write("CRITICAL");
      } else if importance == Failure {
        out.Write("FAILURE");
      } else if importance == Warning {
        out.Write("WARNING");
      } else if importance == Info {
        out.Write("INFO");
      } else {
        out.Write("VERBOSE");
      }
    }

    /** `setDetailed`: switch detailed mode; nothing else changes. */
    method SetDetailed(enabled: bool)
      modifies this`detailed
      ensures detailed == enabled
    {
      detailed := enabled;
    }
  }
}
