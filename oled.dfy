/** The display side of showTime (oled.py): seconds become an "MM:SS"
    string, the string becomes a list of glyphs, and the glyphs are placed
    side by side, centred on the 128 x 32 OLED. The bitmap bytes of each
    glyph are a data table; a glyph is named by the symbol it draws. */
module Oled {
  import opened TimerCore

  const OledWidth: int := 128
  const OledHeight: int := 32
  /** Every glyph is a 16 x 24 MONO_HLSB frame buffer. */
  const GlyphWidth: int := 16
  const GlyphHeight: int := 24

  // ---------------------------------------------------------------------
  // convertToString (oled.py:51-54)

  predicate IsDigit(c: char) {
    '0' <= c <= '9'
  }

  function DigitChar(d: int): (c: char)
    requires 0 <= d < 10
    ensures IsDigit(c) && DigitValue(c) == d
  {
    ('0' as int + d) as char
  }

  function DigitValue(c: char): int
    requires IsDigit(c)
  {
    c as int - '0' as int
  }

  /** The number a string of decimal digits denotes. */
  function DecValue(s: string): (v: nat)
    requires forall i :: 0 <= i < |s| ==> IsDigit(s[i])
    decreases |s|
  {
    if s == [] then 0 else 10 * DecValue(s[..|s| - 1]) + DigitValue(s[|s| - 1])
  }

  /** A leading zero does not change the value. */
  lemma {:induction false} DecValueLeadingZero(s: string)
    requires forall i :: 0 <= i < |s| ==> IsDigit(s[i])
    ensures DecValue("0" + s) == DecValue(s)
    decreases |s|
  {
    if s != [] {
      assert ("0" + s)[..|"0" + s| - 1] == "0" + s[..|s| - 1];
      DecValueLeadingZero(s[..|s| - 1]);
    } else {
      assert DecValue("0") == 10 * DecValue([]) + DigitValue('0');
    }
  }

  /** Python's str() of a non-negative int: decimal digits that denote n,
      without leading zeros. */
  function Decimal(n: nat): (s: string)
    ensures |s| >= 1 && forall i :: 0 <= i < |s| ==> IsDigit(s[i])
    ensures DecValue(s) == n
    ensures |s| > 1 ==> s[0] != '0'
    ensures n < 10 <==> |s| == 1
    ensures n < 10 ==> s == [DigitChar(n)]
    decreases n
  {
    if n < 10 then [DigitChar(n)]
    else
      var prefix := Decimal(n / 10);
      assert (prefix + [DigitChar(n % 10)])[..|prefix|] == prefix;
      prefix + [DigitChar(n % 10)]
  }

  /** "{:02d}".format(n): at least two characters, zero-padded after the
      sign; for n >= 0 digits that denote n. */
  function Pad2(n: int): (s: string)
    ensures n >= 0 ==> |s| >= 2 && (forall i :: 0 <= i < |s| ==> IsDigit(s[i])) && DecValue(s) == n
    ensures 0 <= n < 100 ==> s == [DigitChar(n / 10), DigitChar(n % 10)]
    ensures n >= 100 ==> |s| > 2
    ensures n < 0 ==> |s| >= 2 && s[0] == '-' && s[1..] == Decimal(-n)
  {
    if n < 0 then "-" + Decimal(-n)
    else if n < 10 then
      DecValueLeadingZero(Decimal(n));
      "0" + Decimal(n)
    else Decimal(n)
  }

  /** divmod(t, 60): Python floors, Dafny's / and % are Euclidean; for the
      positive divisor 60 they agree, also for negative t. For t >= 0 the
      string is the minutes, a colon, and two digits of seconds; it is five
      characters exactly when t is below 100 minutes; a negative t gives a
      leading minus. */
  function ConvertToString(t: int): (s: string)
    ensures t >= 0 ==>
      |s| >= 5 && s[|s| - 3] == ':' &&
      (forall i :: 0 <= i < |s| && i != |s| - 3 ==> IsDigit(s[i])) &&
      DecValue(s[..|s| - 3]) == t / 60 && DecValue(s[|s| - 2..]) == t % 60
    ensures t >= 0 ==> (|s| == 5 <==> t < 6000)
    ensures t < 0 ==> |s| > 0 && s[0] == '-'
  {
    var m, sec := Pad2(t / 60), Pad2(t % 60);
    assert (m + ":" + sec)[..|m|] == m && (m + ":" + sec)[|m| + 1..] == sec;
    m + ":" + sec
  }

  /** The example in oled.py's comment, and a negative input. */
  lemma ConvertToStringExamples()
    ensures ConvertToString(95) == "01:35"
    ensures ConvertToString(0) == "00:00"
    ensures ConvertToString(5999) == "99:59"
    ensures ConvertToString(-1) == "-1:59"
  {
    assert Pad2(1) == "01" && Pad2(35) == "35" by {
      assert DigitChar(0) == '0' && DigitChar(1) == '1' && DigitChar(3) == '3' && DigitChar(5) == '5';
    }
    assert Pad2(0) == "00" by { assert DigitChar(0) == '0'; }
    assert Pad2(99) == "99" && Pad2(59) == "59" by {
      assert DigitChar(9) == '9' && DigitChar(5) == '5';
    }
    assert Pad2(-1) == "-1" by { assert Decimal(1) == [DigitChar(1)] == "1"; }
    assert 95 / 60 == 1 && 95 % 60 == 35 && 5999 / 60 == 99 && 5999 % 60 == 59;
    assert -1 / 60 == -1 && -1 % 60 == 59;
  }

  /** Reads "MM:SS" back: None unless the string has that shape with
      seconds below 60. */
  function ParseClock(s: string): Option<int> {
    if |s| == 5 && IsDigit(s[0]) && IsDigit(s[1]) && s[2] == ':' && IsDigit(s[3]) && IsDigit(s[4])
       && DigitValue(s[3]) < 6
    then Some(60 * (10 * DigitValue(s[0]) + DigitValue(s[1])) + 10 * DigitValue(s[3]) + DigitValue(s[4]))
    else None
  }

  /** For a duration the encoder can hold, the string is five characters, the
      colon in the middle and digits around it, and the minutes and seconds
      it shows add back up to t. */
  lemma ConvertToStringShape(t: int)
    requires 0 <= t <= EncMax
    ensures var s := ConvertToString(t);
      |s| == 5 && s[2] == ':' && IsDigit(s[0]) && IsDigit(s[1]) && IsDigit(s[3]) && IsDigit(s[4]) &&
      60 * (10 * DigitValue(s[0]) + DigitValue(s[1])) + 10 * DigitValue(s[3]) + DigitValue(s[4]) == t
  {
  }

  /** Round trip: formatting then reading back gives the duration. */
  lemma ClockRoundTrip(t: int)
    requires 0 <= t <= EncMax
    ensures ParseClock(ConvertToString(t)) == Some(t)
  {
  }

  /** And the other way: every well-formed "MM:SS" string is what
      convertToString prints for the duration it reads as. */
  lemma ClockRoundTripBack(s: string)
    requires ParseClock(s).Some?
    ensures 0 <= ParseClock(s).value <= EncMax
    ensures ConvertToString(ParseClock(s).value) == s
  {
    var a, b, c, d := DigitValue(s[0]), DigitValue(s[1]), DigitValue(s[3]), DigitValue(s[4]);
    var v := 60 * (10 * a + b) + 10 * c + d;
    assert v / 60 == 10 * a + b && v % 60 == 10 * c + d;
    assert (10 * a + b) / 10 == a && (10 * a + b) % 10 == b;
    assert (10 * c + d) / 10 == c && (10 * c + d) % 10 == d;
    assert DigitChar(a) == s[0] && DigitChar(b) == s[1] && DigitChar(c) == s[3] && DigitChar(d) == s[4];
    assert Pad2(v / 60) + ":" + Pad2(v % 60) == s;
  }

  // ---------------------------------------------------------------------
  // numbersToBitmap (oled.py:59-108)

  /** The font table has an entry for the ten digits and the colon. */
  predicate InFont(c: char) {
    IsDigit(c) || c == ':'
  }

  /** The bitmap of one symbol of the font table. */
  datatype Glyph = Glyph(symbol: char)

  /** The glyphs of the characters of s that the table has, in order. */
  function Known(s: string): (g: seq<Glyph>)
    ensures |g| <= |s|
    ensures forall i :: 0 <= i < |g| ==> InFont(g[i].symbol)
    decreases |s|
  {
    if s == [] then []
    else Known(s[..|s| - 1]) + (if InFont(s[|s| - 1]) then [Glyph(s[|s| - 1])] else [])
  }

  /** A string made of font characters becomes exactly one glyph per
      character, in order. */
  lemma {:induction false} KnownAllInFont(s: string)
    requires forall i :: 0 <= i < |s| ==> InFont(s[i])
    ensures |Known(s)| == |s|
    ensures forall i :: 0 <= i < |s| ==> Known(s)[i] == Glyph(s[i])
    decreases |s|
  {
    if s != [] {
      KnownAllInFont(s[..|s| - 1]);
    }
  }

  /** A character without a glyph is skipped, not an error. */
  lemma KnownSkipsUnknown(s: string, c: char)
    requires !InFont(c)
    ensures Known(s + [c]) == Known(s)
  {
  }

  /** Glyphs come out in input order: the glyphs of a concatenation are the
      glyphs of its parts. */
  lemma {:induction false} KnownConcat(a: string, b: string)
    ensures Known(a + b) == Known(a) + Known(b)
    decreases |b|
  {
    if b != [] {
      var b' := b[..|b| - 1];
      assert (a + b)[..|a + b| - 1] == a + b';
      assert (a + b)[|a + b| - 1] == b[|b| - 1];
      KnownConcat(a, b');
      assert b[..|b| - 1] == b';
    } else {
      assert a + b == a;
    }
  }

  /** The loop of numbersToBitmap, appending the glyph of each known
      character and skipping the others (the print is left out). */
  method NumbersToBitmap(numberString: string) returns (bitmapArrays: seq<Glyph>)
    ensures bitmapArrays == Known(numberString)
  {
    bitmapArrays := [];
    for i := 0 to |numberString|
      invariant bitmapArrays == Known(numberString[..i])
    {
      var num := numberString[i];
      assert numberString[..i + 1][..i] == numberString[..i];
      if InFont(num) {
        bitmapArrays := bitmapArrays + [Glyph(num)];
      }
    }
    assert numberString[..|numberString|] == numberString;
  }

  // ---------------------------------------------------------------------
  // displayFont (oled.py:38-47)

  /** What displayFont does to the frame buffer. */
  datatype DrawOp = Fill(colour: int) | Blit(glyph: Glyph, x: int, y: int) | Show

  /** x of the first glyph of n: int((128 - 16 n) / 2), exact because
      128 - 16 n is even. */
  function StartX(n: nat): (x: int)
    ensures 2 * x == OledWidth - GlyphWidth * n
  {
    (OledWidth - GlyphWidth * n) / 2
  }

  /** y of every glyph: int((32 - 16) / 2). */
  const StartY: int := (OledHeight - 16) / 2

  /** Glyph i of n goes to (StartX(n) + 16 i, 8): one blit per glyph, in
      order, 16 px apart on one row; a run of at most eight glyphs lies
      inside the 128 px width. */
  function Placed(glyphs: seq<Glyph>, n: nat): (r: seq<DrawOp>)
    requires |glyphs| <= n
    ensures |r| == |glyphs|
    ensures forall i :: 0 <= i < |r| ==> r[i].Blit? && r[i].glyph == glyphs[i] && r[i].y == StartY
    ensures GlyphWidth * n <= OledWidth ==>
      forall i :: 0 <= i < |r| ==> 0 <= r[i].x && r[i].x + GlyphWidth <= OledWidth
  {
    var r := seq(|glyphs|, i requires 0 <= i < |glyphs| => Blit(glyphs[i], StartX(n) + GlyphWidth * i, StartY));
    assert forall i :: 0 <= i < |r| ==> r[i].x == StartX(n) + GlyphWidth * i;
    r
  }

  /** Glyph j of a run sits 16 (j - i) px right of glyph i: the run has no
      gaps and no overlaps. */
  lemma PlacedSpacing(glyphs: seq<Glyph>, n: nat)
    requires |glyphs| <= n
    ensures var r := Placed(glyphs, n);
      forall i, j :: 0 <= i < j < |r| ==> r[j].x - r[i].x == GlyphWidth * (j - i)
  {
    var r := Placed(glyphs, n);
    assert forall i :: 0 <= i < |r| ==> r[i].x == StartX(n) + GlyphWidth * i;
  }

  /** The frame: cleared first, the glyphs side by side, then shown. */
  function Frame(glyphs: seq<Glyph>): (r: seq<DrawOp>)
    ensures |r| == |glyphs| + 2 && r[0] == Fill(0) && r[|r| - 1] == Show
    ensures forall i :: 1 <= i < |r| - 1 ==> r[i].Blit? && r[i].glyph == glyphs[i - 1]
  {
    [Fill(0)] + Placed(glyphs, |glyphs|) + [Show]
  }

  /** The run of glyphs [x0, x0 + 16 n) is centred on column 64, glyph i sits
      16 i px right of the first, and the buffer is cleared before any blit. */
  lemma FrameLayout(glyphs: seq<Glyph>)
    ensures var f, n := Frame(glyphs), |glyphs|;
      |f| == n + 2 && f[0] == Fill(0) && f[n + 1] == Show &&
      StartX(n) + (StartX(n) + GlyphWidth * n) == OledWidth &&
      (forall i :: 0 <= i < n ==> f[i + 1] == Blit(glyphs[i], StartX(n) + GlyphWidth * i, StartY))
  {
  }

  /** displayFont's loop: startX starts one glyph to the left and moves
      16 px before each blit. */
  method DisplayFont(bitmapArray: seq<Glyph>) returns (ops: seq<DrawOp>)
    ensures ops == Frame(bitmapArray)
  {
    var n := |bitmapArray|;
    var startX := -16 + (OledWidth - 16 * n) / 2;
    var startY := (OledHeight - 16) / 2;
    ops := [Fill(0)];
    for i := 0 to n
      invariant startX == StartX(n) + GlyphWidth * (i - 1)
      invariant ops == [Fill(0)] + Placed(bitmapArray[..i], n)
    {
      startX := startX + 16;
      assert Placed(bitmapArray[..i + 1], n) == Placed(bitmapArray[..i], n) + [Blit(bitmapArray[i], startX, startY)];
      ops := ops + [Blit(bitmapArray[i], startX, startY)];
    }
    assert bitmapArray[..n] == bitmapArray;
    ops := ops + [Show];
  }

  // ---------------------------------------------------------------------
  // showTime (oled.py:13-16)

  /** For a duration the encoder can hold, showTime blits exactly five
      glyphs spelling ConvertToString(countDown), the colon in the middle, at
      x = 24, 40, 56, 72, 88 and y = 8. */
  method ShowTime(countDown: int) returns (ops: seq<DrawOp>)
    ensures ops == Frame(Known(ConvertToString(countDown)))
    ensures 0 <= countDown <= EncMax ==>
      |ops| == 7 && ops[0] == Fill(0) && ops[6] == Show && ops[3].glyph == Glyph(':') &&
      forall i :: 0 <= i < 5 ==> ops[i + 1] == Blit(Glyph(ConvertToString(countDown)[i]), 24 + 16 * i, 8)
  {
    var timeString := ConvertToString(countDown);
    var bitMap := NumbersToBitmap(timeString);
    ops := DisplayFont(bitMap);
    if 0 <= countDown <= EncMax {
      ConvertToStringShape(countDown);
      KnownAllInFont(timeString);
      FrameLayout(bitMap);
      assert StartX(5) == 24;
      forall i | 0 <= i < 5
        ensures ops[i + 1] == Blit(Glyph(timeString[i]), 24 + 16 * i, 8)
      {
        assert bitMap[i] == Glyph(timeString[i]);
      }
    }
  }
}
