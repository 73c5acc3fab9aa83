/**
 * PNG export: the raster request is made under the identity viewport
 * transform at the store's canvas size, the preview transform is put back
 * afterwards, and the download is named after the moment of export.
 */
module Export {
  import opened SceneGraph
  import opened Store

  /** The local calendar fields the clock reports; `month` is 0-based (January is 0). */
  datatype Moment = Moment(year: int, month: nat, day: nat, hours: nat, minutes: nat)

  /** The decimal digit character of `d`. */
  function Digit(d: nat): (c: char)
    requires d < 10
    ensures '0' <= c <= '9' && c as int - '0' as int == d
  {
    (d + '0' as int) as char
  }

  predicate IsDigits(s: string)
  {
    forall i :: 0 <= i < |s| ==> '0' <= s[i] <= '9'
  }

  /** `String(n)` for a non-negative integer: its decimal digits, without leading zeros. */
  function DecimalString(n: nat): (s: string)
    ensures |s| >= 1 && IsDigits(s)
    ensures |s| == 1 <==> n < 10
    ensures s[0] == '0' ==> n == 0
    decreases n
  {
    if n < 10 then [Digit(n)] else DecimalString(n / 10) + [Digit(n % 10)]
  }

  /** The value of a string of decimal digits. */
  function ParseDecimal(s: string): nat
    requires IsDigits(s)
  {
    if s == [] then 0 else ParseDecimal(s[..|s| - 1]) * 10 + (s[|s| - 1] as int - '0' as int)
  }

  /** Reading the digits back gives the number. */
  lemma {:induction false} ParseDecimalString(n: nat)
    ensures ParseDecimal(DecimalString(n)) == n
    decreases n
  {
    var s := DecimalString(n);
    if n >= 10 {
      ParseDecimalString(n / 10);
      assert s[..|s| - 1] == DecimalString(n / 10);
    }
  }

  /** Numbers from 1000 to 9999 have four digits. */
  lemma FourDigits(n: nat)
    requires 1000 <= n <= 9999
    ensures |DecimalString(n)| == 4
  {
    assert |DecimalString(n / 1000)| == 1;
    assert DecimalString(n / 100) == DecimalString(n / 1000) + [Digit(n / 100 % 10)];
    assert DecimalString(n / 10) == DecimalString(n / 100) + [Digit(n / 10 % 10)];
  }

  /** `String(n)` for any integer, with a minus sign before a negative one. */
  function IntString(n: int): (s: string)
    ensures n >= 0 ==> s == DecimalString(n)
    ensures n < 0 ==> |s| >= 2 && s[0] == '-'
  {
    if n < 0 then "-" + DecimalString(-n) else DecimalString(n)
  }

  /** `k` copies of `c`. */
  function Repeat(c: char, k: nat): (r: string)
    ensures |r| == k && forall i :: 0 <= i < k ==> r[i] == c
  {
    if k == 0 then [] else [c] + Repeat(c, k - 1)
  }

  /** `s.padStart(len, c)`: `s` preceded by as many `c` as it takes to reach `len` characters. */
  function PadStart(s: string, len: nat, c: char): (r: string)
    ensures |r| == (if |s| >= len then |s| else len)
  {
    if |s| >= len then s else Repeat(c, len - |s|) + s
  }

  /** `padStart` keeps a long enough string and otherwise fills it up from the left to exactly `len`. */
  lemma PadStartPads(s: string, len: nat, c: char)
    ensures var r := PadStart(s, len, c);
            && |r| == (if |s| >= len then |s| else len)
            && r[|r| - |s|..] == s
            && forall i :: 0 <= i < |r| - |s| ==> r[i] == c
  {
  }

  /** A calendar field padded with '0' to at least two characters. */
  function TwoDigits(n: nat): (r: string)
    ensures |r| >= 2
  {
    PadStart(DecimalString(n), 2, '0')
  }

  /**
   * A field below 100 takes exactly two digits, a leading '0' below 10, and
   * reads back as itself; a larger field is written in full.
   */
  lemma TwoDigitsRoundTrip(n: nat)
    ensures |TwoDigits(n)| >= 2 && IsDigits(TwoDigits(n))
    ensures n >= 100 ==> TwoDigits(n) == DecimalString(n)
    ensures n < 100 ==> |TwoDigits(n)| == 2 && ParseDecimal(TwoDigits(n)) == n
    ensures n < 10 ==> TwoDigits(n) == ['0', Digit(n)]
  {
    var s := DecimalString(n);
    ParseDecimalString(n);
    if n < 10 {
      assert TwoDigits(n) == ['0'] + s;
      assert TwoDigits(n)[..1] == ['0'];
    } else if n < 100 {
      assert |DecimalString(n / 10)| == 1;
    }
  }

  /** The time stamp of a file name: year + MM + DD + `_` + HH + mm, with the month counted from 1. */
  function Stamp(m: Moment): (s: string)
    ensures |s| >= 10
  {
    IntString(m.year) + TwoDigits(m.month + 1) + TwoDigits(m.day) + "_" + TwoDigits(m.hours) + TwoDigits(m.minutes)
  }

  /** `covermaker_` + the time stamp + `.png`. */
  function FileName(m: Moment): (f: string)
    ensures |f| >= 25 && f[..11] == "covermaker_" && f[|f| - 4..] == ".png"
  {
    "covermaker_" + Stamp(m) + ".png"
  }

  /** Reads the calendar fields back from a name of the shape `FileName` gives a four-digit year. */
  function ParseFileName(f: string): Option<Moment>
  {
    if |f| == 28 && f[..11] == "covermaker_" && f[19] == '_' && f[24..] == ".png"
       && IsDigits(f[11..15]) && IsDigits(f[15..17]) && IsDigits(f[17..19])
       && IsDigits(f[20..22]) && IsDigits(f[22..24]) && ParseDecimal(f[15..17]) >= 1
    then Some(Moment(ParseDecimal(f[11..15]), ParseDecimal(f[15..17]) - 1, ParseDecimal(f[17..19]),
                     ParseDecimal(f[20..22]), ParseDecimal(f[22..24])))
    else None
  }

  /** Splitting a concatenation at the end of its first part gives back both parts. */
  lemma Split(a: string, b: string)
    ensures (a + b)[..|a|] == a && (a + b)[|a|..] == b
  {
  }

  /**
   * Where the pieces of a name built from a four-digit year and two-digit
   * fields sit in it.
   */
  lemma {:induction false} Layout(y: string, mo: string, d: string, h: string, mi: string)
    requires |y| == 4 && |mo| == 2 && |d| == 2 && |h| == 2 && |mi| == 2
    ensures var f := "covermaker_" + (y + mo + d + "_" + h + mi) + ".png";
            && |f| == 28 && f[..11] == "covermaker_" && f[19] == '_' && f[24..] == ".png"
            && f[11..15] == y && f[15..17] == mo && f[17..19] == d && f[20..22] == h && f[22..24] == mi
  {
    var p1 := y + mo;
    var p2 := p1 + d;
    var p3 := p2 + "_";
    var p4 := p3 + h;
    var stamp := p4 + mi;
    var named := "covermaker_" + stamp;
    var f := named + ".png";
    Split(named, ".png");
    Split("covermaker_", stamp);
    Split(p4, mi);
    Split(p3, h);
    Split(p1, d);
    Split(y, mo);
    assert f[11..15] == stamp[..4] == p1[..4];
    assert f[15..17] == stamp[4..6] == p1[4..];
    assert f[17..19] == stamp[6..8] == p2[6..];
    assert f[19] == stamp[8] == p3[8];
    assert f[20..22] == stamp[9..11] == p4[9..];
    assert f[22..24] == stamp[11..];
  }

  /**
   * For a four-digit year and in-range fields the name has 28 characters and
   * every field reads back from it.
   */
  lemma {:induction false} FileNameRoundTrip(m: Moment)
    requires 1000 <= m.year <= 9999 && m.month < 12 && 1 <= m.day <= 31 && m.hours < 24 && m.minutes < 60
    ensures |FileName(m)| == 28
    ensures ParseFileName(FileName(m)) == Some(m)
  {
    var y, mo, d := IntString(m.year), TwoDigits(m.month + 1), TwoDigits(m.day);
    var h, mi := TwoDigits(m.hours), TwoDigits(m.minutes);
    FourDigits(m.year);
    ParseDecimalString(m.year);
    TwoDigitsRoundTrip(m.month + 1);
    TwoDigitsRoundTrip(m.day);
    TwoDigitsRoundTrip(m.hours);
    TwoDigitsRoundTrip(m.minutes);
    Layout(y, mo, d, h, mi);
  }

  /** The name of the file and the raster request behind its contents. */
  datatype Download = Download(fileName: string, image: Raster)

  /**
   * Exports the canvas: without a canvas nothing happens. Otherwise the
   * current viewport transform is saved (identity when there is none), the
   * raster of the store's canvas size is requested at multiplier 1 under the
   * identity transform, and the saved transform is put back.
   */
  method HandleExport(store: CanvasStore, now: Moment) returns (download: Option<Download>)
    modifies store.Attached()`viewportTransform
    ensures store.Valid() == old(store.Valid())
    ensures store.canvas == null ==> download == None
    ensures store.canvas != null ==>
              && download == Some(Download(FileName(now),
                   Raster(store.canvasWidth, store.canvasHeight, 1.0, Identity, old(store.canvas.ToJSON()))))
              && store.canvas.viewportTransform ==
                   Some(if old(store.canvas.viewportTransform).Some? then old(store.canvas.viewportTransform).value else Identity)
              && store.canvas.ToJSON() == old(store.canvas.ToJSON())
              && store.canvas.active == old(store.canvas.active) && store.canvas.nextId == old(store.canvas.nextId)
              && store.canvas.width == old(store.canvas.width) && store.canvas.height == old(store.canvas.height)
  {
    var canvas := store.canvas;
    if canvas == null {
      return None;
    }
    var fileName := FileName(now);
    var vt := if canvas.viewportTransform.Some? then canvas.viewportTransform.value else Identity;
    canvas.SetViewportTransform(Identity);
    var dataURL := canvas.ToDataURL(store.canvasWidth, store.canvasHeight, 1.0);
    canvas.SetViewportTransform(vt);
    download := Some(Download(fileName, dataURL));
  }
}
