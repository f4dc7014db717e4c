/**
  The text form of a position (`description`), as the measure ruler shows it:
  `bar`, `bar.beat`, `bar.beat.subbeat` or `bar.beat.subbeat.cent`, dropping the
  trailing fields that are zero, with integers in decimal as Swift's string
  interpolation writes them. A reader of that text is given beside it, so that a round trip
  shows that the rendering loses nothing.
*/
module PositionText {
  import opened Wrappers
  import opened Positions

  predicate IsDigit(c: char) {
    '0' <= c <= '9'
  }

  predicate AllDigits(s: string) {
    forall i :: 0 <= i < |s| ==> IsDigit(s[i])
  }

  function DigitChar(d: nat): (c: char)
    requires d < 10
    ensures IsDigit(c) && c as int - '0' as int == d
  {
    ('0' as int + d) as char
  }

  /** Decimal digits of `n`, most significant first, with no leading zero. */
  function NatToDecimal(n: nat): (s: string)
    ensures |s| >= 1 && AllDigits(s)
  {
    if n < 10 then [DigitChar(n)] else NatToDecimal(n / 10) + [DigitChar(n % 10)]
  }

  /** The value of a string of decimal digits. */
  function DecimalValue(s: string): nat
    requires AllDigits(s)
  {
    if s == [] then 0 else 10 * DecimalValue(s[..|s| - 1]) + (s[|s| - 1] as int - '0' as int)
  }

  /** Swift's `"\(i)"` for an `Int`: a minus sign before the digits of a negative number. */
  function IntToText(i: int): (s: string)
    ensures '.' !in s
  {
    if i < 0 then "-" + NatToDecimal(-i) else NatToDecimal(i)
  }

  function ParseInt(s: string): Option<int> {
    if |s| >= 2 && s[0] == '-' && AllDigits(s[1..]) then Some(-(DecimalValue(s[1..]) as int))
    else if |s| >= 1 && AllDigits(s) then Some(DecimalValue(s))
    else None
  }

  /** The fields `description` shows: the bar, then up to the last non-zero field among beat, subbeat, cent. */
  function ShownFields(p: ScaleNotePosition): (fs: seq<int>)
    ensures 1 <= |fs| <= 4
  {
    if p.beat == 0 && p.subbeat == 0 && p.cent == 0 then [p.bar]
    else if p.subbeat == 0 && p.cent == 0 then [p.bar, p.beat]
    else if p.cent == 0 then [p.bar, p.beat, p.subbeat]
    else [p.bar, p.beat, p.subbeat, p.cent]
  }

  function Texts(xs: seq<int>): (ts: seq<string>)
    ensures |ts| == |xs|
    ensures forall i :: 0 <= i < |xs| ==> ts[i] == IntToText(xs[i])
  {
    if xs == [] then [] else [IntToText(xs[0])] + Texts(xs[1..])
  }

  /** The parts with a dot between neighbours. */
  function Join(parts: seq<string>): string
    requires |parts| >= 1
  {
    if |parts| == 1 then parts[0] else parts[0] + "." + Join(parts[1..])
  }

  /** `description`: the shown fields in decimal, separated by dots. */
  function Description(p: ScaleNotePosition): string {
    Join(Texts(ShownFields(p)))
  }

  /** The pieces of `s` between dots. */
  function Split(s: string): (parts: seq<string>)
    ensures |parts| >= 1
  {
    if s == [] then [""]
    else if s[0] == '.' then [""] + Split(s[1..])
    else
      var rest := Split(s[1..]);
      [[s[0]] + rest[0]] + rest[1..]
  }

  function ParseFields(parts: seq<string>): (r: Option<seq<int>>)
    ensures r.Some? ==> |r.value| == |parts|
  {
    if parts == [] then Some([])
    else
      match (ParseInt(parts[0]), ParseFields(parts[1..]))
      case (Some(v), Some(vs)) => Some([v] + vs)
      case _ => None
  }

  /** Reads a ruler text back; missing trailing fields are zero. */
  function ParseDescription(s: string): Option<ScaleNotePosition> {
    match ParseFields(Split(s))
    case None => None
    case Some(v) =>
      if 1 <= |v| <= 4 then
        var w := v + [0, 0, 0];
        Some(ScaleNotePosition(w[0], w[1], w[2], w[3]))
      else None
  }

  // ---------------------------------------------------------------------------

  lemma {:induction false} DecimalRoundTrip(n: nat)
    ensures DecimalValue(NatToDecimal(n)) == n
  {
    if n >= 10 {
      var s := NatToDecimal(n);
      assert s[..|s| - 1] == NatToDecimal(n / 10);
      DecimalRoundTrip(n / 10);
    }
  }

  lemma IntTextRoundTrip(i: int)
    ensures ParseInt(IntToText(i)) == Some(i)
  {
    if i < 0 {
      NegativeTextRoundTrip(-i);
    } else {
      var d := NatToDecimal(i);
      DecimalRoundTrip(i);
      assert IsDigit(d[0]);
      assert ParseInt(d) == Some(DecimalValue(d));
    }
  }

  lemma NegativeTextRoundTrip(n: nat)
    requires n > 0
    ensures ParseInt("-" + NatToDecimal(n)) == Some(-(n as int))
  {
    var d := NatToDecimal(n);
    var s := "-" + d;
    assert s[1..] == d;
    DecimalRoundTrip(n);
  }

  lemma {:induction false} SplitPlain(a: string)
    requires '.' !in a
    ensures Split(a) == [a]
  {
    if a != [] {
      SplitPlain(a[1..]);
      assert [a[0]] + a[1..] == a;
    }
  }

  lemma {:induction false} SplitJoin(a: string, b: string)
    requires '.' !in a
    ensures Split(a + "." + b) == [a] + Split(b)
  {
    if a == [] {
      assert a + "." + b == ['.'] + b;
      assert (['.'] + b)[1..] == b;
    } else {
      assert (a + "." + b)[0] == a[0] && (a + "." + b)[1..] == a[1..] + "." + b;
      SplitJoin(a[1..], b);
      assert [a[0]] + a[1..] == a;
    }
  }

  lemma {:induction false} SplitOfJoin(parts: seq<string>)
    requires |parts| >= 1
    requires forall i :: 0 <= i < |parts| ==> '.' !in parts[i]
    ensures Split(Join(parts)) == parts
  {
    if |parts| == 1 {
      SplitPlain(parts[0]);
    } else {
      SplitJoin(parts[0], Join(parts[1..]));
      SplitOfJoin(parts[1..]);
      assert [parts[0]] + parts[1..] == parts;
    }
  }

  lemma {:induction false} ParseFieldsOfTexts(xs: seq<int>)
    ensures ParseFields(Texts(xs)) == Some(xs)
  {
    if xs != [] {
      IntTextRoundTrip(xs[0]);
      assert Texts(xs)[1..] == Texts(xs[1..]);
      ParseFieldsOfTexts(xs[1..]);
      assert [xs[0]] + xs[1..] == xs;
    }
  }

  /** The ruler text determines the position: reading it back gives the position again. */
  lemma DescriptionRoundTrip(p: ScaleNotePosition)
    ensures ParseDescription(Description(p)) == Some(p)
  {
    var fs := ShownFields(p);
    SplitOfJoin(Texts(fs));
    ParseFieldsOfTexts(fs);
  }

  /** Two positions with the same ruler text are the same position. */
  lemma DescriptionInjective(p: ScaleNotePosition, q: ScaleNotePosition)
    requires Description(p) == Description(q)
    ensures p == q
  {
    DescriptionRoundTrip(p);
    DescriptionRoundTrip(q);
  }

  lemma DescriptionExamples()
    ensures Description(ScaleNotePosition(1, 0, 0, 0)) == "1"
    ensures Description(ScaleNotePosition(1, 2, 0, 0)) == "1.2"
    ensures Description(ScaleNotePosition(0, 3, 1, 0)) == "0.3.1"
  {
    assert Texts([1]) == ["1"];
    assert Texts([1, 2]) == ["1", "2"];
    assert Texts([0, 3, 1]) == ["0", "3", "1"];
  }

  /** The text of the position the source's `-` gives for `{1,0,0,0} - {0,0,3,1}`. */
  lemma BorrowResultDescription()
    ensures Description(ScaleNotePosition(0, 2, -4, 239)) == "0.2.-4.239"
  {
    var p := ScaleNotePosition(0, 2, -4, 239);
    assert ShownFields(p) == [0, 2, -4, 239];
    assert NatToDecimal(23) == "23";
    assert NatToDecimal(239) == "239";
    assert IntToText(-4) == "-4";
    var ts := Texts([0, 2, -4, 239]);
    assert ts == ["0", "2", "-4", "239"];
    assert Join(ts[3..]) == "239";
    assert Join(ts[2..]) == "-4.239";
  }
}
