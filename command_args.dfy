/**
 * The command-line arguments the comparison driver hands to each training
 * script, and their text form. The driver writes them with Python f-strings
 * (`f"--sample_size={n}"`, the literal `"--mode=train"`), so an integer is
 * rendered the way Python's `str(int)` renders it: an optional minus sign
 * followed by decimal digits without leading zeros.
 *
 * The parsers below are not part of the driver; they are the reference
 * inverse that shows the rendering loses nothing.
 */
module CommandArgs {
  import opened Wrappers

  predicate IsDigit(c: char) {
    '0' <= c <= '9'
  }

  predicate AllDigits(s: string) {
    forall i :: 0 <= i < |s| ==> IsDigit(s[i])
  }

  function DigitValue(c: char): (d: nat)
    requires IsDigit(c)
    ensures d < 10
  {
    c as int - '0' as int
  }

  function DigitChar(d: nat): (c: char)
    requires d < 10
    ensures IsDigit(c) && DigitValue(c) == d
  {
    ('0' as int + d) as char
  }

  /** Decimal text of a natural number, most significant digit first. */
  function NatToDecimal(n: nat): (s: string)
    ensures |s| > 0 && AllDigits(s)
    ensures s[0] == '0' <==> n == 0
    decreases n
  {
    if n < 10 then [DigitChar(n)] else NatToDecimal(n / 10) + [DigitChar(n % 10)]
  }

  /** Python's `str(n)` for an integer `n`. */
  function IntToDecimal(n: int): (s: string)
    ensures |s| > 0
    ensures s[0] == '-' <==> n < 0
    ensures var d := if n < 0 then s[1..] else s;
      |d| > 0 && AllDigits(d) && (d[0] == '0' <==> n == 0)
  {
    if n < 0 then "-" + NatToDecimal(-n) else NatToDecimal(n)
  }

  /** Value of a non-empty run of decimal digits. */
  function DigitsValue(s: string): nat
    requires |s| > 0 && AllDigits(s)
  {
    if |s| == 1 then DigitValue(s[0])
    else DigitsValue(s[..|s| - 1]) * 10 + DigitValue(s[|s| - 1])
  }

  function ParseNat(s: string): Option<nat> {
    if |s| > 0 && AllDigits(s) then Some(DigitsValue(s)) else None
  }

  function ParseInt(s: string): Option<int> {
    if |s| > 0 && s[0] == '-' then
      match ParseNat(s[1..])
      case Some(v) => Some(-(v as int))
      case None => None
    else
      match ParseNat(s)
      case Some(v) => Some(v as int)
      case None => None
  }

  lemma {:induction false} NatToDecimalRoundTrip(n: nat)
    ensures ParseNat(NatToDecimal(n)) == Some(n)
    decreases n
  {
    if n >= 10 {
      var s := NatToDecimal(n);
      assert s[..|s| - 1] == NatToDecimal(n / 10);
      NatToDecimalRoundTrip(n / 10);
    }
  }

  lemma IntToDecimalRoundTrip(n: int)
    ensures ParseInt(IntToDecimal(n)) == Some(n)
  {
    var s := IntToDecimal(n);
    if n < 0 {
      assert s[0] == '-' && s[1..] == NatToDecimal(-n);
      NatToDecimalRoundTrip(-n);
      assert ParseNat(s[1..]) == Some(-n);
    } else {
      assert s == NatToDecimal(n) && s[0] != '-';
      NatToDecimalRoundTrip(n);
      assert ParseNat(s) == Some(n);
    }
  }

  /** An argument passed to a training script. */
  datatype Arg = SampleSize(n: int) | ModeTrain

  const SampleSizePrefix: string := "--sample_size="
  const ModeTrainText: string := "--mode=train"

  /** The command-line word for an argument. */
  function Render(a: Arg): string {
    match a
    case SampleSize(n) => SampleSizePrefix + IntToDecimal(n)
    case ModeTrain => ModeTrainText
  }

  function ParseArg(s: string): Option<Arg> {
    if s == ModeTrainText then Some(ModeTrain)
    else if |SampleSizePrefix| <= |s| && s[..|SampleSizePrefix|] == SampleSizePrefix then
      match ParseInt(s[|SampleSizePrefix|..])
      case Some(n) => Some(SampleSize(n))
      case None => None
    else None
  }

  /** Every argument word the driver writes reads back as the argument it came from. */
  lemma RenderRoundTrip(a: Arg)
    ensures ParseArg(Render(a)) == Some(a)
  {
    match a
    case SampleSize(n) =>
      var s := Render(a);
      assert |s| > |ModeTrainText|;
      assert s[..|SampleSizePrefix|] == SampleSizePrefix;
      assert s[|SampleSizePrefix|..] == IntToDecimal(n);
      IntToDecimalRoundTrip(n);
    case ModeTrain =>
  }

  /** Distinct arguments are written as distinct words. */
  lemma RenderInjective(a: Arg, b: Arg)
    ensures Render(a) == Render(b) ==> a == b
  {
    RenderRoundTrip(a);
    RenderRoundTrip(b);
  }

  /** The words for a list of arguments, in order. */
  function RenderAll(args: seq<Arg>): (words: seq<string>)
    ensures |words| == |args|
    ensures forall i :: 0 <= i < |args| ==> words[i] == Render(args[i])
  {
    seq(|args|, i requires 0 <= i < |args| => Render(args[i]))
  }

  lemma RenderAllInjective(a: seq<Arg>, b: seq<Arg>)
    ensures RenderAll(a) == RenderAll(b) ==> a == b
  {
    if RenderAll(a) == RenderAll(b) {
      forall i | 0 <= i < |a|
        ensures a[i] == b[i]
      {
        RenderInjective(a[i], b[i]);
      }
    }
  }
}
