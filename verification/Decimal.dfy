/** Task ids in decimal: std::to_string one way, std::from_chars the other. */
module Decimal {
  import opened Ids
  import opened Messages

  predicate IsDigit(c: char) {
    '0' <= c <= '9'
  }

  predicate AllDigits(text: string) {
    forall i :: 0 <= i < |text| ==> IsDigit(text[i])
  }

  function DigitValue(c: char): int
    requires IsDigit(c)
  {
    (c - '0') as int
  }

  function DigitChar(d: nat): char
    requires d < 10
  {
    '0' + d as char
  }

  function DecimalValue(text: string): nat
    requires AllDigits(text)
  {
    if text == "" then 0 else 10 * DecimalValue(text[..|text| - 1]) + DigitValue(text[|text| - 1])
  }

  function ToString(n: nat): string {
    if n < 10 then [DigitChar(n)] else ToString(n / 10) + [DigitChar(n % 10)]
  }

  function DigitRun(text: string): nat {
    if text != "" && IsDigit(text[0]) then 1 + DigitRun(text[1..]) else 0
  }

  lemma {:induction false} DigitRunSplits(text: string)
    ensures DigitRun(text) <= |text| && AllDigits(text[..DigitRun(text)])
    ensures DigitRun(text) < |text| ==> !IsDigit(text[DigitRun(text)])
  {
    if text != "" && IsDigit(text[0]) {
      DigitRunSplits(text[1..]);
      var k := DigitRun(text[1..]);
      forall i | 0 <= i < k + 1 ensures IsDigit(text[i]) {
        if i > 0 {
          assert text[i] == text[1..][..k][i - 1];
        }
      }
    }
  }

  datatype FromChars = Parsed(value: uint64, consumed: nat) | InvalidArgument | OutOfRange

  /** std::from_chars for an unsigned 64-bit integer: the longest run of digits, no sign, no prefix
      (section [charconv.from.chars] of ISO C++23). */
  function ParseUint64(text: string): FromChars {
    DigitRunSplits(text);
    var run := DigitRun(text);
    if run == 0 then InvalidArgument
    else if DecimalValue(text[..run]) >= TWO_64 then OutOfRange
    else Parsed(DecimalValue(text[..run]), run)
  }

  function ParseTaskId(text: string): Option<uint64> {
    if text == "" then None
    else
      match ParseUint64(text)
      case Parsed(value, consumed) => if consumed == |text| then Some(value) else None
      case _ => None
  }

  /** Accepted are exactly the non-empty digit strings whose value fits 64 bits. */
  lemma ParseAccepts(text: string, id: uint64)
    ensures ParseTaskId(text) == Some(id) <==> text != "" && AllDigits(text) && DecimalValue(text) == id
  {
    DigitRunSplits(text);
    var run := DigitRun(text);
    if run < |text| {
      assert !AllDigits(text);
    } else {
      assert text[..run] == text;
    }
  }

  lemma {:induction false} ValueOfToString(n: nat)
    ensures ToString(n) != "" && AllDigits(ToString(n)) && DecimalValue(ToString(n)) == n
  {
    if n < 10 {
      assert ToString(n)[..0] == "";
    } else {
      ValueOfToString(n / 10);
      var text := ToString(n);
      assert text[..|text| - 1] == ToString(n / 10);
    }
  }

  /** Every id survives printing and parsing. */
  lemma ParseInvertsToString(id: uint64)
    ensures ParseTaskId(ToString(id)) == Some(id)
  {
    ValueOfToString(id);
    ParseAccepts(ToString(id), id);
  }

  lemma DigitsAreSlashFree(text: string)
    requires AllDigits(text)
    ensures '/' !in text
  {
  }
}
