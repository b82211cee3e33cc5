/** The phone number formatting of the transaction table
    (frontend/src/utils/formatters.ts): the first run of ten digits is
    rewritten as an Indian number, `+91 ddd ddd dddd`. */
module Formatters {
  import opened Wrappers
  import opened JsStrings

  const RunLength: nat := 10

  /** Ten decimal digits start at position `i` of `s`. */
  predicate RunAt(s: string, i: int) {
    0 <= i && i + RunLength <= |s| && forall k :: i <= k < i + RunLength ==> IsDecimalDigit(s[k])
  }

  /** The leftmost position at or after `from` where ten digits start: where
      a regular expression without the global flag matches first. */
  function FirstRun(s: string, from: nat): (r: Option<nat>)
    ensures r.Some? ==> from <= r.value && RunAt(s, r.value)
    ensures forall j :: from <= j && (r.None? || j < r.value) ==> !RunAt(s, j)
    decreases |s| - from
  {
    if from + RunLength > |s| then None
    else if RunAt(s, from) then Some(from)
    else FirstRun(s, from + 1)
  }

  /** The replacement `'+91 $1 $2 $3'` for the ten digits `d`. */
  function Rewrite(d: string): string
    requires |d| == RunLength
  {
    "+91 " + d[..3] + " " + d[3..6] + " " + d[6..]
  }

  /** `phone.replace(/(\d{3})(\d{3})(\d{4})/, '+91 $1 $2 $3')`. */
  function FormatPhoneNumber(phone: string): (r: string)
    ensures r != phone <==> exists i :: RunAt(phone, i)
    ensures r != phone ==> |r| == |phone| + 6
  {
    match FirstRun(phone, 0)
    case None => phone
    case Some(i) => phone[..i] + Rewrite(phone[i..i + RunLength]) + phone[i + RunLength..]
  }

  /** Without ten digits in a row the text is returned as it is. */
  lemma NoRunUnchanged(phone: string)
    requires forall i :: !RunAt(phone, i)
    ensures FormatPhoneNumber(phone) == phone
  {
  }

  /** With a run, only the leftmost one is rewritten: the text before it and
      after it stays, the output is six characters longer, and the character
      before the run, if any, is not a digit. */
  lemma FirstRunRewritten(phone: string, i: nat)
    requires RunAt(phone, i)
    requires forall j :: 0 <= j < i ==> !RunAt(phone, j)
    ensures var r := FormatPhoneNumber(phone);
            && |r| == |phone| + 6
            && r[..i] == phone[..i]
            && r[i..i + 16] == Rewrite(phone[i..i + RunLength])
            && r[i + 16..] == phone[i + RunLength..]
            && (i > 0 ==> !IsDecimalDigit(phone[i - 1]))
  {
    assert FirstRun(phone, 0) == Some(i);
    if i > 0 {
      DigitBeforeRun(phone, i);
    }
  }

  /** A digit just before a run would start an earlier run. */
  lemma DigitBeforeRun(s: string, i: nat)
    requires 0 < i && RunAt(s, i) && !RunAt(s, i - 1)
    ensures !IsDecimalDigit(s[i - 1])
  {
    if IsDecimalDigit(s[i - 1]) {
      assert forall k :: i - 1 <= k < i - 1 + RunLength ==> IsDecimalDigit(s[k]);
      assert RunAt(s, i - 1);
    }
  }

  /** The rewritten number holds no ten digits in a row: every window of ten
      of its sixteen characters covers the blank at position 7. */
  lemma RewriteHasNoRun(d: string)
    requires |d| == RunLength
    ensures forall j :: !RunAt(Rewrite(d), j)
  {
    var r := Rewrite(d);
    assert |r| == 16 && r[7] == ' ';
    assert !IsDecimalDigit(r[7]);
  }

  /** A bare ten-digit number is rewritten, and formatting the result again
      changes nothing. */
  lemma FormatTenDigitsOnce(d: string)
    requires |d| == RunLength && RunAt(d, 0)
    ensures FormatPhoneNumber(d) == Rewrite(d)
    ensures FormatPhoneNumber(FormatPhoneNumber(d)) == FormatPhoneNumber(d)
  {
    assert d[..0] == "" && d[0..RunLength] == d && d[RunLength..] == "";
    RewriteHasNoRun(d);
  }
}
