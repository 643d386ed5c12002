/** The text of a move number inside a move-list entry: how an f-string writes
    an integer, how int() reads one back, and the split('.')[0] that isolates it. */
module NumberText {
  import opened Wrappers

  predicate IsDigit(c: char) { '0' <= c <= '9' }

  predicate AllDigits(s: string) { forall i :: 0 <= i < |s| ==> IsDigit(s[i]) }

  function DigitValue(c: char): (d: nat)
    requires IsDigit(c)
    ensures d < 10
  {
    c as int - '0' as int
  }

  function DigitChar(d: nat): (c: char)
    requires d < 10
    ensures IsDigit(c) && DigitValue(c) == d
  {
    ('0' as int + d) as char
  }

  /** The value of a string of decimal digits, most significant first. */
  function DigitsValue(s: string): nat
    requires AllDigits(s)
  {
    if s == [] then 0 else DigitsValue(s[..|s| - 1]) * 10 + DigitValue(s[|s| - 1])
  }

  /** f"{n}" for n >= 0: the decimal digits of n, without leading zeros. */
  function NatToString(n: nat): (s: string)
    ensures |s| > 0 && AllDigits(s)
  {
    if n < 10 then [DigitChar(n)] else NatToString(n / 10) + [DigitChar(n % 10)]
  }

  /** f"{n}" for any integer: a '-' in front of a negative number. */
  function IntToString(n: int): (s: string)
    ensures |s| > 0 && '.' !in s
  {
    if n < 0 then "-" + NatToString(-n) else NatToString(n)
  }

  /** A text f"{n}" can write: digits without a leading zero, with a '-' in
      front when the number is negative. */
  predicate Canonical(s: string)
  {
    (|s| > 0 && AllDigits(s) && (|s| == 1 || s[0] != '0')) ||
    (|s| > 1 && s[0] == '-' && AllDigits(s[1..]) && s[1] != '0')
  }

  /** int(s) on the texts it can meet here: an optional '-' followed by at
      least one decimal digit. Every other text is the ValueError int() raises,
      returned as None. */
  function ParseInt(s: string): (r: Option<int>)
    ensures r.Some? ==> |s| > 0 && '.' !in s && ' ' !in s
    ensures |s| > 0 && AllDigits(s) ==> r.Some? && r.value >= 0
    ensures Canonical(s) ==> r.Some? && IntToString(r.value) == s
  {
    if |s| > 1 && s[0] == '-' && AllDigits(s[1..]) then
      if s[1] != '0' then DigitsCanonical(s[1..]); Some(-(DigitsValue(s[1..]) as int))
      else Some(-(DigitsValue(s[1..]) as int))
    else if |s| > 0 && AllDigits(s) then
      if |s| == 1 || s[0] != '0' then DigitsCanonical(s); Some(DigitsValue(s))
      else Some(DigitsValue(s))
    else None
  }

  /** Digits without a leading zero are exactly what f"{n}" writes for their value. */
  lemma {:induction false} DigitsCanonical(s: string)
    requires |s| > 0 && AllDigits(s) && (|s| == 1 || s[0] != '0')
    ensures NatToString(DigitsValue(s)) == s
  {
    var init := s[..|s| - 1];
    if |init| > 0 {
      DigitsCanonical(init);
      assert init[0] == s[0];
      assert NatToString(0) == ['0'];
      assert s == init + [s[|s| - 1]];
    }
  }

  /** s.split('.')[0]: the text before the first '.', or all of s when it has none. */
  function BeforeDot(s: string): (r: string)
    ensures r <= s && '.' !in r
    ensures |r| < |s| ==> s[|r|] == '.'
  {
    if s == [] || s[0] == '.' then [] else [s[0]] + BeforeDot(s[1..])
  }

  lemma {:induction false} NatToStringRoundTrip(n: nat)
    ensures DigitsValue(NatToString(n)) == n
  {
    if n >= 10 {
      NatToStringRoundTrip(n / 10);
      var s := NatToString(n);
      assert s[..|s| - 1] == NatToString(n / 10);
    }
  }

  /** Reading back the text an f-string wrote for n gives n again. */
  lemma ParseIntRoundTrip(n: int)
    ensures ParseInt(IntToString(n)) == Some(n)
  {
    if n < 0 {
      NatToStringRoundTrip(-n);
      assert IntToString(n)[1..] == NatToString(-n);
    } else {
      NatToStringRoundTrip(n);
      assert IsDigit(IntToString(n)[0]);
    }
  }

  /** split('.')[0] of a text that starts with a dot-free head followed by a
      '.' gives back exactly that head. */
  lemma BeforeDotOfHead(head: string, tail: string)
    requires '.' !in head && |tail| > 0 && tail[0] == '.'
    ensures BeforeDot(head + tail) == head
  {
    assert (head + tail)[..|head|] == head;
  }

  /** The move number of an entry "{n}{marker} {move}" whose marker starts
      with '.' is read back by int(text.split('.')[0]). */
  lemma NumberOfEntryText(n: int, rest: string)
    requires |rest| > 0 && rest[0] == '.'
    ensures ParseInt(BeforeDot(IntToString(n) + rest)) == Some(n)
  {
    BeforeDotOfHead(IntToString(n), rest);
    ParseIntRoundTrip(n);
  }
}
