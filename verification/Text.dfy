/**
  The text handling the services share: trimming, lower-casing and decimal parsing.
 */
module Text {
  import opened Common

  predicate IsSpace(c: char) {
    || c == ' ' || '\t' <= c <= '\r' || c == '\U{0085}' || c == '\U{00A0}' || c == '\U{1680}'
    || '\U{2000}' <= c <= '\U{200A}' || c == '\U{2028}' || c == '\U{2029}' || c == '\U{202F}'
    || c == '\U{205F}' || c == '\U{3000}'
  }

  function Trim(s: string): (t: string)
    ensures t != "" ==> !IsSpace(t[0]) && !IsSpace(t[|t| - 1])
    ensures (s == "" || (!IsSpace(s[0]) && !IsSpace(s[|s| - 1]))) ==> t == s
  {
    if s == "" then s
    else if IsSpace(s[0]) then Trim(s[1..])
    else if IsSpace(s[|s| - 1]) then Trim(s[..|s| - 1])
    else s
  }

  function LowerChar(c: char): (l: char)
    ensures IsSpace(l) <==> IsSpace(c)
  {
    if 'A' <= c <= 'Z' then (c as int + 32) as char else c
  }

  function Lower(s: string): (l: string)
    ensures |l| == |s|
    ensures forall i | 0 <= i < |s| :: l[i] == LowerChar(s[i])
  {
    seq(|s|, i requires 0 <= i < |s| => LowerChar(s[i]))
  }

  /** How statuses, schedule entries and fee types are compared. */
  function Normal(s: string): string {
    Lower(Trim(s))
  }

  lemma NormalIdempotent(s: string)
    ensures Normal(Normal(s)) == Normal(s)
  {
    var n := Normal(s);
    assert Trim(n) == n;
    assert Lower(n) == n;
  }

  function Digits(s: string): Result<nat> {
    if s == "" then Ok(0)
    else
      var rest, c := Digits(s[..|s| - 1]), s[|s| - 1];
      if rest.Ok? && '0' <= c <= '9' then Ok(10 * rest.value + (c as int - '0' as int)) else Err
  }

  /** A decimal 64-bit integer with an optional sign. */
  function Atoi(s: string): Result<int64> {
    var signed := s != "" && (s[0] == '+' || s[0] == '-');
    var digits := if signed then s[1..] else s;
    var magnitude := Digits(digits);
    if digits == "" || magnitude.Err? then Err
    else
      var n := if signed && s[0] == '-' then -(magnitude.value as int) else magnitude.value;
      if InRange64(n) then Ok(n) else Err
  }

  // ---------------------------------------------------------------------------
  // What these mean
  // ---------------------------------------------------------------------------

  /** Trimming cuts off white space at both ends and nothing else. */
  lemma {:induction false} TrimCuts(s: string) returns (start: nat, stop: nat)
    ensures start <= stop <= |s| && Trim(s) == s[start..stop]
    ensures forall i | 0 <= i < start || stop <= i < |s| :: IsSpace(s[i])
  {
    hide IsSpace;
    start, stop := 0, |s|;
    if s != "" {
      if IsSpace(s[0]) {
        var i, j := TrimCuts(s[1..]);
        start, stop := i + 1, j + 1;
        assert s[1..][i..j] == s[start..stop];
        assert forall k | 0 < k < |s| :: s[k] == s[1..][k - 1];
      } else if IsSpace(s[|s| - 1]) {
        var n := |s| - 1;
        start, stop := TrimCuts(s[..n]);
        assert s[..n][start..stop] == s[start..stop];
        assert forall k | 0 <= k < n :: s[k] == s[..n][k];
      }
    }
  }

  /** Lower-casing changes the letters A to Z and nothing else. */
  lemma LowerCases(c: char)
    ensures Lower([c]) == if 'A' <= c <= 'Z' then ["abcdefghijklmnopqrstuvwxyz"[c as int - 'A' as int]] else [c]
  {
  }

  /** A number written out in decimal. */
  function Decimal(n: nat): (s: string)
    ensures s != "" && forall i | 0 <= i < |s| :: '0' <= s[i] <= '9'
    decreases n
  {
    var digit := ['0' + (n % 10) as char];
    if n < 10 then digit else Decimal(n / 10) + digit
  }

  lemma {:induction false} DigitsOfDecimal(n: nat)
    ensures Digits(Decimal(n)) == Ok(n)
    decreases n
  {
    var s := Decimal(n);
    var digit := ['0' + (n % 10) as char];
    if n < 10 {
      assert s[..|s| - 1] == "";
    } else {
      DigitsOfDecimal(n / 10);
      assert s[..|s| - 1] == Decimal(n / 10);
    }
  }

  /** Parsing undoes writing, for every number that fits; larger ones are refused. */
  lemma AtoiOfDecimal(n: nat)
    ensures Atoi(Decimal(n)) == if n < TWO_63 then Ok(n) else Err
    ensures Atoi("-" + Decimal(n)) == if n <= TWO_63 then Ok(-(n as int)) else Err
  {
    DigitsOfDecimal(n);
    assert ("-" + Decimal(n))[1..] == Decimal(n);
    assert Decimal(n)[0] >= '0';
  }
}
