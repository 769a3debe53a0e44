/** Self-delimiting texts over three digits, from which what was written can be read back. */
module Serial {
  /** Unary, with a leading '2' for a negative number. */
  function PutInt(n: int, rest: string): (r: string)
    ensures GetInt(r) == (n, rest)
    decreases if n < 0 then 1 - n else n
  {
    if n < 0 then "2" + PutInt(-n, rest) else if n == 0 then "0" + rest else "1" + PutInt(n - 1, rest)
  }

  function GetInt(s: string): (r: (int, string))
    ensures |r.1| <= |s|
  {
    if s == "" then (0, "")
    else
      var (n, rest) := GetInt(s[1..]);
      if s[0] == '1' then (n + 1, rest) else if s[0] == '2' then (-n, rest) else (0, s[1..])
  }

  function PutText(s: string, rest: string): (r: string)
    ensures GetText(r) == (s, rest)
  {
    if s == "" then "0" + rest
    else
      var more := PutInt(s[0] as int, PutText(s[1..], rest));
      assert ("1" + more)[1..] == more && CharOf(s[0] as int) == s[0] && [s[0]] + s[1..] == s;
      "1" + more
  }

  function CharOf(n: int): char {
    if 0 <= n < 0xD800 || 0xE000 <= n < 0x11_0000 then n as char else '?'
  }

  function GetText(s: string): (string, string)
    decreases |s|
  {
    if s == "" then ("", "")
    else if s[0] == '0' then ("", s[1..])
    else
      var (c, more) := GetInt(s[1..]);
      var (text, rest) := GetText(more);
      ([CharOf(c)] + text, rest)
  }

  predicate Digits(s: string) {
    forall c :: c in s ==> c in "012"
  }

  lemma DigitsCons(c: char, s: string)
    requires c in "012" && Digits(s)
    ensures Digits([c] + s)
  {
  }

  lemma {:induction false} IntDigits(n: int, rest: string)
    requires Digits(rest)
    ensures Digits(PutInt(n, rest)) && PutInt(n, rest) != ""
    decreases if n < 0 then 1 - n else n
  {
    hide GetInt, Digits;
    if n < 0 {
      IntDigits(-n, rest);
      DigitsCons('2', PutInt(-n, rest));
    } else if n == 0 {
      DigitsCons('0', rest);
    } else {
      IntDigits(n - 1, rest);
      DigitsCons('1', PutInt(n - 1, rest));
    }
  }

  lemma {:induction false} TextDigits(s: string, rest: string)
    requires Digits(rest)
    ensures Digits(PutText(s, rest)) && PutText(s, rest) != ""
  {
    hide GetInt, GetText, Digits;
    if s == "" {
      DigitsCons('0', rest);
    } else {
      TextDigits(s[1..], rest);
      IntDigits(s[0] as int, PutText(s[1..], rest));
      DigitsCons('1', PutInt(s[0] as int, PutText(s[1..], rest)));
    }
  }
}
