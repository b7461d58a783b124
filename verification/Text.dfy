// The string operations the modelled code leans on.
module Text {

  // str.lower() as far as it can produce an ASCII letter: the ASCII capitals and the Kelvin sign.
  function LowerChar(c: char): char {
    if 'A' <= c <= 'Z' then c - 'A' + 'a' else if c == '\U{212A}' then 'k' else c
  }

  function Lower(s: string): (l: string)
    ensures |l| == |s|
    ensures forall i :: 0 <= i < |s| ==> l[i] == LowerChar(s[i])
  {
    seq(|s|, i requires 0 <= i < |s| => LowerChar(s[i]))
  }

  // The characters str.strip() removes.
  predicate IsSpace(c: char) {
    || '\U{0009}' <= c <= '\U{000D}' || '\U{001C}' <= c <= '\U{0020}' || c == '\U{0085}' || c == '\U{00A0}'
    || c == '\U{1680}' || '\U{2000}' <= c <= '\U{200A}' || c == '\U{2028}' || c == '\U{2029}'
    || c == '\U{202F}' || c == '\U{205F}' || c == '\U{3000}'
  }

  function StripLeft(s: string): string {
    if s != "" && IsSpace(s[0]) then StripLeft(s[1..]) else s
  }

  function StripRight(s: string): string {
    if s != "" && IsSpace(s[|s| - 1]) then StripRight(s[..|s| - 1]) else s
  }

  function Strip(s: string): string {
    StripRight(StripLeft(s))
  }

  predicate Trimmed(s: string) {
    s == "" || (!IsSpace(s[0]) && !IsSpace(s[|s| - 1]))
  }

  lemma {:induction false} StripRightTrims(s: string)
    ensures StripRight(s) <= s
    ensures StripRight(s) == "" || !IsSpace(StripRight(s)[|StripRight(s)| - 1])
  {
    if s == "" || !IsSpace(s[|s| - 1]) {
    } else {
      StripRightTrims(s[..|s| - 1]);
    }
  }

  lemma {:induction false} StripLeftTrims(s: string)
    ensures StripLeft(s) == "" || !IsSpace(StripLeft(s)[0])
  {
    if s == "" || !IsSpace(s[0]) {
    } else {
      StripLeftTrims(s[1..]);
    }
  }

  // Stripping gives a trimmed string and changes no trimmed string: it is idempotent.
  lemma StripTrims(s: string)
    ensures Trimmed(Strip(s))
    ensures Trimmed(s) ==> Strip(s) == s
  {
    StripLeftTrims(s);
    StripRightTrims(StripLeft(s));
  }

  function Decimal(n: nat): (s: string)
    ensures s != "" && forall i :: 0 <= i < |s| ==> '0' <= s[i] <= '9'
  {
    (if n < 10 then "" else Decimal(n / 10)) + [('0' as int + n % 10) as char]
  }

  function Value(digits: string): int {
    if digits == "" then 0 else Value(digits[..|digits| - 1]) * 10 + (digits[|digits| - 1] as int - '0' as int)
  }

  lemma {:induction false} DecimalValue(n: nat)
    ensures Value(Decimal(n)) == n
  {
    var s := Decimal(n);
    assert s[..|s| - 1] == if n < 10 then "" else Decimal(n / 10);
    if n >= 10 { DecimalValue(n / 10); }
  }

  // A name with a running number behind a separator.
  function Numbered(name: string, separator: char, n: nat): string {
    name + [separator] + Decimal(n)
  }

  lemma LastSeparator(name: string, separator: char, n: nat)
    requires !('0' <= separator <= '9')
    ensures Numbered(name, separator, n)[|name|] == separator
    ensures forall i :: |name| < i < |Numbered(name, separator, n)| ==> Numbered(name, separator, n)[i] != separator
  {
    forall i | |name| < i < |Numbered(name, separator, n)| ensures Numbered(name, separator, n)[i] != separator {
      assert Numbered(name, separator, n)[i] == Decimal(n)[i - |name| - 1];
    }
  }

  // Name and number can be read off.
  lemma SameNumbered(a: string, j: nat, b: string, k: nat, separator: char)
    requires !('0' <= separator <= '9') && Numbered(a, separator, j) == Numbered(b, separator, k)
    ensures a == b && j == k
  {
    var s := Numbered(a, separator, j);
    LastSeparator(a, separator, j);
    LastSeparator(b, separator, k);
    assert |a| == |b|;
    assert s[|a| + 1..] == Decimal(j) && s[|b| + 1..] == Decimal(k);
    assert s[..|a|] == a && s[..|b|] == b;
    DecimalValue(j);
    DecimalValue(k);
  }

  lemma SamePrefix(prefix: string, a: string, b: string)
    ensures prefix + a == prefix + b <==> a == b
  {
    assert (prefix + a)[|prefix|..] == a && (prefix + b)[|prefix|..] == b;
  }
}
