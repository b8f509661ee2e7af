/**
 * The JavaScript string operations the dashboard relies on, over `seq<char>`:
 * `trim`, `toLowerCase`/`toUpperCase`, `startsWith`, `indexOf`/`includes`,
 * `replace` with a string pattern, `join`, and `${n}` for integers.
 */
module Text {
  import opened Optional

  /** ECMAScript WhiteSpace and LineTerminator code points: what `trim` removes. */
  predicate IsSpace(c: char)
  {
    || c == '\t' || c == '\n' || c == '\U{000B}' || c == '\U{000C}' || c == '\r' || c == ' '
    || c == '\U{00A0}' || c == '\U{1680}' || ('\U{2000}' <= c <= '\U{200A}')
    || c == '\U{2028}' || c == '\U{2029}' || c == '\U{202F}' || c == '\U{205F}'
    || c == '\U{3000}' || c == '\U{FEFF}'
  }

  ghost predicate AllSpace(s: string)
  {
    forall i :: 0 <= i < |s| ==> IsSpace(s[i])
  }

  /** `s` with its leading white space removed. */
  function TrimStart(s: string): (r: string)
    ensures |r| <= |s|
    ensures forall i :: 0 <= i < |s| - |r| ==> IsSpace(s[i])
    ensures r != [] ==> !IsSpace(r[0]) && r[|r| - 1] == s[|s| - 1]
  {
    if s != [] && IsSpace(s[0]) then TrimStart(s[1..]) else s
  }

  /** What `TrimStart` keeps is a suffix of its input. */
  lemma {:induction false} TrimStartSuffix(s: string)
    ensures TrimStart(s) == s[|s| - |TrimStart(s)|..]
  {
    if s != [] && IsSpace(s[0]) {
      TrimStartSuffix(s[1..]);
      assert s[1..][|s| - 1 - |TrimStart(s)|..] == s[|s| - |TrimStart(s)|..];
    }
  }

  /** `s` with its trailing white space removed. */
  function TrimEnd(s: string): (r: string)
    ensures |r| <= |s|
    ensures forall i :: |r| <= i < |s| ==> IsSpace(s[i])
    ensures r != [] ==> !IsSpace(r[|r| - 1]) && r[0] == s[0]
  {
    if s != [] && IsSpace(s[|s| - 1]) then TrimEnd(s[..|s| - 1]) else s
  }

  /** What `TrimEnd` keeps is a prefix of its input. */
  lemma {:induction false} TrimEndPrefix(s: string)
    ensures TrimEnd(s) == s[..|TrimEnd(s)|]
  {
    if s != [] && IsSpace(s[|s| - 1]) {
      TrimEndPrefix(s[..|s| - 1]);
      assert s[..|s| - 1][..|TrimEnd(s)|] == s[..|TrimEnd(s)|];
    }
  }

  /** `s.trim()`: the slice of `s` between its leading and its trailing white space. */
  function Trim(s: string): (r: string)
    ensures |r| <= |s|
    ensures r != [] ==> !IsSpace(r[0]) && !IsSpace(r[|r| - 1])
  {
    TrimEnd(TrimStart(s))
  }

  /** What `trim` returns is a slice of its input. */
  lemma TrimOccurs(s: string)
    ensures exists i :: OccursAt(s, Trim(s), i)
  {
    var t := TrimStart(s);
    TrimStartSuffix(s);
    TrimEndPrefix(t);
    assert OccursAt(s, Trim(s), |s| - |t|);
  }

  /** `trim` leaves nothing exactly when the string is white space only. */
  lemma TrimEmptyIffAllSpace(s: string)
    ensures Trim(s) == [] <==> AllSpace(s)
  {
    var t := TrimStart(s);
    TrimStartSuffix(s);
    if t != [] {
      assert t[0] == s[|s| - |t|];
    }
  }

  /** JavaScript's `!s.trim()`: the string is empty or white space only. */
  predicate IsBlank(s: string)
  {
    Trim(s) == []
  }

  lemma TrimOfTrimmed(s: string)
    requires s == [] || (!IsSpace(s[0]) && !IsSpace(s[|s| - 1]))
    ensures Trim(s) == s
  {
  }

  lemma {:induction false} TrimStartLeadingSpace(w: string, s: string)
    requires AllSpace(w)
    ensures TrimStart(w + s) == TrimStart(s)
  {
    if w == [] {
      assert w + s == s;
    } else {
      assert (w + s)[0] == w[0] && (w + s)[1..] == w[1..] + s;
      TrimStartLeadingSpace(w[1..], s);
    }
  }

  /** Leading white space does not change what `trim` returns. */
  lemma TrimLeadingSpace(w: string, s: string)
    requires AllSpace(w)
    ensures Trim(w + s) == Trim(s)
  {
    TrimStartLeadingSpace(w, s);
  }

  lemma TrimStartAllSpace(s: string)
    requires AllSpace(s)
    ensures TrimStart(s) == []
  {
  }

  lemma AllSpaceCons(p: string)
    requires p != [] && IsSpace(p[0]) && AllSpace(p[1..])
    ensures AllSpace(p)
  {
    forall i | 1 <= i < |p| ensures IsSpace(p[i]) {
      assert p[i] == p[1..][i - 1];
    }
  }

  lemma {:induction false} TrimStartAppendKept(p: string, c: char)
    requires !(AllSpace(p) && IsSpace(c))
    ensures TrimStart(p + [c]) == TrimStart(p) + [c]
  {
    var q := p + [c];
    if p == [] {
      assert q == [c];
    } else if IsSpace(p[0]) {
      assert q[0] == p[0] && q[1..] == p[1..] + [c];
      if AllSpace(p[1..]) && IsSpace(c) {
        AllSpaceCons(p);
        assert false;
      }
      TrimStartAppendKept(p[1..], c);
    } else {
      assert q[0] == p[0];
    }
  }

  lemma TrimStartAppend(p: string, c: char)
    ensures TrimStart(p + [c]) == if AllSpace(p) && IsSpace(c) then [] else TrimStart(p) + [c]
  {
    if AllSpace(p) && IsSpace(c) {
      assert AllSpace(p + [c]) by {
        assert forall i :: 0 <= i < |p| ==> (p + [c])[i] == p[i];
      }
      TrimStartAllSpace(p + [c]);
    } else {
      TrimStartAppendKept(p, c);
    }
  }

  /** Trailing white space does not change what `trim` returns. */
  lemma TrimTrailingSpace(p: string, c: char)
    requires IsSpace(c)
    ensures Trim(p + [c]) == Trim(p)
  {
    TrimStartAppend(p, c);
    if AllSpace(p) {
      TrimStartAllSpace(p);
    } else {
      var x := TrimStart(p);
      assert (x + [c])[..|x|] == x;
    }
  }

  function LowerChar(c: char): char
  {
    if 'A' <= c <= 'Z' then (c as int + 32) as char else c
  }

  function UpperChar(c: char): char
  {
    if 'a' <= c <= 'z' then (c as int - 32) as char else c
  }

  /** `s.toLowerCase()` on the ASCII letters. */
  function Lower(s: string): (r: string)
    ensures |r| == |s| && forall i :: 0 <= i < |s| ==> r[i] == LowerChar(s[i])
  {
    seq(|s|, i requires 0 <= i < |s| => LowerChar(s[i]))
  }

  /** `s.toUpperCase()` on the ASCII letters. */
  function Upper(s: string): (r: string)
    ensures |r| == |s| && forall i :: 0 <= i < |s| ==> r[i] == UpperChar(s[i])
  {
    seq(|s|, i requires 0 <= i < |s| => UpperChar(s[i]))
  }

  /** `s.startsWith(p)`. */
  predicate StartsWith(s: string, p: string)
  {
    |p| <= |s| && s[..|p|] == p
  }

  /** Whether `t` occurs in `s` at position `i`. */
  ghost predicate OccursAt(s: string, t: string, i: int)
  {
    0 <= i <= |s| - |t| && s[i..i + |t|] == t
  }

  /** The first occurrence of `t` in `s` at or after `from`. */
  function IndexFrom(s: string, t: string, from: nat): (r: Option<nat>)
    requires from <= |s|
    ensures r.Some? ==> from <= r.value && OccursAt(s, t, r.value)
    ensures r.Some? ==> forall i :: from <= i < r.value ==> !OccursAt(s, t, i)
    ensures r.None? ==> forall i :: from <= i <= |s| ==> !OccursAt(s, t, i)
    decreases |s| - from
  {
    if from + |t| <= |s| && s[from..from + |t|] == t then Some(from)
    else if from == |s| then None
    else IndexFrom(s, t, from + 1)
  }

  /** `s.indexOf(t)`, with `None` for JavaScript's -1. */
  function IndexOf(s: string, t: string): (r: Option<nat>)
    ensures r.Some? ==> OccursAt(s, t, r.value) && forall i :: 0 <= i < r.value ==> !OccursAt(s, t, i)
    ensures r.None? <==> forall i :: 0 <= i <= |s| ==> !OccursAt(s, t, i)
  {
    IndexFrom(s, t, 0)
  }

  /** `s.includes(t)`. */
  predicate Contains(s: string, t: string)
  {
    IndexOf(s, t).Some?
  }

  lemma ContainsIff(s: string, t: string)
    ensures Contains(s, t) <==> exists i :: OccursAt(s, t, i)
  {
    if Contains(s, t) {
      assert OccursAt(s, t, IndexOf(s, t).value);
    }
  }

  /** `s.replace(pat, rep)` with a string pattern: only the first occurrence is replaced. */
  function ReplaceFirst(s: string, pat: string, rep: string): (r: string)
  {
    match IndexOf(s, pat)
    case None => s
    case Some(i) => s[..i] + rep + s[i + |pat|..]
  }

  lemma ReplaceFirstAtStart(p: string, rest: string)
    ensures ReplaceFirst(p + rest, p, "") == rest
  {
    assert OccursAt(p + rest, p, 0);
  }

  /** `parts.join(sep)`. */
  function Join(parts: seq<string>, sep: string): string
  {
    if parts == [] then []
    else if |parts| == 1 then parts[0]
    else parts[0] + sep + Join(parts[1..], sep)
  }

  function Digit(d: nat): char
    requires d < 10
  {
    "0123456789"[d]
  }

  function NatToString(n: nat): (r: string)
    ensures r != [] && forall i :: 0 <= i < |r| ==> '0' <= r[i] <= '9'
  {
    if n < 10 then [Digit(n)] else NatToString(n / 10) + [Digit(n % 10)]
  }

  /** `${n}` for an integer `n`: its decimal digits, after a minus sign when negative. */
  function IntToString(n: int): (r: string)
    ensures r != []
    ensures r[0] == '-' <==> n < 0
    ensures forall i :: (if n < 0 then 1 else 0) <= i < |r| ==> '0' <= r[i] <= '9'
  {
    if n < 0 then "-" + NatToString(-n) else NatToString(n)
  }

  function DigitValue(c: char): (d: nat)
    requires '0' <= c <= '9'
    ensures d < 10 && Digit(d) == c
  {
    (c as int - '0' as int) as nat
  }

  predicate AllDigits(s: string)
  {
    forall i :: 0 <= i < |s| ==> '0' <= s[i] <= '9'
  }

  /** The number a string of decimal digits spells. */
  function DigitsValue(s: string): nat
    requires AllDigits(s)
  {
    if s == [] then 0 else DigitsValue(s[..|s| - 1]) * 10 + DigitValue(s[|s| - 1])
  }

  /** Reading back the decimal form of a number gives the number. */
  lemma {:induction false} DigitsOfNatToString(n: nat)
    ensures AllDigits(NatToString(n)) && DigitsValue(NatToString(n)) == n
  {
    if n >= 10 {
      DigitsOfNatToString(n / 10);
      var r := NatToString(n);
      assert r[..|r| - 1] == NatToString(n / 10);
    }
  }

  /** Distinct integers have distinct decimal forms. */
  lemma IntToStringInjective(m: int, n: int)
    requires IntToString(m) == IntToString(n)
    ensures m == n
  {
    var a := if m < 0 then -m else m;
    var b := if n < 0 then -n else n;
    DigitsOfNatToString(a);
    DigitsOfNatToString(b);
    if m < 0 {
      assert IntToString(m)[1..] == NatToString(a);
      assert IntToString(n)[1..] == NatToString(b);
    }
  }
}
