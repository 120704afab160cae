/**
 * The string operations the pages rely on: `toLowerCase`, `includes`,
 * `split("@")[0]` and the decimal rendering of `Date.now()`.
 */
module Text {

  /** `toLowerCase` on one character, restricted to ASCII: 'A'..'Z' map to 'a'..'z', all else is kept. */
  function LowerChar(c: char): char {
    if 'A' <= c <= 'Z' then (c as int + 32) as char else c
  }

  function Lower(s: string): string {
    seq(|s|, i requires 0 <= i < |s| => LowerChar(s[i]))
  }

  /** Lower-casing twice is lower-casing once. */
  lemma LowerIdempotent(s: string)
    ensures Lower(Lower(s)) == Lower(s)
  {
  }

  lemma LowerAppend(a: string, b: string)
    ensures Lower(a + b) == Lower(a) + Lower(b)
  {
  }

  /** A letter absent from `s` in both cases is absent from `Lower(s)`. */
  lemma LowerAvoids(s: string, lower: char, upper: char)
    requires 'A' <= upper <= 'Z' && LowerChar(upper) == lower
    requires lower !in s && upper !in s
    ensures lower !in Lower(s)
  {
    forall i | 0 <= i < |s| ensures Lower(s)[i] != lower {
      assert s[i] != lower && s[i] != upper;
    }
  }

  /** `s.includes(q)`, computed by trying every start position from the left. */
  function Includes(s: string, q: string): bool
    decreases |s|
  {
    if q <= s then true
    else if |s| == 0 then false
    else Includes(s[1..], q)
  }

  /** `q` is found in `s` starting at index `i`. */
  ghost predicate OccursAt(s: string, q: string, i: int) {
    0 <= i && i + |q| <= |s| && s[i..i + |q|] == q
  }

  /** `Includes` holds exactly when `q` occurs at some position of `s`. */
  lemma {:induction false} IncludesIffOccurs(s: string, q: string)
    ensures Includes(s, q) <==> exists i :: OccursAt(s, q, i)
    decreases |s|
  {
    if q <= s {
      assert OccursAt(s, q, 0);
    } else if |s| == 0 {
    } else {
      IncludesIffOccurs(s[1..], q);
      if Includes(s[1..], q) {
        var j :| OccursAt(s[1..], q, j);
        assert s[j + 1..j + 1 + |q|] == q by {
          forall k | 0 <= k < |q| ensures s[j + 1..j + 1 + |q|][k] == q[k] {
            assert q[k] == s[1..][j..j + |q|][k] == s[1..][j + k];
          }
        }
        assert OccursAt(s, q, j + 1);
      } else {
        forall i | OccursAt(s, q, i) ensures OccursAt(s[1..], q, i - 1) {
          assert s[1..][i - 1..i - 1 + |q|] == s[i..i + |q|];
        }
      }
    }
  }

  /** The empty string is included in every string. */
  lemma IncludesEmpty(s: string)
    ensures Includes(s, "")
  {
  }

  /** A non-empty `q` whose first character never occurs in `s` is not included in it. */
  lemma {:induction false} NotIncludedWithoutFirstChar(s: string, q: string)
    requires |q| > 0 && q[0] !in s
    ensures !Includes(s, q)
    decreases |s|
  {
    if |s| > 0 {
      assert s[0] != q[0];
      assert q[0] !in s[1..] by {
        forall k | 0 <= k < |s| - 1 ensures s[1..][k] != q[0] {
          assert s[1..][k] == s[k + 1];
        }
      }
      NotIncludedWithoutFirstChar(s[1..], q);
    }
  }

  /** Positions before `k` that cannot start `q` can be skipped. */
  lemma {:induction false} IncludesFrom(s: string, q: string, k: nat)
    requires |q| > 0 && k <= |s|
    requires forall j :: 0 <= j < k ==> s[j] != q[0]
    ensures Includes(s, q) == Includes(s[k..], q)
    decreases k
  {
    if k > 0 {
      assert s[0] != q[0];
      IncludesFrom(s[1..], q, k - 1);
      assert s[1..][k - 1..] == s[k..];
    }
  }

  /** A `q` that cannot start inside `a` is found in `a + b` only if it is found in `b`. */
  lemma NotIncludedAcross(a: string, b: string, q: string)
    requires |q| > 0 && q[0] !in a && !Includes(b, q)
    ensures !Includes(a + b, q)
  {
    IncludesFrom(a + b, q, |a|);
    assert (a + b)[|a|..] == b;
  }

  /**
   * `email.split("@")[0]`: the text before the first '@', or the whole
   * string when it has no '@'.
   */
  function LocalPart(email: string): (r: string)
    ensures r <= email
    ensures '@' !in r
    ensures |r| < |email| ==> email[|r|] == '@'
  {
    if |email| == 0 || email[0] == '@' then "" else [email[0]] + LocalPart(email[1..])
  }

  /** The three facts `LocalPart` ensures pin its result down: any prefix with them is `LocalPart`. */
  lemma LocalPartUnique(email: string, p: string)
    requires p <= email
    requires '@' !in p
    requires |p| < |email| ==> email[|p|] == '@'
    ensures p == LocalPart(email)
  {
    var r := LocalPart(email);
    assert |p| == |r|;
  }

  function DigitChar(d: nat): (c: char)
    requires d < 10
    ensures '0' <= c <= '9'
  {
    ('0' as int + d) as char
  }

  predicate IsDigits(s: string) {
    forall i :: 0 <= i < |s| ==> '0' <= s[i] <= '9'
  }

  /** `String(n)` for a non-negative integer such as `Date.now()`: its decimal digits. */
  function Decimal(n: nat): (r: string)
    ensures |r| > 0
    ensures IsDigits(r)
    decreases n
  {
    if n < 10 then [DigitChar(n)] else Decimal(n / 10) + [DigitChar(n % 10)]
  }

  /** The number a string of decimal digits denotes. */
  function DigitsValue(s: string): nat
    requires IsDigits(s)
  {
    if |s| == 0 then 0 else DigitsValue(s[..|s| - 1]) * 10 + (s[|s| - 1] as int - '0' as int)
  }

  /** Reading back the digits of `Decimal(n)` gives `n`: distinct timestamps give distinct strings. */
  lemma {:induction false} DecimalRoundTrip(n: nat)
    ensures DigitsValue(Decimal(n)) == n
    decreases n
  {
    if n >= 10 {
      var r := Decimal(n);
      assert r[..|r| - 1] == Decimal(n / 10);
      DecimalRoundTrip(n / 10);
    }
  }

  lemma DecimalInjective(m: nat, n: nat)
    requires Decimal(m) == Decimal(n)
    ensures m == n
  {
    DecimalRoundTrip(m);
    DecimalRoundTrip(n);
  }
}
