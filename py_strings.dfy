/**
 * The parts of Python's `str` that the model relies on: substring tests
 * (`sub in s`), `str.strip`, `str.join`, `str(n)` of a natural number and
 * prefix tests.
 */
module PyStrings {

  /** Python's `str.isspace()` on one character. */
  predicate IsSpace(c: char)
  {
    || '\t' <= c <= '\r' || '\U{1C}' <= c <= ' ' || c == '\U{85}' || c == '\U{A0}' || c == '\U{1680}'
    || '\U{2000}' <= c <= '\U{200A}' || c == '\U{2028}' || c == '\U{2029}' || c == '\U{202F}'
    || c == '\U{205F}' || c == '\U{3000}'
  }

  /** The characters `str.strip()` removes when given no argument. */
  const Whitespace: set<char> := set c: char | IsSpace(c)

  predicate HasPrefix(prefix: string, s: string)
  {
    |prefix| <= |s| && s[..|prefix|] == prefix
  }

  /** `sub` occurs in `s` starting at index `i`. */
  ghost predicate OccursAt(s: string, sub: string, i: int)
  {
    0 <= i && i + |sub| <= |s| && s[i..i + |sub|] == sub
  }

  /** Python's `sub in s`. */
  function Contains(s: string, sub: string): (r: bool)
    ensures r <==> exists i :: OccursAt(s, sub, i)
    decreases |s|
  {
    if |sub| > |s| then
      false
    else if s[..|sub|] == sub then
      assert OccursAt(s, sub, 0);
      true
    else
      ContainsShift(s, sub);
      Contains(s[1..], sub)
  }

  /** Past a non-match at index 0, the occurrences in `s` are those in `s[1..]`, one index on. */
  lemma ContainsShift(s: string, sub: string)
    requires |sub| <= |s| && s[..|sub|] != sub
    ensures (exists i :: OccursAt(s, sub, i)) <==> (exists j :: OccursAt(s[1..], sub, j))
  {
    if exists i :: OccursAt(s, sub, i) {
      var i :| OccursAt(s, sub, i);
      assert i > 0;
      assert s[1..][i - 1..i - 1 + |sub|] == s[i..i + |sub|];
      assert OccursAt(s[1..], sub, i - 1);
    }
    if exists j :: OccursAt(s[1..], sub, j) {
      var j :| OccursAt(s[1..], sub, j);
      assert s[1..][j..j + |sub|] == s[j + 1..j + 1 + |sub|];
      assert OccursAt(s, sub, j + 1);
    }
  }

  /** Every character of `s` is in `chars`. */
  ghost predicate AllIn(s: string, chars: set<char>)
  {
    forall k :: 0 <= k < |s| ==> s[k] in chars
  }

  /** `r` neither starts nor ends with a character of `chars`. */
  predicate Trimmed(r: string, chars: set<char>)
  {
    r == [] || (r[0] !in chars && r[|r| - 1] !in chars)
  }

  /**
   * Reference reading of `s.strip(chars)`: `r` is the stretch of `s` that
   * starts at `i`, everything before and after it is in `chars`, and `r`
   * itself is trimmed.
   */
  ghost predicate StrippedAt(s: string, r: string, chars: set<char>, i: int)
  {
    && 0 <= i && i + |r| <= |s|
    && s[i..i + |r|] == r
    && AllIn(s[..i], chars)
    && AllIn(s[i + |r|..], chars)
    && Trimmed(r, chars)
  }

  /** Python's `s.lstrip(chars)`. */
  function StripLeft(s: string, chars: set<char>): (r: string)
    ensures |r| <= |s| && r == s[|s| - |r|..]
    ensures AllIn(s[..|s| - |r|], chars)
    ensures r != [] ==> r[0] !in chars
  {
    if |s| > 0 && s[0] in chars then
      var r := StripLeft(s[1..], chars);
      assert s[..|s| - |r|] == [s[0]] + s[1..][..|s| - 1 - |r|];
      r
    else
      s
  }

  /** Python's `s.rstrip(chars)`. */
  function StripRight(s: string, chars: set<char>): (r: string)
    ensures |r| <= |s| && r == s[..|r|]
    ensures AllIn(s[|r|..], chars)
    ensures r != [] ==> r[|r| - 1] !in chars
  {
    if |s| > 0 && s[|s| - 1] in chars then
      var r := StripRight(s[..|s| - 1], chars);
      assert s[|r|..] == s[..|s| - 1][|r|..] + [s[|s| - 1]];
      r
    else
      s
  }

  /** Python's `s.strip(chars)`; `Strip(s, Whitespace)` is `s.strip()`. */
  function Strip(s: string, chars: set<char>): (r: string)
    ensures exists i :: StrippedAt(s, r, chars, i)
    ensures r == [] <==> AllIn(s, chars)
  {
    var left := StripLeft(s, chars);
    var r := StripRight(left, chars);
    var i := |s| - |left|;
    assert r == [] ==> r == left[..0];
    assert s[i..i + |r|] == r;
    assert s[..i] == s[..|s| - |left|];
    assert s[i + |r|..] == left[|r|..];
    assert StrippedAt(s, r, chars, i);
    assert r == [] ==> AllIn(s, chars) by {
      if r == [] {
        assert s == s[..i] + left;
      }
    }
    r
  }

  /** When `s` starts with `i` characters of `chars` followed by one outside it, `lstrip` drops exactly those `i`. */
  lemma {:induction false} StripLeftLength(s: string, chars: set<char>, i: nat)
    requires i < |s| && AllIn(s[..i], chars) && s[i] !in chars
    ensures StripLeft(s, chars) == s[i..]
  {
    if i > 0 {
      assert s[..i][0] == s[0];
      var head := s[1..][..i - 1];
      assert AllIn(head, chars) by {
        forall k | 0 <= k < i - 1 ensures head[k] in chars {
          assert head[k] == s[..i][k + 1];
        }
      }
      StripLeftLength(s[1..], chars, i - 1);
      assert s[1..][i - 1..] == s[i..];
    }
  }

  /** When `s` ends with characters of `chars` from index `e` on and `s[e - 1]` is outside it, `rstrip` keeps exactly `s[..e]`. */
  lemma {:induction false} StripRightLength(s: string, chars: set<char>, e: nat)
    requires 0 < e <= |s| && AllIn(s[e..], chars) && s[e - 1] !in chars
    ensures StripRight(s, chars) == s[..e]
  {
    if e < |s| {
      var s' := s[..|s| - 1];
      assert s[e..][|s| - 1 - e] == s[|s| - 1];
      assert AllIn(s'[e..], chars) by {
        forall k | 0 <= k < |s'| - e ensures s'[e..][k] in chars {
          assert s'[e..][k] == s[e..][k];
        }
      }
      StripRightLength(s', chars, e);
      assert s'[..e] == s[..e];
    }
  }

  /** `s.strip(chars)` is the only stretch of `s` that `StrippedAt` admits. */
  lemma StripUnique(s: string, t: string, chars: set<char>, i: int)
    requires StrippedAt(s, t, chars, i)
    ensures Strip(s, chars) == t
  {
    if t == [] {
      assert AllIn(s, chars) by {
        forall k | 0 <= k < |s| ensures s[k] in chars {
          if k < i { assert s[..i][k] == s[k]; } else { assert s[i..][k - i] == s[k]; }
        }
      }
    } else {
      assert s[i] == t[0];
      StripLeftLength(s, chars, i);
      var left := s[i..];
      assert left[|t|..] == s[i + |t|..];
      assert left[|t| - 1] == t[|t| - 1];
      StripRightLength(left, chars, |t|);
      assert left[..|t|] == t;
    }
  }

  /** Python's `sep.join(pieces)`. */
  function Join(sep: string, pieces: seq<string>): (r: string)
    ensures |pieces| == 0 ==> r == ""
    ensures |pieces| > 0 ==> HasPrefix(pieces[0], r)
    ensures |pieces| > 0 ==> |r| == TotalLength(pieces) + (|pieces| - 1) * |sep|
  {
    if |pieces| == 0 then ""
    else if |pieces| == 1 then pieces[0]
    else pieces[0] + sep + Join(sep, pieces[1..])
  }

  /** The sum of the lengths of `pieces`. */
  function TotalLength(pieces: seq<string>): nat
  {
    if |pieces| == 0 then 0 else |pieces[0]| + TotalLength(pieces[1..])
  }

  /** Where `pieces[k]` starts in the join: after the pieces before it and one separator after each. */
  function PieceStart(sep: string, pieces: seq<string>, k: nat): nat
    requires k <= |pieces|
  {
    TotalLength(pieces[..k]) + k * |sep|
  }

  /** The join holds each piece at its start. */
  lemma {:induction false} JoinHoldsPieces(sep: string, pieces: seq<string>)
    ensures forall k :: 0 <= k < |pieces| ==> OccursAt(Join(sep, pieces), pieces[k], PieceStart(sep, pieces, k))
  {
    if |pieces| > 0 {
      var r := Join(sep, pieces);
      var head, tail := pieces[0], pieces[1..];
      if |pieces| > 1 { JoinHoldsPieces(sep, tail); }
      forall k | 0 <= k < |pieces| ensures OccursAt(r, pieces[k], PieceStart(sep, pieces, k)) {
        if k == 0 {
          assert pieces[..0] == [];
          assert r[0..|head|] == head;
        } else {
          PieceStartShift(sep, pieces, k);
          assert pieces[k] == tail[k - 1];
          OccursAfter(head + sep, Join(sep, tail), pieces[k], PieceStart(sep, tail, k - 1));
          assert r == (head + sep) + Join(sep, tail);
        }
      }
    }
  }

  /** ... and, between each piece and the next, one separator. */
  lemma {:induction false} JoinHoldsSeparators(sep: string, pieces: seq<string>)
    ensures forall k :: 0 <= k < |pieces| - 1 ==>
      OccursAt(Join(sep, pieces), sep, PieceStart(sep, pieces, k) + |pieces[k]|)
  {
    if |pieces| > 1 {
      var r := Join(sep, pieces);
      var head, tail := pieces[0], pieces[1..];
      JoinHoldsSeparators(sep, tail);
      forall k | 0 <= k < |pieces| - 1 ensures OccursAt(r, sep, PieceStart(sep, pieces, k) + |pieces[k]|) {
        if k == 0 {
          assert pieces[..0] == [];
          assert r[|head|..|head| + |sep|] == sep;
        } else {
          PieceStartShift(sep, pieces, k);
          assert pieces[k] == tail[k - 1];
          OccursAfter(head + sep, Join(sep, tail), sep, PieceStart(sep, tail, k - 1) + |tail[k - 1]|);
          assert r == (head + sep) + Join(sep, tail);
        }
      }
    }
  }

  lemma PieceStartShift(sep: string, pieces: seq<string>, k: nat)
    requires 1 <= k <= |pieces|
    ensures PieceStart(sep, pieces, k) == |pieces[0]| + |sep| + PieceStart(sep, pieces[1..], k - 1)
  {
    assert pieces[..k][0] == pieces[0];
    assert pieces[..k][1..] == pieces[1..][..k - 1];
  }

  /** An occurrence in `s` is one in `a + s`, `|a|` further on. */
  lemma OccursAfter(a: string, s: string, sub: string, j: int)
    requires OccursAt(s, sub, j)
    ensures OccursAt(a + s, sub, |a| + j)
  {
    assert (a + s)[|a| + j..|a| + j + |sub|] == s[j..j + |sub|];
  }

  function DigitChar(d: nat): (c: char)
    requires d < 10
    ensures '0' <= c <= '9'
    ensures c as int - '0' as int == d
  {
    ('0' as int + d) as char
  }

  /** Reference reading of a string of decimal digits: the number they denote, most significant first. */
  function DigitsValue(s: string): int
  {
    if |s| == 0 then 0 else 10 * DigitsValue(s[..|s| - 1]) + (s[|s| - 1] as int - '0' as int)
  }

  /** Python's `str(n)` for a non-negative integer. */
  function DecimalString(n: nat): (r: string)
    ensures |r| >= 1
    ensures forall k :: 0 <= k < |r| ==> '0' <= r[k] <= '9'
  {
    if n < 10 then [DigitChar(n)] else DecimalString(n / 10) + [DigitChar(n % 10)]
  }

  /** `str(n)` reads back as `n`, and has no leading zero. */
  lemma {:induction false} DecimalStringValue(n: nat)
    ensures DigitsValue(DecimalString(n)) == n
    ensures |DecimalString(n)| > 1 ==> DecimalString(n)[0] != '0'
  {
    var r := DecimalString(n);
    if n < 10 {
      assert r[..0] == [];
    } else {
      var high := DecimalString(n / 10);
      DecimalStringValue(n / 10);
      assert r[..|r| - 1] == high;
      assert r[0] == high[0];
    }
  }
}
