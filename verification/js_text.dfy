/**
 * The parts of ECMAScript string semantics the collector relies on: the
 * characters `\s` matches, the line terminators `.` refuses, what
 * `String.prototype.trim` removes, and the truthiness of optional strings
 * and numbers used by the `||` defaults.
 */
module JsText {
  import opened Optional

  /** WhiteSpace of section 12.2 of ECMA-262: TAB, VT, FF, SP, NBSP, ZWNBSP and the category Zs. */
  predicate IsWhiteSpace(c: char)
  {
    || c == '\t' || c == '\U{000B}' || c == '\U{000C}' || c == ' '
    || c == '\U{00A0}' || c == '\U{FEFF}' || c == '\U{1680}'
    || ('\U{2000}' <= c <= '\U{200A}')
    || c == '\U{202F}' || c == '\U{205F}' || c == '\U{3000}'
  }

  /** LineTerminator of section 12.3 of ECMA-262: LF, CR, LS and PS. */
  predicate IsLineTerminator(c: char)
  {
    c == '\n' || c == '\r' || c == '\U{2028}' || c == '\U{2029}'
  }

  /** The class `\s` of a regular expression, which is also what `trim` strips. */
  predicate IsSpace(c: char)
  {
    IsWhiteSpace(c) || IsLineTerminator(c)
  }

  predicate AllSpace(s: string)
  {
    forall i :: 0 <= i < |s| ==> IsSpace(s[i])
  }

  predicate NoLineTerminator(s: string)
  {
    forall i :: 0 <= i < |s| ==> !IsLineTerminator(s[i])
  }

  /** `t` sits inside `s` with nothing but space characters on either side. */
  ghost predicate SpacePadded(s: string, t: string)
  {
    exists a :: PaddedAt(s, t, a)
  }

  /** `t` starts at offset `a` of `s`, with only space characters before and after it. */
  predicate PaddedAt(s: string, t: string, a: int)
  {
    0 <= a && a + |t| <= |s| && s[a..a + |t|] == t && AllSpace(s[..a]) && AllSpace(s[a + |t|..])
  }

  /** A string that is empty or neither starts nor ends with a space character. */
  predicate Unpadded(t: string)
  {
    t == [] || (!IsSpace(t[0]) && !IsSpace(t[|t| - 1]))
  }

  /** Drops the maximal run of leading space characters. */
  function TrimStart(s: string): string
    decreases |s|
  {
    if |s| > 0 && IsSpace(s[0]) then TrimStart(s[1..]) else s
  }

  /** Drops the maximal run of trailing space characters. */
  function TrimEnd(s: string): string
    decreases |s|
  {
    if |s| > 0 && IsSpace(s[|s| - 1]) then TrimEnd(s[..|s| - 1]) else s
  }

  /** `String.prototype.trim`. */
  function Trim(s: string): string
  {
    TrimEnd(TrimStart(s))
  }

  /** Leading trim removes a run of space characters and stops at a non-space character. */
  lemma {:induction false} TrimStartSpec(s: string)
    ensures |TrimStart(s)| <= |s| && TrimStart(s) == s[|s| - |TrimStart(s)|..]
    ensures AllSpace(s[..|s| - |TrimStart(s)|])
    ensures TrimStart(s) == [] || !IsSpace(TrimStart(s)[0])
    decreases |s|
  {
    if |s| > 0 && IsSpace(s[0]) {
      TrimStartSpec(s[1..]);
      var t := TrimStart(s[1..]);
      var k := |s| - |t|;
      assert s[1..][|s| - 1 - |t|..] == s[k..];
      forall i | 0 <= i < k ensures IsSpace(s[..k][i]) {
        if i > 0 {
          assert s[..k][i] == s[1..][..k - 1][i - 1];
        }
      }
    }
  }

  /** Trailing trim removes a run of space characters and stops after a non-space character. */
  lemma {:induction false} TrimEndSpec(s: string)
    ensures |TrimEnd(s)| <= |s| && TrimEnd(s) == s[..|TrimEnd(s)|]
    ensures AllSpace(s[|TrimEnd(s)|..])
    ensures TrimEnd(s) == [] || !IsSpace(TrimEnd(s)[|TrimEnd(s)| - 1])
    decreases |s|
  {
    if |s| > 0 && IsSpace(s[|s| - 1]) {
      var w := s[..|s| - 1];
      TrimEndSpec(w);
      var t := TrimEnd(w);
      var m := |t|;
      assert w[..m] == s[..m];
      forall i | 0 <= i < |s| - m ensures IsSpace(s[m..][i]) {
        if i < |s| - 1 - m {
          assert s[m..][i] == w[m..][i];
        }
      }
    }
  }

  /** `trim` leaves a string found in the input between two runs of space characters. */
  lemma TrimIsPadded(s: string)
    ensures PaddedAt(s, Trim(s), |s| - |TrimStart(s)|)
    ensures SpacePadded(s, Trim(s))
  {
    var u := TrimStart(s);
    var t := Trim(s);
    var a := |s| - |u|;
    TrimStartSpec(s);
    TrimEndSpec(u);
    assert u == s[a..] && t == u[..|t|];
    TakeOfDrop(s, a, |t|);
    assert s[a..a + |t|] == t;
    assert s[a + |t|..] == u[|t|..];
    assert PaddedAt(s, t, a);
  }

  /** `trim` leaves no space character at either end. */
  lemma TrimIsUnpadded(s: string)
    ensures Unpadded(Trim(s))
  {
    var u := TrimStart(s);
    var t := Trim(s);
    TrimStartSpec(s);
    TrimEndSpec(u);
    if t != [] {
      assert t[0] == u[0];
    }
  }

  /** A prefix of a suffix is a slice. */
  lemma TakeOfDrop<T>(s: seq<T>, a: nat, n: nat)
    requires a + n <= |s|
    ensures s[a..][..n] == s[a..a + n]
  {
  }

  /** Leading trim of a string made only of space characters leaves nothing. */
  lemma {:induction false} TrimStartAllSpace(s: string)
    requires AllSpace(s)
    ensures TrimStart(s) == []
    decreases |s|
  {
    if |s| > 0 {
      assert IsSpace(s[0]);
      assert AllSpace(s[1..]) by {
        forall i | 0 <= i < |s| - 1 ensures IsSpace(s[1..][i]) {
          assert s[1..][i] == s[i + 1];
        }
      }
      TrimStartAllSpace(s[1..]);
    }
  }

  /** Leading trim stops exactly at the first non-space character. */
  lemma {:induction false} TrimStartStopsAt(s: string, a: nat)
    requires a < |s| && AllSpace(s[..a]) && !IsSpace(s[a])
    ensures TrimStart(s) == s[a..]
    decreases a
  {
    if a > 0 {
      assert IsSpace(s[..a][0]);
      assert s[1..][..a - 1] == s[..a][1..];
      TrimStartStopsAt(s[1..], a - 1);
      assert s[1..][a - 1..] == s[a..];
    }
  }

  /** Trailing trim stops exactly after the last non-space character. */
  lemma {:induction false} TrimEndStopsAt(u: string, m: nat)
    requires 0 < m <= |u| && !IsSpace(u[m - 1]) && AllSpace(u[m..])
    ensures TrimEnd(u) == u[..m]
    decreases |u| - m
  {
    if m < |u| {
      assert IsSpace(u[m..][|u| - 1 - m]);
      var w := u[..|u| - 1];
      assert w[m..] == u[m..][..|u| - 1 - m];
      TrimEndStopsAt(w, m);
      assert w[..m] == u[..m];
    }
  }

  /**
   * The result of `trim` is determined by the padding property: any unpadded
   * `t` found inside `s` between space characters is `Trim(s)`.
   */
  lemma TrimUnique(s: string, t: string)
    requires SpacePadded(s, t) && Unpadded(t)
    ensures Trim(s) == t
  {
    var a :| PaddedAt(s, t, a);
    if t == [] {
      assert s == s[..a] + s[a..];
      assert AllSpace(s) by {
        forall i | 0 <= i < |s| ensures IsSpace(s[i]) {
          if i < a { assert s[i] == s[..a][i]; } else { assert s[i] == s[a..][i - a]; }
        }
      }
      TrimStartAllSpace(s);
    } else {
      assert s[a] == t[0];
      TrimStartStopsAt(s, a);
      var u := s[a..];
      assert u[..|t|] == t;
      assert u[|t|..] == s[a + |t|..];
      TrimEndStopsAt(u, |t|);
    }
  }

  /** JavaScript truthiness of a possibly undefined string: defined and non-empty. */
  predicate IsTruthyString(v: Option<string>)
  {
    v.Some? && v.value != ""
  }

  /** JavaScript truthiness of a possibly undefined number: defined and non-zero (NaN is not modelled). */
  predicate IsTruthyInt(v: Option<int>)
  {
    v.Some? && v.value != 0
  }
}
