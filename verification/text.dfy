/**
 Strings and the whitespace trimming that the search box applies to its
 contents before anything else looks at them (`cityInput.value.trim()`).
 */
module Text {

  /** The characters String.prototype.trim removes: the WhiteSpace and
      LineTerminator code points of the ECMAScript language specification
      (sections 12.2 and 12.3), the Unicode "Zs" category included.
      None of the proofs below depends on which characters these are. */
  predicate IsWhitespace(c: char)
  {
    || c == '\t' || c == '\n' || c == '\U{B}' || c == '\U{C}' || c == '\r'
    || c == ' ' || c == '\U{A0}' || c == '\U{1680}'
    || ('\U{2000}' <= c <= '\U{200A}')
    || c == '\U{2028}' || c == '\U{2029}' || c == '\U{202F}' || c == '\U{205F}'
    || c == '\U{3000}' || c == '\U{FEFF}'
  }

  /** Every character of `s` is whitespace (vacuously so for the empty string). */
  predicate AllWhitespace(s: string)
  {
    forall i :: 0 <= i < |s| ==> IsWhitespace(s[i])
  }

  /** Neither end of `s` is whitespace: the shape of a trimmed string. */
  predicate Trimmed(s: string)
  {
    s == [] || (!IsWhitespace(s[0]) && !IsWhitespace(s[|s| - 1]))
  }

  /** Drops the leading whitespace of `s`. */
  function TrimStart(s: string): (r: string)
    ensures |r| <= |s| && r == s[|s| - |r|..]
    ensures forall i :: 0 <= i < |s| - |r| ==> IsWhitespace(s[i])
    ensures r == [] || !IsWhitespace(r[0])
    decreases |s|
  {
    if |s| > 0 && IsWhitespace(s[0]) then TrimStart(s[1..]) else s
  }

  /** Drops the trailing whitespace of `s`. */
  function TrimEnd(s: string): (r: string)
    ensures |r| <= |s| && r == s[..|r|]
    ensures forall i :: |r| <= i < |s| ==> IsWhitespace(s[i])
    ensures r == [] || !IsWhitespace(r[|r| - 1])
    decreases |s|
  {
    if |s| > 0 && IsWhitespace(s[|s| - 1]) then TrimEnd(s[..|s| - 1]) else s
  }

  /** String.prototype.trim: the longest slice of `s` whose ends are not
      whitespace, everything cut off on either side being whitespace. */
  function Trim(s: string): (r: string)
    ensures Trimmed(r)
    ensures var lo := |s| - |TrimStart(s)|;
      && lo + |r| <= |s|
      && r == s[lo..lo + |r|]
      && (forall i :: 0 <= i < lo ==> IsWhitespace(s[i]))
      && (forall i :: lo + |r| <= i < |s| ==> IsWhitespace(s[i]))
  {
    var st := TrimStart(s);
    var r := TrimEnd(st);
    SliceOfSuffix(s, st, r);
    r
  }

  /** A prefix `r` of a suffix `st` of `s` is the slice of `s` that starts
      where `st` does. */
  lemma SliceOfSuffix(s: string, st: string, r: string)
    requires |st| <= |s| && st == s[|s| - |st|..]
    requires |r| <= |st| && r == st[..|r|]
    ensures var lo := |s| - |st|; r == s[lo..lo + |r|]
    ensures forall i :: |s| - |st| <= i < |s| ==> s[i] == st[i - (|s| - |st|)]
  {
  }

  /** Trimming yields the empty string exactly when the input is all
      whitespace, the empty input included. */
  lemma TrimEmptyIff(s: string)
    ensures Trim(s) == [] <==> AllWhitespace(s)
  {
    var lo := |s| - |TrimStart(s)|;
    if Trim(s) == [] {
      forall i | 0 <= i < |s|
        ensures IsWhitespace(s[i])
      {
        if i < lo {
          assert s[..lo][i] == s[i];
        } else {
          assert s[lo..][i - lo] == s[i];
        }
      }
    } else {
      assert !IsWhitespace(s[lo]);
    }
  }

  /** TrimStart removes exactly a whitespace prefix in front of a string
      that does not itself start with whitespace. */
  lemma TrimStartPadding(lead: string, u: string)
    requires AllWhitespace(lead)
    requires u == [] || !IsWhitespace(u[0])
    ensures TrimStart(lead + u) == u
  {
    var s := lead + u;
    var lo := |s| - |TrimStart(s)|;
    assert forall i :: 0 <= i < |lead| ==> s[i] == lead[i];
    if u != [] {
      assert s[|lead|] == u[0];
    }
    assert lo == |lead|;
  }

  /** TrimEnd removes exactly a whitespace suffix behind a string that does
      not itself end with whitespace. */
  lemma TrimEndPadding(u: string, trail: string)
    requires AllWhitespace(trail)
    requires u == [] || !IsWhitespace(u[|u| - 1])
    ensures TrimEnd(u + trail) == u
  {
    var s := u + trail;
    var r := TrimEnd(s);
    assert forall i :: |u| <= i < |s| ==> s[i] == trail[i - |u|];
    if u != [] {
      assert s[|u| - 1] == u[|u| - 1];
    }
    assert |r| == |u|;
    assert r == s[..|u|] == u;
  }

  /** Trim removes exactly the whitespace padding around an already
      trimmed string: `t` is recovered from `lead + t + trail`. */
  lemma TrimStripsPadding(lead: string, t: string, trail: string)
    requires AllWhitespace(lead) && AllWhitespace(trail) && Trimmed(t)
    ensures Trim(lead + t + trail) == t
  {
    if t == [] {
      var s := lead + t + trail;
      assert AllWhitespace(s) by {
        forall i | 0 <= i < |s|
          ensures IsWhitespace(s[i])
        {
          if i < |lead| { assert s[i] == lead[i]; } else { assert s[i] == trail[i - |lead|]; }
        }
      }
      TrimEmptyIff(s);
    } else {
      assert lead + t + trail == lead + (t + trail);
      assert (t + trail)[0] == t[0];
      TrimStartPadding(lead, t + trail);
      TrimEndPadding(t, trail);
    }
  }

  /** Trimming twice is trimming once. */
  lemma TrimIdempotent(s: string)
    ensures Trim(Trim(s)) == Trim(s)
  {
    var t := Trim(s);
    TrimStripsPadding([], t, []);
    assert [] + t + [] == t;
  }
}
