/**
 * String helpers used by the request handlers: JavaScript's `String.prototype.trim`
 * and `String.prototype.toLowerCase`, restricted to ASCII. Whitespace is the six
 * ASCII characters trim removes (space, tab, line feed, vertical tab, form feed,
 * carriage return); lower-casing maps 'A'..'Z' to 'a'..'z' and leaves the rest.
 */
module Text {

  predicate IsSpace(c: char) {
    c == ' ' || c == '\t' || c == '\n' || c == '\U{000B}' || c == '\U{000C}' || c == '\r'
  }

  /** Every character of `s` is whitespace (vacuously true of the empty string). */
  predicate AllSpace(s: string) {
    forall i :: 0 <= i < |s| ==> IsSpace(s[i])
  }

  /** `s` neither starts nor ends with whitespace. */
  predicate NoSpaceEnds(s: string) {
    s == [] || (!IsSpace(s[0]) && !IsSpace(s[|s| - 1]))
  }

  /** `s` holds no upper-case ASCII letter. */
  predicate NoUpper(s: string) {
    s == [] || (!('A' <= s[0] <= 'Z') && NoUpper(s[1..]))
  }

  /** `s` without its leading whitespace: a suffix of `s` whose dropped prefix is all whitespace. */
  function TrimStart(s: string): (r: string)
    ensures |r| <= |s| && r == s[|s| - |r|..]
    ensures AllSpace(s[..|s| - |r|])
    ensures r == [] || !IsSpace(r[0])
  {
    if s != [] && IsSpace(s[0]) then TrimStart(s[1..]) else s
  }

  /** `s` without its trailing whitespace: a prefix of `s` whose dropped suffix is all whitespace. */
  function TrimEnd(s: string): (r: string)
    ensures |r| <= |s| && r == s[..|r|]
    ensures AllSpace(s[|r|..])
    ensures r == [] || !IsSpace(r[|r| - 1])
  {
    if s != [] && IsSpace(s[|s| - 1]) then TrimEnd(s[..|s| - 1]) else s
  }

  /**
   * `s.trim()`: the result neither starts nor ends with whitespace, and it is empty
   * exactly when `s` is all whitespace. TrimCutsWhitespace shows it is `s` with only
   * whitespace cut from either end.
   */
  function Trim(s: string): (r: string)
    ensures |r| <= |s|
    ensures r == [] || (!IsSpace(r[0]) && !IsSpace(r[|r| - 1]))
    ensures r == [] <==> AllSpace(s)
  {
    var t := TrimStart(s);
    var r := TrimEnd(t);
    assert r == [] ==> s == s[..|s| - |t|] + t[..|r|] + t[|r|..];
    r
  }

  /** `s.trim()` is the piece of `s` at offset `i` left after cutting only whitespace from either end. */
  lemma TrimCutsWhitespace(s: string) returns (i: nat)
    ensures var r := Trim(s);
      i + |r| <= |s| && r == s[i..i + |r|] && AllSpace(s[..i]) && AllSpace(s[i + |r|..])
  {
    var t := TrimStart(s);
    var r := TrimEnd(t);
    i := |s| - |t|;
    assert s[i..i + |r|] == r;
    assert s[i + |r|..] == t[|r|..];
  }

  /** The lower-case form of one character: only 'A'..'Z' move, and nothing upper-case remains. */
  function Lower(c: char): (d: char)
    ensures 'A' <= c <= 'Z' ==> d as int == c as int + 32
    ensures !('A' <= c <= 'Z') ==> d == c
    ensures !('A' <= d <= 'Z')
    ensures IsSpace(d) <==> IsSpace(c)
  {
    if 'A' <= c <= 'Z' then (c as int + 32) as char else c
  }

  /** `s.toLowerCase()` on ASCII letters: each character lowered in place. */
  function ToLower(s: string): (r: string)
    ensures |r| == |s|
  {
    seq(|s|, i requires 0 <= i < |s| => Lower(s[i]))
  }

  /**
   * What `toLowerCase` does to each character: every 'A'..'Z' moves to its lower-case
   * letter and every other character is kept.
   */
  lemma ToLowerChars(s: string)
    ensures var r := ToLower(s);
      && (forall i :: 0 <= i < |s| && 'A' <= s[i] <= 'Z' ==> r[i] as int == s[i] as int + 32)
      && (forall i :: 0 <= i < |s| && !('A' <= s[i] <= 'Z') ==> r[i] == s[i])
  {
  }

  /** `toLowerCase` leaves no upper-case letter. */
  lemma {:induction false} ToLowerHasNoUpper(s: string)
    ensures NoUpper(ToLower(s))
  {
    if s != [] {
      var r := ToLower(s);
      assert r[0] == Lower(s[0]);
      assert r[1..] == ToLower(s[1..]);
      ToLowerHasNoUpper(s[1..]);
    }
  }

  /** Lower-casing keeps whitespace off both ends of a string that had none there. */
  lemma ToLowerSpaceEnds(s: string)
    requires NoSpaceEnds(s)
    ensures NoSpaceEnds(ToLower(s))
  {
    var r := ToLower(s);
    if r != [] {
      assert r[0] == Lower(s[0]) && r[|r| - 1] == Lower(s[|s| - 1]);
    }
  }

  /** Trimming a trimmed string changes nothing. */
  lemma TrimIdempotent(s: string)
    ensures Trim(Trim(s)) == Trim(s)
  {
    var r := Trim(s);
    TrimNoSpaceEnds(r);
  }

  /** A string that neither starts nor ends with whitespace is its own trim. */
  lemma TrimNoSpaceEnds(s: string)
    requires NoSpaceEnds(s)
    ensures Trim(s) == s
  {
    assert TrimStart(s) == s;
    assert TrimEnd(s) == s;
  }

  /** The strings `trim` leaves unchanged are exactly those with no whitespace at either end. */
  lemma TrimFixpoint(s: string)
    ensures Trim(s) == s <==> NoSpaceEnds(s)
  {
    if NoSpaceEnds(s) {
      TrimNoSpaceEnds(s);
    }
  }

  /** Leading whitespace added in front of a string is removed by TrimStart. */
  lemma {:induction false} TrimStartPadded(pre: string, s: string)
    requires AllSpace(pre)
    ensures TrimStart(pre + s) == TrimStart(s)
  {
    if pre != [] {
      assert IsSpace((pre + s)[0]);
      assert (pre + s)[1..] == pre[1..] + s;
      assert AllSpace(pre[1..]) by {
        forall i | 0 <= i < |pre| - 1 ensures IsSpace(pre[1..][i]) { assert pre[1..][i] == pre[i + 1]; }
      }
      TrimStartPadded(pre[1..], s);
    } else {
      assert pre + s == s;
    }
  }

  /** Trailing whitespace added after a string is removed by TrimEnd. */
  lemma {:induction false} TrimEndPadded(s: string, post: string)
    requires AllSpace(post)
    ensures TrimEnd(s + post) == TrimEnd(s)
  {
    if post != [] {
      var p := post[..|post| - 1];
      assert IsSpace((s + post)[|s + post| - 1]);
      assert (s + post)[..|s + post| - 1] == s + p;
      assert AllSpace(p) by {
        forall i | 0 <= i < |p| ensures IsSpace(p[i]) { assert p[i] == post[i]; }
      }
      TrimEndPadded(s, p);
    } else {
      assert s + post == s;
    }
  }

  /** Surrounding whitespace never changes what `trim` returns. */
  lemma TrimPadded(pre: string, s: string, post: string)
    requires AllSpace(pre) && AllSpace(post)
    ensures Trim(pre + s + post) == Trim(s)
  {
    var whole := pre + s + post;
    if AllSpace(s) {
      assert AllSpace(whole) by {
        forall i | 0 <= i < |whole| ensures IsSpace(whole[i]) {
          if i < |pre| { assert whole[i] == pre[i]; }
          else if i < |pre| + |s| { assert whole[i] == s[i - |pre|]; }
          else { assert whole[i] == post[i - |pre| - |s|]; }
        }
      }
    } else {
      TrimStartPadded(pre, s + post);
      assert whole == pre + (s + post);
      TrimStartAppend(s, post);
      TrimEndPadded(TrimStart(s), post);
    }
  }

  /** Whitespace added at the end survives TrimStart when `s` is not all whitespace. */
  lemma {:induction false} TrimStartAppend(s: string, post: string)
    requires !AllSpace(s) && AllSpace(post)
    ensures TrimStart(s + post) == TrimStart(s) + post
  {
    assert (s + post)[0] == s[0];
    if IsSpace(s[0]) {
      assert (s + post)[1..] == s[1..] + post;
      assert !AllSpace(s[1..]) by {
        var i :| 0 <= i < |s| && !IsSpace(s[i]);
        assert s[1..][i - 1] == s[i];
      }
      TrimStartAppend(s[1..], post);
    }
  }

  /** A string with no upper-case letter is its own lower-case form. */
  lemma {:induction false} ToLowerNoUpper(s: string)
    requires NoUpper(s)
    ensures ToLower(s) == s
  {
    if s != [] {
      var r := ToLower(s);
      assert r[0] == Lower(s[0]);
      assert r[1..] == ToLower(s[1..]);
      ToLowerNoUpper(s[1..]);
      assert r == [r[0]] + r[1..];
    }
  }

  /** Lower-casing twice is lower-casing once. */
  lemma ToLowerIdempotent(s: string)
    ensures ToLower(ToLower(s)) == ToLower(s)
  {
  }

  /** Leading whitespace is the same before and after lower-casing. */
  lemma {:induction false} TrimStartToLower(s: string)
    ensures TrimStart(ToLower(s)) == ToLower(TrimStart(s))
  {
    var l := ToLower(s);
    if s != [] {
      assert l[0] == Lower(s[0]);
      if IsSpace(s[0]) {
        assert l[1..] == ToLower(s[1..]);
        TrimStartToLower(s[1..]);
        assert TrimStart(l) == TrimStart(l[1..]);
      } else {
        assert TrimStart(l) == l;
      }
    }
  }

  /** Trailing whitespace is the same before and after lower-casing. */
  lemma {:induction false} TrimEndToLower(s: string)
    ensures TrimEnd(ToLower(s)) == ToLower(TrimEnd(s))
  {
    var l := ToLower(s);
    if s != [] {
      assert l[|l| - 1] == Lower(s[|s| - 1]);
      if IsSpace(s[|s| - 1]) {
        var p := s[..|s| - 1];
        assert l[..|l| - 1] == ToLower(p);
        TrimEndToLower(p);
        assert TrimEnd(l) == TrimEnd(l[..|l| - 1]);
      } else {
        assert TrimEnd(l) == l;
      }
    }
  }

  /** Trimming and lower-casing commute, because lower-casing preserves whitespace. */
  lemma TrimToLowerCommute(s: string)
    ensures Trim(ToLower(s)) == ToLower(Trim(s))
  {
    TrimStartToLower(s);
    TrimEndToLower(TrimStart(s));
  }
}
