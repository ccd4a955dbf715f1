/** The two String extensions of TrackerBlockingMVP/Common/Extension/String.swift.
    Both are built on Foundation's `replacingOccurrences(of:with:)` with an empty
    replacement, modelled here by RemoveAll. */
module Strings {

  /** `pat` starts at index `i` of `s`. */
  predicate OccursAt(s: string, pat: string, i: int) {
    0 <= i && i + |pat| <= |s| && s[i..i + |pat|] == pat
  }

  predicate Contains(s: string, pat: string) {
    exists i | 0 <= i <= |s| :: OccursAt(s, pat, i)
  }

  /** `s.replacingOccurrences(of: pat, with: "")`: scans left to right and deletes
      each occurrence of `pat`, resuming after the deleted text, so occurrences never
      overlap and text that only becomes an occurrence after a deletion stays. */
  function RemoveAll(s: string, pat: string): (r: string)
    requires pat != ""
    ensures |r| <= |s|
    decreases |s|
  {
    if |s| < |pat| then s
    else if s[..|pat|] == pat then RemoveAll(s[|pat|..], pat)
    else [s[0]] + RemoveAll(s[1..], pat)
  }

  /** `removeWeakIndicator()`: every "W/" goes, quotes stay. */
  function RemoveWeakIndicator(s: string): (r: string)
    ensures |r| <= |s|
  {
    RemoveAll(s, "W/")
  }

  /** `cleanETag()`: first every `W/"`, then every remaining `"`. */
  function CleanETag(s: string): (r: string)
    ensures |r| <= |s|
  {
    RemoveAll(RemoveAll(s, "W/\""), "\"")
  }

  // ---------------------------------------------------------------------------
  // Properties of RemoveAll

  /** An occurrence in the tail is an occurrence in the whole string. */
  lemma OccursInTail(s: string, pat: string, i: int)
    requires |s| > 0 && OccursAt(s[1..], pat, i)
    ensures OccursAt(s, pat, i + 1)
  {
    assert s[1..][i..i + |pat|] == s[i + 1..i + 1 + |pat|];
  }

  /** Without an occurrence of `pat`, RemoveAll changes nothing. */
  lemma {:induction false} RemoveAllAbsent(s: string, pat: string)
    requires pat != "" && !Contains(s, pat)
    ensures RemoveAll(s, pat) == s
    decreases |s|
  {
    if |s| >= |pat| {
      assert !OccursAt(s, pat, 0);
      assert s[..|pat|] != pat;
      forall i | OccursAt(s[1..], pat, i) ensures false {
        OccursInTail(s, pat, i);
      }
      RemoveAllAbsent(s[1..], pat);
      assert s == [s[0]] + s[1..];
    }
  }

  /** With an occurrence of `pat`, RemoveAll makes the string strictly shorter. */
  lemma {:induction false} RemoveAllShortens(s: string, pat: string, i: int)
    requires pat != "" && OccursAt(s, pat, i)
    ensures |RemoveAll(s, pat)| < |s|
    decreases |s|
  {
    if s[..|pat|] != pat {
      assert i != 0;
      assert s[1..][i - 1..i - 1 + |pat|] == s[i..i + |pat|];
      RemoveAllShortens(s[1..], pat, i - 1);
    }
  }

  /** A character that is not part of `pat` is never deleted: its count is kept. */
  lemma {:induction false} RemoveAllKeeps(s: string, pat: string, c: char)
    requires pat != "" && c !in pat
    ensures multiset(RemoveAll(s, pat))[c] == multiset(s)[c]
    decreases |s|
  {
    if |s| >= |pat| {
      if s[..|pat|] == pat {
        RemoveAllKeeps(s[|pat|..], pat, c);
        assert s == s[..|pat|] + s[|pat|..];
        assert multiset(s) == multiset(pat) + multiset(s[|pat|..]);
      } else {
        RemoveAllKeeps(s[1..], pat, c);
        assert s == [s[0]] + s[1..];
      }
    }
  }

  /** Deleting a one-character pattern deletes every copy of that character. */
  lemma {:induction false} RemoveAllErases(s: string, c: char)
    ensures c !in RemoveAll(s, [c])
    decreases |s|
  {
    if |s| >= 1 {
      RemoveAllErases(s[1..], c);
    }
  }

  /** A leading occurrence of `pat` is deleted and the scan resumes after it. */
  lemma RemoveAllLeading(pat: string, rest: string)
    requires pat != ""
    ensures RemoveAll(pat + rest, pat) == RemoveAll(rest, pat)
  {
    var s := pat + rest;
    assert s[..|pat|] == pat && s[|pat|..] == rest;
  }

  /** Each character of an occurrence of `pat` is a character of the string. */
  lemma ContainedCharsOccur(s: string, pat: string, c: char)
    requires Contains(s, pat) && c in pat
    ensures c in s
  {
    var i: int :| 0 <= i <= |s| && OccursAt(s, pat, i);
    var k: int :| 0 <= k < |pat| && pat[k] == c;
    assert s[i..i + |pat|][k] == c;
    assert s[i + k] == c;
  }

  // ---------------------------------------------------------------------------
  // Properties of removeWeakIndicator and cleanETag

  /** removeWeakIndicator is the identity on strings without "W/". */
  lemma RemoveWeakIndicatorIdentity(s: string)
    requires !Contains(s, "W/")
    ensures RemoveWeakIndicator(s) == s
  {
    RemoveAllAbsent(s, "W/");
  }

  /** removeWeakIndicator shortens exactly the strings that hold "W/", and it keeps
      every quote and every character other than 'W' and '/'. */
  lemma RemoveWeakIndicatorEffect(s: string, c: char)
    requires c != 'W' && c != '/'
    ensures |RemoveWeakIndicator(s)| < |s| <==> Contains(s, "W/")
    ensures multiset(RemoveWeakIndicator(s))[c] == multiset(s)[c]
  {
    if Contains(s, "W/") {
      var i :| OccursAt(s, "W/", i);
      RemoveAllShortens(s, "W/", i);
    } else {
      RemoveAllAbsent(s, "W/");
    }
    RemoveAllKeeps(s, "W/", c);
  }

  /** removeWeakIndicator turns a weak entity tag into the strong one: the quotes
      stay, so the stored tag is `"x"`, not `x`. */
  lemma {:induction false} RemoveWeakIndicatorKeepsQuotes(x: string)
    requires !Contains(x, "W/")
    ensures RemoveWeakIndicator("W/\"" + x + "\"") == "\"" + x + "\""
  {
    var t := "\"" + x + "\"";
    assert "W/\"" + x + "\"" == "W/" + t;
    RemoveAllLeading("W/", t);
    assert t[0] == '"' && t[|t| - 1] == '"';
    forall i | 0 <= i <= |t| ensures !OccursAt(t, "W/", i) {
      if i + 2 <= |t| {
        if i == 0 {
          assert t[i..i + 2][0] == t[0];
        } else if i + 2 == |t| {
          assert t[i..i + 2][1] == t[|t| - 1];
        } else {
          assert t[i..i + 2] == x[i - 1..i + 1];
          assert !OccursAt(x, "W/", i - 1);
        }
      }
    }
    RemoveAllAbsent(t, "W/");
  }

  /** removeWeakIndicator is not idempotent: a deletion can join an occurrence. */
  lemma RemoveWeakIndicatorJoins()
    ensures RemoveWeakIndicator("WW//") == "W/"
    ensures RemoveWeakIndicator(RemoveWeakIndicator("WW//")) == ""
  {
    assert "WW//"[..2][1] != "W/"[1];
    assert "WW//"[1..] == "W//";
    assert "W//"[..2] == "W/";
    assert "W//"[2..] == "/";
    assert "W/"[..2] == "W/";
    assert "W/"[2..] == "";
  }

  /** The output of cleanETag never holds a quote. */
  lemma CleanETagUnquoted(s: string)
    ensures '"' !in CleanETag(s)
  {
    RemoveAllErases(RemoveAll(s, "W/\""), '"');
  }

  /** cleanETag is idempotent. */
  lemma CleanETagIdempotent(s: string)
    ensures CleanETag(CleanETag(s)) == CleanETag(s)
  {
    var t := CleanETag(s);
    CleanETagUnquoted(s);
    if Contains(t, "W/\"") {
      ContainedCharsOccur(t, "W/\"", '"');
    }
    RemoveAllAbsent(t, "W/\"");
    if Contains(t, "\"") {
      ContainedCharsOccur(t, "\"", '"');
    }
    RemoveAllAbsent(t, "\"");
  }

  /** `x` ends with "W/". */
  predicate EndsWithWeak(x: string) {
    |x| >= 2 && x[|x| - 2..] == "W/"
  }

  /** Deleting quotes from a quote-free text followed by one quote gives the text. */
  lemma {:induction false} DropClosingQuote(x: string)
    requires '"' !in x
    ensures RemoveAll(x + "\"", "\"") == x
    decreases |x|
  {
    if x != [] {
      assert (x + "\"")[..1] != "\"";
      assert (x + "\"")[1..] == x[1..] + "\"";
      DropClosingQuote(x[1..]);
      assert x == [x[0]] + x[1..];
    }
  }

  /** In `x` followed by a quote, `W/"` can only sit at the very end, after "W/". */
  lemma NoWeakOpenerBefore(x: string)
    requires '"' !in x && !EndsWithWeak(x)
    ensures !Contains(x + "\"", "W/\"")
  {
    var t := x + "\"";
    forall i | 0 <= i <= |t| ensures !OccursAt(t, "W/\"", i) {
      if i + 3 <= |t| {
        if i + 2 < |x| {
          assert t[i + 2] == x[i + 2];
          assert t[i..i + 3][2] != '"';
        } else {
          assert x[|x| - 2..] == t[i..i + 2];
          assert t[i..i + 3][..2] == t[i..i + 2];
        }
      }
    }
  }

  /** The first pass of cleanETag on a weak tag deletes only its leading `W/"`. */
  lemma WeakOpenerRemoved(x: string)
    requires '"' !in x && !EndsWithWeak(x)
    ensures RemoveAll("W/\"" + x + "\"", "W/\"") == x + "\""
  {
    assert "W/\"" + x + "\"" == "W/\"" + (x + "\"");
    RemoveAllLeading("W/\"", x + "\"");
    NoWeakOpenerBefore(x);
    RemoveAllAbsent(x + "\"", "W/\"");
  }

  /** The first pass of cleanETag leaves a strong tag as it is. */
  lemma StrongTagKept(x: string)
    requires '"' !in x && !EndsWithWeak(x)
    ensures RemoveAll("\"" + x + "\"", "W/\"") == "\"" + x + "\""
  {
    NoWeakOpenerBefore(x);
    var strong := "\"" + x + "\"";
    assert strong[0] == '"';
    assert strong[1..] == x + "\"";
    forall i | 0 <= i <= |strong| ensures !OccursAt(strong, "W/\"", i) {
      if i == 0 && 3 <= |strong| {
        assert strong[0..3][0] == strong[0];
      } else if 0 < i && i + 3 <= |strong| {
        assert strong[1..][i - 1..i - 1 + 3] == strong[i..i + 3];
        assert !OccursAt(x + "\"", "W/\"", i - 1);
      }
    }
    RemoveAllAbsent(strong, "W/\"");
  }

  /** cleanETag unwraps a strong or weak entity tag whose value has no quote and
      does not end with "W/". */
  lemma CleanETagUnwraps(x: string)
    requires '"' !in x && !EndsWithWeak(x)
    ensures CleanETag("W/\"" + x + "\"") == x
    ensures CleanETag("\"" + x + "\"") == x
  {
    WeakOpenerRemoved(x);
    DropClosingQuote(x);
    StrongTagKept(x);
    assert "\"" + x + "\"" == "\"" + (x + "\"");
    RemoveAllLeading("\"", x + "\"");
  }

  /** As written, cleanETag also deletes a "W/" that ends the tag's value. */
  lemma CleanETagDropsTrailingWeak()
    ensures CleanETag("W/\"abW/\"") == "ab"
    ensures CleanETag("W/\"abW/\"") != "abW/"
  {
    var s := "W/\"abW/\"";
    assert s[..3] == "W/\"" && s[3..] == "abW/\"";
    var t := "abW/\"";
    assert t[..3] != "W/\"" && t[1..] == "bW/\"";
    assert t[1..][..3] != "W/\"" && t[1..][1..] == "W/\"";
    assert "W/\""[..3] == "W/\"" && "W/\""[3..] == "";
    assert RemoveAll(s, "W/\"") == "ab";
    assert "ab"[..1] != "\"" && "ab"[1..] == "b";
    assert "b"[..1] != "\"" && "b"[1..] == "";
  }

  /** The evidently intended cleanETag: only a leading `W/"` is the weak indicator,
      after which every quote is deleted. */
  function CleanETagIntended(s: string): (r: string)
    ensures |r| <= |s|
  {
    RemoveAll(if |s| >= 3 && s[..3] == "W/\"" then s[3..] else s, "\"")
  }

  /** The intended cleanETag unwraps every quote-free tag value, has quote-free
      output, and is idempotent. */
  lemma CleanETagIntendedUnwraps(x: string)
    requires '"' !in x
    ensures CleanETagIntended("W/\"" + x + "\"") == x
    ensures CleanETagIntended("\"" + x + "\"") == x
  {
    var weak := "W/\"" + x + "\"";
    assert weak[..3] == "W/\"" && weak[3..] == x + "\"";
    DropClosingQuote(x);
    var strong := "\"" + x + "\"";
    assert strong[..1] == "\"" && strong[1..] == x + "\"";
    assert |strong| >= 3 ==> strong[..3][0] == '"';
  }

  lemma CleanETagIntendedIdempotent(s: string)
    ensures '"' !in CleanETagIntended(s)
    ensures CleanETagIntended(CleanETagIntended(s)) == CleanETagIntended(s)
  {
    var t := CleanETagIntended(s);
    RemoveAllErases(if |s| >= 3 && s[..3] == "W/\"" then s[3..] else s, '"');
    assert |t| >= 3 ==> t[..3][2] == t[2] != '"';
    if Contains(t, "\"") {
      ContainedCharsOccur(t, "\"", '"');
    }
    RemoveAllAbsent(t, "\"");
  }
}
