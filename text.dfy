/**
 * Reference definitions for the string handling shared by the models, the
 * handlers and the middleware: splitting on a one-character separator,
 * joining with one, trimming, dropping empty parts and ASCII case folding.
 * The hand-written loops of the source are proved against these.
 */
module Text {

  // ---------------------------------------------------------------------------
  // Splitting on a separator (the behaviour of Go's strings.Split with a
  // one-character separator: n separators give n + 1 parts)
  // ---------------------------------------------------------------------------

  /** The parts of `s` between occurrences of `sep`, in order. */
  function Split(s: string, sep: char): (parts: seq<string>)
    ensures |parts| >= 1
  {
    if s == "" then [""]
    else
      var rest := Split(s[1..], sep);
      if s[0] == sep then [""] + rest else [[s[0]] + rest[0]] + rest[1..]
  }

  /** Number of occurrences of `c` in `s`. */
  function Count(s: string, c: char): nat
  {
    if s == [] then 0 else (if s[0] == c then 1 else 0) + Count(s[1..], c)
  }

  /** A string without the separator is a single part. */
  lemma {:induction false} SplitNoSep(s: string, sep: char)
    requires sep !in s
    ensures Split(s, sep) == [s]
  {
    if s != "" {
      assert s == [s[0]] + s[1..];
      SplitNoSep(s[1..], sep);
    }
  }

  /** A first part without the separator is split off at the first separator. */
  lemma {:induction false} SplitAppendSep(a: string, b: string, sep: char)
    requires sep !in a
    ensures Split(a + [sep] + b, sep) == [a] + Split(b, sep)
  {
    if a == "" {
      assert a + [sep] + b == [sep] + b;
      assert ([sep] + b)[1..] == b;
    } else {
      assert a == [a[0]] + a[1..];
      assert (a + [sep] + b)[1..] == a[1..] + [sep] + b;
      SplitAppendSep(a[1..], b, sep);
    }
  }

  /** Every character of every part is a character of the input. */
  lemma {:induction false} SplitChars(s: string, sep: char)
    ensures forall k, c :: 0 <= k < |Split(s, sep)| && c in Split(s, sep)[k] ==> c in s
  {
    if s != "" {
      SplitChars(s[1..], sep);
      var rest := Split(s[1..], sep);
      var p := Split(s, sep);
      assert s == [s[0]] + s[1..];
      forall k, c | 0 <= k < |p| && c in p[k]
        ensures c in s
      {
        if s[0] == sep {
          if k > 0 {
            assert p[k] == rest[k - 1];
          }
        } else if k == 0 {
          assert p[0] == [s[0]] + rest[0];
        } else {
          assert p[k] == rest[k];
        }
      }
    }
  }

  /** Splitting gives one part more than there are separators, and no part holds one. */
  lemma {:induction false} SplitParts(s: string, sep: char)
    ensures |Split(s, sep)| == Count(s, sep) + 1
    ensures forall k :: 0 <= k < |Split(s, sep)| ==> sep !in Split(s, sep)[k]
  {
    if s != "" {
      SplitParts(s[1..], sep);
      var rest := Split(s[1..], sep);
      if s[0] != sep {
        assert forall k :: 1 <= k < |rest| ==> Split(s, sep)[k] == rest[k];
        assert Split(s, sep)[0] == [s[0]] + rest[0];
      }
    }
  }

  /** Appending one character either opens a new part or extends the last one. */
  lemma SplitSnoc(s: string, c: char, sep: char)
    ensures var p := Split(s, sep);
            Split(s + [c], sep) ==
              if c == sep then p + [""] else p[..|p| - 1] + [p[|p| - 1] + [c]]
  {
    if c == sep {
      SplitSnocSep(s, sep);
    } else {
      SplitSnocOther(s, c, sep);
    }
  }

  lemma {:induction false} SplitSnocSep(s: string, sep: char)
    ensures Split(s + [sep], sep) == Split(s, sep) + [""]
  {
    if s == "" {
      assert s + [sep] == [sep] && [sep][1..] == "";
    } else {
      var t := s[1..];
      assert (s + [sep])[1..] == t + [sep];
      SplitSnocSep(t, sep);
      var q := Split(t, sep);
      if s[0] != sep {
        assert (q + [""])[0] == q[0];
        assert (q + [""])[1..] == q[1..] + [""];
      }
    }
  }

  lemma {:induction false} SplitSnocOther(s: string, c: char, sep: char)
    requires c != sep
    ensures var p := Split(s, sep);
            Split(s + [c], sep) == p[..|p| - 1] + [p[|p| - 1] + [c]]
  {
    if s == "" {
      assert s + [c] == [c] && [c][1..] == "";
      assert Split([c], sep) == [[c] + ""] + [""][1..];
      assert [c] + "" == "" + [c] == [c];
    } else {
      var t := s[1..];
      assert (s + [c])[1..] == t + [c];
      SplitSnocOther(t, c, sep);
      var q := Split(t, sep);
      var q' := Split(t + [c], sep);
      var p := Split(s, sep);
      if s[0] == sep {
        assert p == [""] + q;
        assert p[..|p| - 1] == [""] + q[..|q| - 1];
      } else if |q| == 1 {
        assert p == [[s[0]] + q[0]];
        assert q' == [q[0] + [c]] && q'[1..] == [];
        assert [s[0]] + (q[0] + [c]) == ([s[0]] + q[0]) + [c];
      } else {
        assert q'[0] == q[0];
        assert q'[1..] == q[1..|q| - 1] + [q[|q| - 1] + [c]];
        assert p[..|p| - 1] == [[s[0]] + q[0]] + q[1..|q| - 1];
      }
    }
  }

  // ---------------------------------------------------------------------------
  // Joining with a separator
  // ---------------------------------------------------------------------------

  /** The elements of `xs` with one `sep` between each neighbouring pair; "" for no elements. */
  function Join(xs: seq<string>, sep: char): string
  {
    if |xs| == 0 then ""
    else if |xs| == 1 then xs[0]
    else xs[0] + [sep] + Join(xs[1..], sep)
  }

  /** Total length of the elements of `xs`. */
  function TotalLength(xs: seq<string>): nat
  {
    if xs == [] then 0 else |xs[0]| + TotalLength(xs[1..])
  }

  /** A joined list is the elements' lengths plus one separator per gap. */
  lemma {:induction false} JoinLength(xs: seq<string>, sep: char)
    requires xs != []
    ensures |Join(xs, sep)| == TotalLength(xs) + |xs| - 1
  {
    if |xs| > 1 {
      JoinLength(xs[1..], sep);
    }
  }

  /** Joining with one more element appends a separator and that element. */
  lemma {:induction false} JoinSnoc(xs: seq<string>, x: string, sep: char)
    ensures Join(xs + [x], sep) == if xs == [] then x else Join(xs, sep) + [sep] + x
  {
    if |xs| == 1 {
      assert (xs + [x])[1..] == [x];
    } else if |xs| > 1 {
      assert (xs + [x])[1..] == xs[1..] + [x];
      JoinSnoc(xs[1..], x, sep);
    }
  }

  /** Splitting a joined list gives the list back when no element holds the separator. */
  lemma {:induction false} SplitJoin(xs: seq<string>, sep: char)
    requires xs != []
    requires forall k :: 0 <= k < |xs| ==> sep !in xs[k]
    ensures Split(Join(xs, sep), sep) == xs
  {
    if |xs| == 1 {
      SplitNoSep(xs[0], sep);
    } else {
      SplitJoin(xs[1..], sep);
      SplitAppendSep(xs[0], Join(xs[1..], sep), sep);
      assert [xs[0]] + xs[1..] == xs;
    }
  }

  /** Joining the parts of a split gives the original string back. */
  lemma {:induction false} JoinSplit(s: string, sep: char)
    ensures Join(Split(s, sep), sep) == s
  {
    if s != "" {
      var rest := Split(s[1..], sep);
      JoinSplit(s[1..], sep);
      assert s == [s[0]] + s[1..];
      if s[0] == sep {
        assert ([""] + rest)[1..] == rest;
      } else {
        var head := [s[0]] + rest[0];
        assert ([head] + rest[1..])[1..] == rest[1..];
        assert rest == [rest[0]] + rest[1..];
      }
    }
  }

  // ---------------------------------------------------------------------------
  // Trimming, parameterised by the set of characters that count as white space
  // ---------------------------------------------------------------------------

  /** `s` without its leading white space. */
  function TrimLeft(s: string, ws: set<char>): string
  {
    if |s| > 0 && s[0] in ws then TrimLeft(s[1..], ws) else s
  }

  /** `s` without its trailing white space. */
  function TrimRight(s: string, ws: set<char>): string
  {
    if |s| > 0 && s[|s| - 1] in ws then TrimRight(s[..|s| - 1], ws) else s
  }

  /** Trimming on the left keeps a suffix, drops only white space, and leaves none in front. */
  lemma {:induction false} TrimLeftShape(s: string, ws: set<char>)
    ensures var r := TrimLeft(s, ws);
            && |r| <= |s| && r == s[|s| - |r|..]
            && (forall k :: 0 <= k < |s| - |r| ==> s[k] in ws)
            && (r == [] || r[0] !in ws)
  {
    if |s| > 0 && s[0] in ws {
      TrimLeftShape(s[1..], ws);
    }
  }

  /** Trimming on the right keeps a prefix, drops only white space, and leaves none at the end. */
  lemma {:induction false} TrimRightShape(s: string, ws: set<char>)
    ensures var r := TrimRight(s, ws);
            && |r| <= |s| && r == s[..|r|]
            && (forall k :: |r| <= k < |s| ==> s[k] in ws)
            && (r == [] || r[|r| - 1] !in ws)
  {
    if |s| > 0 && s[|s| - 1] in ws {
      TrimRightShape(s[..|s| - 1], ws);
    }
  }

  /** `s` without leading and trailing white space. */
  function Trimmed(s: string, ws: set<char>): string
  {
    TrimRight(TrimLeft(s, ws), ws)
  }

  /** A string neither starting nor ending with white space. */
  predicate IsTrimmed(s: string, ws: set<char>)
  {
    s == [] || (s[0] !in ws && s[|s| - 1] !in ws)
  }

  /** Index in `s` where its trimming starts: the number of leading white-space characters. */
  function TrimStart(s: string, ws: set<char>): nat
  {
    TrimLeftShape(s, ws);
    |s| - |TrimLeft(s, ws)|
  }

  /**
   * Trimming keeps a contiguous piece of the input, drops only white space
   * around it and leaves nothing to trim.
   */
  lemma {:induction false} TrimmedShape(s: string, ws: set<char>)
    ensures var r, i := Trimmed(s, ws), TrimStart(s, ws);
            && i + |r| <= |s| && r == s[i..i + |r|]
            && (forall k :: 0 <= k < i ==> s[k] in ws)
            && (forall k :: i + |r| <= k < |s| ==> s[k] in ws)
    ensures IsTrimmed(Trimmed(s, ws), ws)
  {
    var l := TrimLeft(s, ws);
    var r := TrimRight(l, ws);
    TrimLeftShape(s, ws);
    TrimRightShape(l, ws);
    var i := |s| - |l|;
    assert TrimStart(s, ws) == i;
    forall k | i + |r| <= k < |s|
      ensures s[k] in ws
    {
      assert s[k] == l[k - i];
    }
    if r != [] {
      assert r[0] == l[0];
    }
  }

  /** A string with nothing to trim is its own trimming. */
  lemma TrimmedFixed(s: string, ws: set<char>)
    requires IsTrimmed(s, ws)
    ensures Trimmed(s, ws) == s
  {
  }

  /** Trimming twice is trimming once. */
  lemma TrimmedIdempotent(s: string, ws: set<char>)
    ensures Trimmed(Trimmed(s, ws), ws) == Trimmed(s, ws)
  {
    TrimmedShape(s, ws);
    TrimmedFixed(Trimmed(s, ws), ws);
  }

  /** Two notions of white space that agree on the characters of `s` trim it alike. */
  lemma {:induction false} TrimmedAgree(s: string, ws1: set<char>, ws2: set<char>)
    requires forall k :: 0 <= k < |s| ==> (s[k] in ws1) == (s[k] in ws2)
    ensures Trimmed(s, ws1) == Trimmed(s, ws2)
  {
    TrimLeftAgree(s, ws1, ws2);
    TrimLeftShape(s, ws1);
    var l := TrimLeft(s, ws1);
    assert forall k :: 0 <= k < |l| ==> l[k] == s[|s| - |l| + k];
    TrimRightAgree(l, ws1, ws2);
  }

  lemma {:induction false} TrimLeftAgree(s: string, ws1: set<char>, ws2: set<char>)
    requires forall k :: 0 <= k < |s| ==> (s[k] in ws1) == (s[k] in ws2)
    ensures TrimLeft(s, ws1) == TrimLeft(s, ws2)
  {
    if |s| > 0 && s[0] in ws1 {
      TrimLeftAgree(s[1..], ws1, ws2);
    }
  }

  lemma {:induction false} TrimRightAgree(s: string, ws1: set<char>, ws2: set<char>)
    requires forall k :: 0 <= k < |s| ==> (s[k] in ws1) == (s[k] in ws2)
    ensures TrimRight(s, ws1) == TrimRight(s, ws2)
  {
    if |s| > 0 && s[|s| - 1] in ws1 {
      TrimRightAgree(s[..|s| - 1], ws1, ws2);
    }
  }

  /** Each part trimmed, in order. */
  function TrimEach(parts: seq<string>, ws: set<char>): (r: seq<string>)
    ensures |r| == |parts|
  {
    if parts == [] then [] else [Trimmed(parts[0], ws)] + TrimEach(parts[1..], ws)
  }

  lemma {:induction false} TrimEachAt(parts: seq<string>, ws: set<char>, k: nat)
    requires k < |parts|
    ensures TrimEach(parts, ws)[k] == Trimmed(parts[k], ws)
  {
    var rest := parts[1..];
    assert TrimEach(parts, ws) == [Trimmed(parts[0], ws)] + TrimEach(rest, ws);
    if k > 0 {
      TrimEachAt(rest, ws, k - 1);
      assert rest[k - 1] == parts[k];
    }
  }

  /** Every part of a trimmed list is trimmed. */
  lemma TrimEachAllTrimmed(parts: seq<string>, ws: set<char>)
    ensures forall k :: 0 <= k < |parts| ==> IsTrimmed(TrimEach(parts, ws)[k], ws)
  {
    forall k | 0 <= k < |parts|
      ensures IsTrimmed(TrimEach(parts, ws)[k], ws)
    {
      TrimEachAt(parts, ws, k);
      TrimmedShape(parts[k], ws);
    }
  }

  /** Trimming one more part appends its trimming. */
  lemma {:induction false} TrimEachSnoc(parts: seq<string>, x: string, ws: set<char>)
    ensures TrimEach(parts + [x], ws) == TrimEach(parts, ws) + [Trimmed(x, ws)]
  {
    if parts != [] {
      assert (parts + [x])[1..] == parts[1..] + [x];
      TrimEachSnoc(parts[1..], x, ws);
    } else {
      assert [x][1..] == [];
    }
  }

  /** Two notions of white space that agree on every character of the parts trim them alike. */
  lemma {:induction false} TrimEachAgree(parts: seq<string>, ws1: set<char>, ws2: set<char>)
    requires forall k, c :: 0 <= k < |parts| && c in parts[k] ==> (c in ws1 <==> c in ws2)
    ensures TrimEach(parts, ws1) == TrimEach(parts, ws2)
  {
    if parts != [] {
      assert forall j :: 0 <= j < |parts[0]| ==> parts[0][j] in parts[0];
      TrimmedAgree(parts[0], ws1, ws2);
      assert forall k :: 1 <= k < |parts| ==> parts[1..][k - 1] == parts[k];
      TrimEachAgree(parts[1..], ws1, ws2);
    }
  }

  lemma {:induction false} TrimEachFixed(parts: seq<string>, ws: set<char>)
    requires forall k :: 0 <= k < |parts| ==> IsTrimmed(parts[k], ws)
    ensures TrimEach(parts, ws) == parts
  {
    if parts != [] {
      TrimmedFixed(parts[0], ws);
      TrimEachFixed(parts[1..], ws);
    }
  }

  // ---------------------------------------------------------------------------
  // Dropping empty parts
  // ---------------------------------------------------------------------------

  /** The non-empty elements of `parts`, in order. */
  function NonEmpty(parts: seq<string>): (r: seq<string>)
    ensures |r| <= |parts|
    ensures forall k :: 0 <= k < |r| ==> r[k] != "" && r[k] in parts
    ensures (forall k :: 0 <= k < |parts| ==> parts[k] != "") ==> r == parts
  {
    if parts == [] then []
    else
      var init := parts[..|parts| - 1];
      var last := parts[|parts| - 1];
      assert parts == init + [last];
      NonEmpty(init) + (if last == "" then [] else [last])
  }

  /** Dropping empty parts of a longer list: the new last part is kept exactly when it is non-empty. */
  lemma NonEmptySnoc(init: seq<string>, last: string)
    ensures NonEmpty(init + [last]) == NonEmpty(init) + (if last == "" then [] else [last])
  {
    assert (init + [last])[..|init|] == init;
  }

  // ---------------------------------------------------------------------------
  // Case-insensitive comparison
  // ---------------------------------------------------------------------------

  /** Lower-case of an ASCII letter; every other character is unchanged. */
  function ToLower(c: char): char
  {
    if 'A' <= c <= 'Z' then (c as int + 32) as char else c
  }

  /** Equality up to ASCII letter case (Go's strings.EqualFold restricted to ASCII). */
  predicate EqualFold(a: string, b: string)
  {
    |a| == |b| && forall k :: 0 <= k < |a| ==> ToLower(a[k]) == ToLower(b[k])
  }

  /** Whether some element of `xs` equals `item` up to case (the source's `contains`). */
  function AnyEqualFold(xs: seq<string>, item: string): (r: bool)
    ensures r <==> exists k :: 0 <= k < |xs| && EqualFold(xs[k], item)
  {
    if xs == [] then false
    else if EqualFold(xs[0], item) then true
    else
      var rest := AnyEqualFold(xs[1..], item);
      assert forall k :: 1 <= k < |xs| ==> xs[k] == xs[1..][k - 1];
      rest
  }

  lemma EqualFoldEquivalence(a: string, b: string, c: string)
    ensures EqualFold(a, a)
    ensures EqualFold(a, b) ==> EqualFold(b, a)
    ensures EqualFold(a, b) && EqualFold(b, c) ==> EqualFold(a, c)
  {
  }

  /** Whether `s` starts with `prefix`. */
  predicate HasPrefix(s: string, prefix: string)
  {
    |prefix| <= |s| && s[..|prefix|] == prefix
  }
}
