/**
 * The few Python 2 string operations Kegg.py relies on: `strip` and its
 * one-sided forms, `split` on one separator character, slicing a prefix
 * (`l[:n]`) and substring membership (`t in s`).
 */
module PyStr {

  /** Python 2 `str.isspace` on one character: space, tab, newline,
      carriage return, vertical tab and form feed. */
  predicate IsSpace(c: char)
  {
    c == ' ' || c == '\t' || c == '\n' || c == '\r' || c == '\U{B}' || c == '\U{C}'
  }

  /** `s.lstrip()`. */
  function LStrip(s: string): string
  {
    if |s| > 0 && IsSpace(s[0]) then LStrip(s[1..]) else s
  }

  /** `lstrip` leaves a suffix that does not start with whitespace, and
      drops only whitespace. */
  lemma {:induction false} LStripShape(s: string)
    ensures |LStrip(s)| <= |s| && LStrip(s) == s[|s| - |LStrip(s)|..]
    ensures LStrip(s) == [] || !IsSpace(LStrip(s)[0])
    ensures forall i :: 0 <= i < |s| - |LStrip(s)| ==> IsSpace(s[i])
  {
    if |s| > 0 && IsSpace(s[0]) {
      LStripShape(s[1..]);
      forall i | 1 <= i < |s| - |LStrip(s)| ensures IsSpace(s[i]) { assert s[i] == s[1..][i - 1]; }
    }
  }

  /** `s.rstrip()`. */
  function RStrip(s: string): string
  {
    if |s| > 0 && IsSpace(s[|s| - 1]) then RStrip(s[..|s| - 1]) else s
  }

  /** `rstrip` leaves a prefix that does not end with whitespace, and drops
      only whitespace. */
  lemma {:induction false} RStripShape(s: string)
    ensures |RStrip(s)| <= |s| && RStrip(s) == s[..|RStrip(s)|]
    ensures RStrip(s) == [] || !IsSpace(RStrip(s)[|RStrip(s)| - 1])
    ensures forall i :: |RStrip(s)| <= i < |s| ==> IsSpace(s[i])
  {
    if |s| > 0 && IsSpace(s[|s| - 1]) {
      var t := s[..|s| - 1];
      RStripShape(t);
      assert RStrip(s) == RStrip(t);
      assert t[..|RStrip(t)|] == s[..|RStrip(t)|];
      forall i | |RStrip(s)| <= i < |s| ensures IsSpace(s[i]) {
        if i < |s| - 1 { assert s[i] == t[i]; }
      }
    }
  }

  /** How many whitespace characters `s` starts with. */
  function LeadingSpace(s: string): (n: nat)
    ensures n <= |s| && (n == |s| || !IsSpace(s[n]))
    ensures forall k :: 0 <= k < n ==> IsSpace(s[k])
  {
    if |s| > 0 && IsSpace(s[0]) then 1 + LeadingSpace(s[1..]) else 0
  }

  /** `s.strip()`. */
  function Strip(s: string): string
  {
    RStrip(LStrip(s))
  }

  /** What `strip` leaves neither starts nor ends with whitespace. */
  lemma StripEnds(s: string)
    ensures Strip(s) == [] || (!IsSpace(Strip(s)[0]) && !IsSpace(Strip(s)[|Strip(s)| - 1]))
  {
    var l := LStrip(s);
    LStripShape(s);
    RStripShape(l);
    var r := RStrip(l);
    assert r != [] ==> r[0] == l[0];
  }

  /** `strip` keeps the piece of `s` after its leading whitespace and drops
      only whitespace after it. */
  lemma StripSlice(s: string)
    ensures LeadingSpace(s) + |Strip(s)| <= |s|
    ensures Strip(s) == s[LeadingSpace(s)..LeadingSpace(s) + |Strip(s)|]
    ensures forall k :: LeadingSpace(s) + |Strip(s)| <= k < |s| ==> IsSpace(s[k])
  {
    var l := LStrip(s);
    var r := RStrip(l);
    var n := LeadingSpace(s);
    LStripShape(s);
    RStripShape(l);
    LStripDropsLeadingSpace(s);
    assert l == s[n..];
    assert r == l[..|r|];
    forall k | n + |r| <= k < |s| ensures IsSpace(s[k]) { assert s[k] == l[k - n]; }
  }

  /** What `lstrip` drops is exactly the leading whitespace. */
  lemma {:induction false} LStripDropsLeadingSpace(s: string)
    ensures |s| - |LStrip(s)| == LeadingSpace(s)
  {
    if |s| > 0 && IsSpace(s[0]) {
      LStripDropsLeadingSpace(s[1..]);
    }
  }

  /** Stripping a string that has no surrounding whitespace changes nothing. */
  lemma StripTrimmed(s: string)
    requires s == [] || (!IsSpace(s[0]) && !IsSpace(s[|s| - 1]))
    ensures LStrip(s) == s && RStrip(s) == s && Strip(s) == s
  {
  }

  /** `l.lstrip().rstrip().strip()`, as Kegg.py writes it, is plain `l.strip()`. */
  lemma TripleStrip(s: string)
    ensures Strip(RStrip(LStrip(s))) == Strip(s)
  {
    var r := RStrip(LStrip(s));
    StripEnds(s);
    StripTrimmed(r);
  }

  /** `s.split(sep)` for a one-character separator. */
  function Split(s: string, sep: char): (r: seq<string>)
    ensures |r| >= 1
  {
    if |s| == 0 then [""]
    else
      var rest := Split(s[1..], sep);
      if s[0] == sep then [""] + rest
      else [[s[0]] + rest[0]] + rest[1..]
  }

  /** No piece of a split holds the separator. */
  lemma {:induction false} SplitPieces(s: string, sep: char)
    ensures forall i :: 0 <= i < |Split(s, sep)| ==> sep !in Split(s, sep)[i]
  {
    if |s| > 0 {
      SplitPieces(s[1..], sep);
      var rest := Split(s[1..], sep);
      if s[0] != sep {
        assert sep !in rest[0];
        assert sep !in [s[0]] + rest[0];
        forall i | 1 <= i < |Split(s, sep)| ensures sep !in Split(s, sep)[i] {
          assert Split(s, sep)[i] == rest[i];
        }
      }
    }
  }

  /** `sep.join(parts)`. */
  function Join(parts: seq<string>, sep: char): string
  {
    if |parts| == 0 then ""
    else if |parts| == 1 then parts[0]
    else parts[0] + [sep] + Join(parts[1..], sep)
  }

  /** Joining the pieces of a split gives the original string back. */
  lemma {:induction false} JoinSplit(s: string, sep: char)
    ensures Join(Split(s, sep), sep) == s
  {
    if |s| > 0 {
      var rest := Split(s[1..], sep);
      JoinSplit(s[1..], sep);
      if s[0] == sep {
        assert Split(s, sep) == [""] + rest;
        assert ([""] + rest)[1..] == rest;
      } else {
        var r := Split(s, sep);
        assert r == [[s[0]] + rest[0]] + rest[1..];
        if |rest| == 1 {
          assert s == [s[0]] + s[1..];
        } else {
          assert r[1..] == rest[1..];
          assert Join(rest, sep) == rest[0] + [sep] + Join(rest[1..], sep);
          assert s == [s[0]] + s[1..];
        }
      }
    }
  }

  /** Splitting a join of separator-free pieces gives the pieces back. */
  lemma {:induction false} SplitJoin(parts: seq<string>, sep: char)
    requires |parts| >= 1
    requires forall i :: 0 <= i < |parts| ==> sep !in parts[i]
    ensures Split(Join(parts, sep), sep) == parts
  {
    if |parts| == 1 {
      SplitNoSep(parts[0], sep);
    } else {
      SplitJoin(parts[1..], sep);
      SplitAfterPiece(parts[0], Join(parts[1..], sep), sep);
      assert parts == [parts[0]] + parts[1..];
    }
  }

  /** A string without the separator splits into itself alone. */
  lemma {:induction false} SplitNoSep(s: string, sep: char)
    requires sep !in s
    ensures Split(s, sep) == [s]
  {
    if |s| > 0 {
      assert sep !in s[1..] by {
        forall k | 0 <= k < |s[1..]| ensures s[1..][k] != sep { assert s[1..][k] == s[k + 1]; }
      }
      SplitNoSep(s[1..], sep);
      assert [s[0]] + s[1..] == s;
    }
  }

  /** A separator-free piece, the separator, then more text: the piece comes first. */
  lemma {:induction false} SplitAfterPiece(p: string, t: string, sep: char)
    requires sep !in p
    ensures Split(p + [sep] + t, sep) == [p] + Split(t, sep)
  {
    if |p| == 0 {
      assert p + [sep] + t == [sep] + t;
      assert ([sep] + t)[1..] == t;
    } else {
      assert sep !in p[1..] by {
        forall k | 0 <= k < |p[1..]| ensures p[1..][k] != sep { assert p[1..][k] == p[k + 1]; }
      }
      SplitAfterPiece(p[1..], t, sep);
      var s := p + [sep] + t;
      assert s[0] == p[0];
      assert s[1..] == p[1..] + [sep] + t;
      assert [p[0]] + p[1..] == p;
    }
  }

  /** Python's slice `s[:n]` for n >= 0. */
  function Head(s: string, n: nat): (r: string)
    ensures |r| == if n < |s| then n else |s|
    ensures forall i :: 0 <= i < |r| ==> r[i] == s[i]
  {
    if n < |s| then s[..n] else s
  }

  /** Python's substring test `t in s`, scanning from the left. */
  predicate Contains(s: string, t: string)
    decreases |s|
  {
    if |s| < |t| then false
    else s[..|t|] == t || Contains(s[1..], t)
  }

  /** `t` occurs in `s` at offset `i`. */
  predicate OccursAt(s: string, t: string, i: int)
  {
    0 <= i <= |s| - |t| && s[i..i + |t|] == t
  }

  /** `t in s` holds exactly when `t` occurs in `s` at some offset. */
  lemma {:induction false} ContainsAt(s: string, t: string)
    ensures Contains(s, t) <==> exists i :: OccursAt(s, t, i)
  {
    if |s| < |t| {
    } else if s[..|t|] == t {
      assert OccursAt(s, t, 0);
    } else {
      ContainsAt(s[1..], t);
      if Contains(s, t) {
        var i :| OccursAt(s[1..], t, i);
        assert s[i + 1..i + 1 + |t|] == s[1..][i..i + |t|];
        assert OccursAt(s, t, i + 1);
      } else {
        forall i | OccursAt(s, t, i) ensures false {
          assert i > 0;
          assert s[1..][i - 1..i - 1 + |t|] == s[i..i + |t|];
          assert OccursAt(s[1..], t, i - 1);
        }
      }
    }
  }

  /** `s` begins with `p`. */
  predicate StartsWith(s: string, p: string)
  {
    |p| <= |s| && s[..|p|] == p
  }

  /** A test `p in s[:|p|]`, the form Kegg.py uses, is a prefix test. */
  lemma PrefixTest(s: string, p: string)
    ensures Contains(Head(s, |p|), p) <==> StartsWith(s, p)
  {
    ContainsAt(Head(s, |p|), p);
    if StartsWith(s, p) {
      assert OccursAt(Head(s, |p|), p, 0);
    }
  }

}
