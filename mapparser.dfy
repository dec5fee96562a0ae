/**
 * MapParser: keeps the `<map ...>` ... `</map>` fragment of a KEGG pathway
 * HTML page, one stripped line per element.
 */
module MapParsing {

  import opened PyStr

  /** `'<map' in l[:4]`: the line opens an image map. */
  predicate OpensMap(l: string)
  {
    Contains(Head(l, 4), "<map")
  }

  /** `'<area' in l[:6]`: the line holds an area tag at offset 0 or 1. */
  predicate IsArea(l: string)
  {
    Contains(Head(l, 6), "<area")
  }

  /** `'</map' in l[:5]`: the line closes the image map. */
  predicate ClosesMap(l: string)
  {
    Contains(Head(l, 5), "</map")
  }

  /** `l.lstrip().rstrip().strip()`. */
  function CleanLine(l: string): string
  {
    Strip(RStrip(LStrip(l)))
  }

  /** What `parse` appends while reading `lines`, `inside` being the flag `b`. */
  function Scan(lines: seq<string>, inside: bool): seq<string>
  {
    if lines == [] then []
    else
      var l := CleanLine(lines[0]);
      if OpensMap(l) then [l] + Scan(lines[1..], true)
      else if IsArea(l) && inside then [l] + Scan(lines[1..], true)
      else if ClosesMap(l) && inside then [l]
      else Scan(lines[1..], inside)
  }

  /** The fragment a fresh parser extracts from a page. */
  function Fragment(html: string): seq<string>
  {
    Scan(Split(html, '\n'), false)
  }

  class MapParser {
    var html: string
    var mapLines: seq<string>

    /** `MapParser(content)`: stores the page and parses it at once. */
    constructor (content: string)
      ensures html == content && mapLines == Fragment(content)
    {
      html := content;
      mapLines := [];
      new;
      var _ := Parse();
    }

    /** `parse`: appends the map fragment of `html` to `mapLines`. */
    method Parse() returns (m: seq<string>)
      modifies this`mapLines
      ensures mapLines == old(mapLines) + Fragment(html) && m == mapLines
    {
      var b := false;
      var lines := Split(html, '\n');
      ghost var target := old(mapLines) + ScanFrom(lines, 0, false);
      var i := 0;
      while i < |lines|
        invariant 0 <= i <= |lines|
        invariant mapLines + ScanFrom(lines, i, b) == target
      {
        var l := CleanLine(lines[i]);
        ghost var rest := ScanFrom(lines, i + 1, true);
        if OpensMap(l) {
          Emit(mapLines, l, rest);
          b := true;
          mapLines := mapLines + [l];
        } else if IsArea(l) && b {
          Emit(mapLines, l, rest);
          mapLines := mapLines + [l];
        } else if ClosesMap(l) && b {
          mapLines := mapLines + [l];
          break;
        }
        i := i + 1;
      }
      ScanFromStart(lines, 0, false);
      m := mapLines;
    }
  }

  /** The scan from position `i` of the lines, as the loop of `parse` runs it. */
  function ScanFrom(lines: seq<string>, i: nat, inside: bool): seq<string>
    decreases |lines| - i
  {
    if i >= |lines| then []
    else
      var l := CleanLine(lines[i]);
      if OpensMap(l) then [l] + ScanFrom(lines, i + 1, true)
      else if IsArea(l) && inside then [l] + ScanFrom(lines, i + 1, true)
      else if ClosesMap(l) && inside then [l]
      else ScanFrom(lines, i + 1, inside)
  }

  /** Moving one element from the rest of the scan to what was extracted. */
  lemma Emit(done: seq<string>, l: string, rest: seq<string>)
    ensures done + ([l] + rest) == (done + [l]) + rest
  {
  }

  /** Scanning from position `i` is scanning the lines from `i` on. */
  lemma {:induction false} ScanFromStart(lines: seq<string>, i: nat, inside: bool)
    requires i <= |lines|
    ensures ScanFrom(lines, i, inside) == Scan(lines[i..], inside)
    decreases |lines| - i
  {
    if i < |lines| {
      assert lines[i..][0] == lines[i] && lines[i..][1..] == lines[i + 1..];
      ScanFromStart(lines, i + 1, true);
      ScanFromStart(lines, i + 1, inside);
    }
  }

  // ---------------------------------------------------------------------
  // The three line tests

  /** The three tests, spelled as prefix tests. */
  lemma LineTests(l: string)
    ensures OpensMap(l) <==> StartsWith(l, "<map")
    ensures ClosesMap(l) <==> StartsWith(l, "</map")
    ensures IsArea(l) <==> StartsWith(l, "<area") || (|l| > 0 && StartsWith(l[1..], "<area"))
  {
    PrefixTest(l, "<map");
    PrefixTest(l, "</map");
    var h := Head(l, 6);
    ContainsAt(h, "<area");
    if StartsWith(l, "<area") {
      assert OccursAt(h, "<area", 0);
    }
    if |l| > 0 && StartsWith(l[1..], "<area") {
      assert h[1..6] == l[1..][..5];
      assert OccursAt(h, "<area", 1);
    }
    if IsArea(l) {
      var i :| OccursAt(h, "<area", i);
      assert i == 0 || i == 1;
      if i == 1 {
        assert l[1..][..5] == h[1..6];
      } else {
        assert l[..5] == h[0..5];
      }
    }
  }

  /** A line that opens the map or holds an area tag never closes the map:
      their second characters differ. */
  lemma OnlyClosersClose(l: string)
    requires OpensMap(l) || IsArea(l)
    ensures !ClosesMap(l)
  {
    LineTests(l);
    if |l| >= 2 {
      assert "</map"[1] == '/';
      if OpensMap(l) {
        assert l[1] == "<map"[1];
      } else if StartsWith(l, "<area") {
        assert l[1] == "<area"[1];
      } else {
        assert l[1] == l[1..][0] == "<area"[0];
      }
    }
  }

  // ---------------------------------------------------------------------
  // Properties of the extracted fragment

  /** When no line opens a map, nothing is extracted. */
  lemma {:induction false} ScanWithoutOpener(lines: seq<string>)
    requires forall i :: 0 <= i < |lines| ==> !OpensMap(CleanLine(lines[i]))
    ensures Scan(lines, false) == []
  {
    if lines != [] {
      ScanWithoutOpener(lines[1..]);
    }
  }

  /** A page none of whose lines starts with `<map` yields an empty fragment. */
  lemma FragmentWithoutMap(html: string)
    requires forall i :: 0 <= i < |Split(html, '\n')| ==> !StartsWith(CleanLine(Split(html, '\n')[i]), "<map")
    ensures Fragment(html) == []
  {
    var lines := Split(html, '\n');
    forall i | 0 <= i < |lines| ensures !OpensMap(CleanLine(lines[i])) {
      LineTests(CleanLine(lines[i]));
    }
    ScanWithoutOpener(lines);
  }

  /** Every element extracted is one of the cleaned lines. */
  lemma {:induction false} ScanFromCleaned(lines: seq<string>, inside: bool)
    ensures forall e :: e in Scan(lines, inside) ==> e in Cleaned(lines)
  {
    if lines != [] {
      ScanFromCleaned(lines[1..], true);
      ScanFromCleaned(lines[1..], inside);
      assert Cleaned(lines) == [CleanLine(lines[0])] + Cleaned(lines[1..]);
    }
  }

  /** Every element extracted is a line of the input with its surrounding
      whitespace stripped. */
  lemma ScanTakesStrippedLines(lines: seq<string>, inside: bool)
    ensures forall k :: 0 <= k < |Scan(lines, inside)| ==>
              exists i :: 0 <= i < |lines| && Scan(lines, inside)[k] == Strip(lines[i])
  {
    var r := Scan(lines, inside);
    var c := Cleaned(lines);
    ScanFromCleaned(lines, inside);
    forall k | 0 <= k < |r| ensures exists i :: 0 <= i < |lines| && r[k] == Strip(lines[i]) {
      assert r[k] in r;
      var i :| 0 <= i < |c| && c[i] == r[k];
      TripleStrip(lines[i]);
    }
  }

  /** The shape of the fragment: each element opens the map, holds an area
      tag or closes the map; a closing line can only be the last element; and
      starting outside the map, the first element opens it. */
  lemma {:induction false} ScanShape(lines: seq<string>, inside: bool)
    ensures forall k :: 0 <= k < |Scan(lines, inside)| ==>
              var e := Scan(lines, inside)[k]; OpensMap(e) || IsArea(e) || ClosesMap(e)
    ensures forall k :: 0 <= k < |Scan(lines, inside)| - 1 ==> !ClosesMap(Scan(lines, inside)[k])
    ensures !inside && Scan(lines, inside) != [] ==> OpensMap(Scan(lines, inside)[0])
  {
    if lines != [] {
      var l := CleanLine(lines[0]);
      var r := Scan(lines, inside);
      ScanShape(lines[1..], true);
      ScanShape(lines[1..], inside);
      if OpensMap(l) || (IsArea(l) && inside) {
        OnlyClosersClose(l);
        assert r == [l] + Scan(lines[1..], true);
      }
    }
  }

  /** At most one `</map` line is extracted, and when there is one it is the
      last element. */
  lemma AtMostOneCloser(html: string)
    ensures forall k :: 0 <= k < |Fragment(html)| && ClosesMap(Fragment(html)[k]) ==> k == |Fragment(html)| - 1
  {
    ScanShape(Split(html, '\n'), false);
  }

  // ---------------------------------------------------------------------
  // An independent description of the fragment

  /** The cleaned lines of the page. */
  function Cleaned(lines: seq<string>): (r: seq<string>)
    ensures |r| == |lines| && forall i :: 0 <= i < |lines| ==> r[i] == CleanLine(lines[i])
  {
    if lines == [] then [] else [CleanLine(lines[0])] + Cleaned(lines[1..])
  }

  /** Drops the lines before the first one that opens a map. */
  function FromFirstOpener(s: seq<string>): seq<string>
  {
    if s == [] then [] else if OpensMap(s[0]) then s else FromFirstOpener(s[1..])
  }

  /** Keeps the lines up to and including the first closing line. */
  function ThroughFirstCloser(s: seq<string>): seq<string>
  {
    if s == [] then [] else if ClosesMap(s[0]) then [s[0]] else [s[0]] + ThroughFirstCloser(s[1..])
  }

  /** Keeps only opening, area and closing lines. */
  function MapTags(s: seq<string>): seq<string>
  {
    if s == [] then []
    else if OpensMap(s[0]) || IsArea(s[0]) || ClosesMap(s[0]) then [s[0]] + MapTags(s[1..])
    else MapTags(s[1..])
  }

  /** The fragment described directly: from the first opening line through
      the first closing line after it, the map tags of that span. */
  function FirstMapBlock(s: seq<string>): seq<string>
  {
    MapTags(ThroughFirstCloser(FromFirstOpener(s)))
  }

  /** Inside the map, the scan keeps the map tags of the lines through the
      first closer. */
  lemma {:induction false} ScanInside(lines: seq<string>)
    ensures Scan(lines, true) == MapTags(ThroughFirstCloser(Cleaned(lines)))
  {
    if lines != [] {
      var l := CleanLine(lines[0]);
      var c := Cleaned(lines);
      assert c[0] == l && c[1..] == Cleaned(lines[1..]);
      ScanInside(lines[1..]);
      if OpensMap(l) || IsArea(l) {
        OnlyClosersClose(l);
        assert ThroughFirstCloser(c) == [l] + ThroughFirstCloser(c[1..]);
      } else if !ClosesMap(l) {
        assert ThroughFirstCloser(c) == [l] + ThroughFirstCloser(c[1..]);
      }
    }
  }

  /** `parse` extracts exactly the map tags from the first opening line
      through the first closing line after it; a second map block is never
      reached. */
  lemma {:induction false} ScanIsFirstMapBlock(lines: seq<string>)
    ensures Scan(lines, false) == FirstMapBlock(Cleaned(lines))
  {
    if lines != [] {
      var l := CleanLine(lines[0]);
      var c := Cleaned(lines);
      assert c[0] == l && c[1..] == Cleaned(lines[1..]);
      if OpensMap(l) {
        ScanInside(lines[1..]);
        OnlyClosersClose(l);
        assert FromFirstOpener(c) == c;
        assert ThroughFirstCloser(c) == [l] + ThroughFirstCloser(c[1..]);
      } else {
        ScanIsFirstMapBlock(lines[1..]);
      }
    }
  }

}
