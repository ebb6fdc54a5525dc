/** Path expressions: a dot-delimited string whose segments name fields and
    may carry the optional-chain marker `?` and the array-flatten marker
    `[]` (written in that order, `name?[]`). A leading `$root` segment
    makes the path start at the original document. */
module Paths {

  const RootMarker: string := "$root"

  /** Splits on every `.`, keeping empty pieces, as JavaScript's
      `split('.')` does. */
  function Split(s: string): (parts: seq<string>)
    ensures |parts| >= 1
    ensures forall i :: 0 <= i < |parts| ==> '.' !in parts[i]
    ensures '.' !in s ==> parts == [s]
  {
    if |s| == 0 then [""]
    else
      var rest := Split(s[1..]);
      if s[0] == '.' then [""] + rest
      else
        assert s == [s[0]] + s[1..];
        [[s[0]] + rest[0]] + rest[1..]
  }

  /** Puts the pieces back together with `.` between neighbours. */
  function Join(parts: seq<string>): string
    requires |parts| >= 1
  {
    if |parts| == 1 then parts[0] else parts[0] + "." + Join(parts[1..])
  }

  lemma {:induction false} JoinSplit(s: string)
    ensures Join(Split(s)) == s
    decreases |s|
  {
    if |s| > 0 {
      var rest := Split(s[1..]);
      JoinSplit(s[1..]);
      if s[0] == '.' {
        assert Split(s)[1..] == rest;
        assert s == [s[0]] + s[1..];
      } else {
        var parts := Split(s);
        assert parts[0] == [s[0]] + rest[0];
        if |rest| == 1 {
          assert s == [s[0]] + s[1..];
        } else {
          assert parts[1..] == rest[1..];
          assert Join(rest) == rest[0] + "." + Join(rest[1..]);
          assert s == [s[0]] + s[1..];
        }
      }
    }
  }

  /** Splitting a string made of one dot-free piece, a dot and a tail. */
  lemma {:induction false} SplitCons(p: string, s: string)
    requires '.' !in p
    ensures Split(p + "." + s) == [p] + Split(s)
    decreases |p|
  {
    if |p| == 0 {
      assert p + "." + s == "." + s;
      assert ("." + s)[1..] == s;
    } else {
      assert (p + "." + s)[1..] == p[1..] + "." + s;
      SplitCons(p[1..], s);
      assert [p[0]] + p[1..] == p;
    }
  }

  lemma {:induction false} SplitJoin(parts: seq<string>)
    requires |parts| >= 1
    requires forall i :: 0 <= i < |parts| ==> '.' !in parts[i]
    ensures Split(Join(parts)) == parts
    decreases |parts|
  {
    if |parts| > 1 {
      SplitJoin(parts[1..]);
      SplitCons(parts[0], Join(parts[1..]));
      assert [parts[0]] + parts[1..] == parts;
    }
  }

  /** One path segment: the field it reads and its two markers. */
  datatype Segment = Segment(name: string, optional: bool, flatten: bool)

  /** `s` ends with the flatten marker `[]`. */
  predicate FlattenMarked(s: string) {
    |s| >= 2 && s[|s| - 2] == '[' && s[|s| - 1] == ']'
  }

  /** `s` ends with the optional-chain marker `?`. */
  predicate OptionalMarked(s: string) {
    |s| >= 1 && s[|s| - 1] == '?'
  }

  /** Reads the markers off the end of a segment's text: first a trailing
      `[]`, then a trailing `?`; whatever remains is the field name. */
  function ParseSegment(text: string): (seg: Segment)
    ensures |seg.name| <= |text| && seg.name == text[..|seg.name|]
    ensures |seg.name| + (if seg.optional then 1 else 0) + (if seg.flatten then 2 else 0) == |text|
    ensures seg.flatten <==> FlattenMarked(text)
    ensures seg.optional <==> OptionalMarked(text[..|text| - (if seg.flatten then 2 else 0)])
  {
    var flat := FlattenMarked(text);
    var t := if flat then text[..|text| - 2] else text;
    var opt := OptionalMarked(t);
    Segment(if opt then t[..|t| - 1] else t, opt, flat)
  }

  function RenderSegment(seg: Segment): string {
    seg.name + (if seg.optional then "?" else "") + (if seg.flatten then "[]" else "")
  }

  /** A segment that its own text describes unambiguously. */
  predicate Canonical(seg: Segment) {
    && '.' !in seg.name
    && !OptionalMarked(seg.name)
    && !(FlattenMarked(seg.name) && !seg.optional && !seg.flatten)
  }

  lemma RenderParseSegment(text: string)
    ensures RenderSegment(ParseSegment(text)) == text
  {
    var seg := ParseSegment(text);
    if seg.flatten {
      var t := text[..|text| - 2];
      assert text == t + "[]";
      if seg.optional {
        assert t == t[..|t| - 1] + "?";
      }
    } else if seg.optional {
      assert text == text[..|text| - 1] + "?";
    }
  }

  lemma ParseRenderSegment(seg: Segment)
    requires Canonical(seg)
    ensures ParseSegment(RenderSegment(seg)) == seg
  {
    var text := RenderSegment(seg);
    var opt := if seg.optional then "?" else "";
    var flat := if seg.flatten then "[]" else "";
    assert text == seg.name + opt + flat;
    if seg.flatten {
      assert text[..|text| - 2] == seg.name + opt;
    } else {
      if seg.optional {
        assert text[|text| - 1] == '?';
      } else {
        assert text == seg.name;
      }
    }
  }

  /** A parsed path: where it starts and the segments walked from there. */
  datatype Path = Path(fromRoot: bool, segments: seq<Segment>)

  function ParseSegments(parts: seq<string>): (segs: seq<Segment>)
    ensures |segs| == |parts|
    ensures forall i :: 0 <= i < |parts| ==> segs[i] == ParseSegment(parts[i])
  {
    if |parts| == 0 then [] else [ParseSegment(parts[0])] + ParseSegments(parts[1..])
  }

  /** Splits a path string and reads its segments; a first piece equal to
      `$root` is dropped and marks the path as starting at the root. */
  function ParsePath(s: string): (p: Path)
    ensures p.fromRoot <==> Split(s)[0] == RootMarker
    ensures |p.segments| == |Split(s)| - (if p.fromRoot then 1 else 0)
    ensures forall i :: 0 <= i < |p.segments| ==>
      p.segments[i] == ParseSegment(Split(s)[i + (if p.fromRoot then 1 else 0)])
  {
    var parts := Split(s);
    if parts[0] == RootMarker then Path(true, ParseSegments(parts[1..]))
    else Path(false, ParseSegments(parts))
  }

  function RenderSegments(segs: seq<Segment>): (parts: seq<string>)
    ensures |parts| == |segs|
    ensures forall i :: 0 <= i < |segs| ==> parts[i] == RenderSegment(segs[i])
  {
    if |segs| == 0 then [] else [RenderSegment(segs[0])] + RenderSegments(segs[1..])
  }

  function RenderPath(p: Path): string
    requires p.fromRoot || |p.segments| >= 1
  {
    var parts := RenderSegments(p.segments);
    Join(if p.fromRoot then [RootMarker] + parts else parts)
  }

  /** A path that its rendered text describes unambiguously: every segment
      is canonical, there is at least one piece of text, and a relative
      path does not begin with a piece that reads as the root marker. */
  predicate CanonicalPath(p: Path) {
    && (forall i :: 0 <= i < |p.segments| ==> Canonical(p.segments[i]))
    && (p.fromRoot || |p.segments| >= 1)
    && (!p.fromRoot ==> RenderSegment(p.segments[0]) != RootMarker)
  }

  lemma ParseRenderSegments(segs: seq<Segment>)
    requires forall i :: 0 <= i < |segs| ==> Canonical(segs[i])
    ensures ParseSegments(RenderSegments(segs)) == segs
  {
    var back := ParseSegments(RenderSegments(segs));
    forall i | 0 <= i < |segs|
      ensures back[i] == segs[i]
    {
      ParseRenderSegment(segs[i]);
    }
  }

  lemma DotFreeRender(seg: Segment)
    requires Canonical(seg)
    ensures '.' !in RenderSegment(seg)
  {
    var opt := if seg.optional then "?" else "";
    var flat := if seg.flatten then "[]" else "";
    assert RenderSegment(seg) == seg.name + opt + flat;
  }

  lemma {:induction false} ParseRenderPath(p: Path)
    requires CanonicalPath(p)
    ensures ParsePath(RenderPath(p)) == p
  {
    var parts := RenderSegments(p.segments);
    var all := if p.fromRoot then [RootMarker] + parts else parts;
    forall i | 0 <= i < |all|
      ensures '.' !in all[i]
    {
      if p.fromRoot && i == 0 {
      } else {
        DotFreeRender(p.segments[if p.fromRoot then i - 1 else i]);
      }
    }
    SplitJoin(all);
    ParseRenderSegments(p.segments);
    if p.fromRoot {
      assert all[1..] == parts;
    }
  }

  /** A segment text with no markers: no dot and no trailing `?` or `]`. */
  predicate PlainName(s: string) {
    '.' !in s && (|s| == 0 || (s[|s| - 1] != '?' && s[|s| - 1] != ']'))
  }

  /** A segment text without markers reads as a plain field access. */
  lemma PlainSegment(s: string)
    requires PlainName(s)
    ensures ParseSegment(s) == Segment(s, false, false)
  {
    if |s| >= 2 {
      assert s[|s| - 2..][1] == s[|s| - 1];
    }
    if |s| >= 1 {
      assert s[|s| - 1..][0] == s[|s| - 1];
    }
  }

  /** Pieces joined with dots parse back to those pieces' segments. */
  lemma ParseJoin(texts: seq<string>)
    requires |texts| >= 1
    requires forall i :: 0 <= i < |texts| ==> '.' !in texts[i]
    ensures ParsePath(Join(texts)) ==
      if texts[0] == RootMarker then Path(true, ParseSegments(texts[1..]))
      else Path(false, ParseSegments(texts))
  {
    SplitJoin(texts);
  }

  /** Prefixing `$root.` to any path yields a root-anchored path over the
      segments of the original text. */
  lemma RootPrefix(s: string)
    ensures ParsePath(RootMarker + "." + s) == Path(true, ParseSegments(Split(s)))
  {
    SplitCons(RootMarker, s);
  }
}
