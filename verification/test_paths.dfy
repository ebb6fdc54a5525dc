/** The path strings of the test suite and the segments each parses to. */
module TestPaths {
  import opened Paths

  function Req(name: string): Segment {
    Segment(name, false, false)
  }

  function Opt(name: string): Segment {
    Segment(name, true, false)
  }

  function Flat(name: string): Segment {
    Segment(name, false, true)
  }

  /** The markers read off a name followed by `?` or by `[]`. */
  lemma MarkedSegments(name: string)
    requires PlainName(name)
    ensures ParseSegment(name + "?") == Opt(name)
    ensures ParseSegment(name + "[]") == Flat(name)
  {
    assert RenderSegment(Opt(name)) == name + "?";
    assert RenderSegment(Flat(name)) == name + "[]";
    ParseRenderSegment(Opt(name));
    ParseRenderSegment(Flat(name));
  }

  /** Both markers are recognised only in the order `name?[]`; in
      `name[]?` the `?` is read off first and the `[]` stays part of the
      field name. */
  lemma MarkerOrder(name: string)
    requires PlainName(name)
    ensures ParseSegment(name + "?[]") == Segment(name, true, true)
    ensures ParseSegment(name + "[]?") == Segment(name + "[]", true, false)
  {
    assert RenderSegment(Segment(name, true, true)) == name + "?[]";
    assert RenderSegment(Segment(name + "[]", true, false)) == name + "[]?";
    ParseRenderSegment(Segment(name, true, true));
    ParseRenderSegment(Segment(name + "[]", true, false));
  }

  /** Four pieces read as their four segments, in order. */
  lemma SegmentsOfFour(a: string, b: string, c: string, d: string)
    ensures ParseSegments([a, b, c, d]) == [ParseSegment(a), ParseSegment(b), ParseSegment(c), ParseSegment(d)]
  {
  }

  /** A relative path text made of the given dot-free pieces. */
  lemma ParsePieces(text: string, pieces: seq<string>)
    requires |pieces| >= 1 && Join(pieces) == text && pieces[0] != RootMarker
    requires forall i :: 0 <= i < |pieces| ==> '.' !in pieces[i]
    ensures ParsePath(text) == Path(false, ParseSegments(pieces))
  {
    ParseJoin(pieces);
  }

  // The path strings the test suite uses, each with the pieces it splits
  // into and the segments those pieces read as.
  const FooBarBazPath: string := "foo.bar.baz"
  const FooBarBazQuxPath: string := "foo.bar.baz.qux"
  const FooBarBazQuxQuuxPath: string := "foo.bar.baz.qux.quux"
  const OptionalChainPath: string := "foo.not_exist_key?.bar.baz"
  const FooBarPath: string := "foo.bar"
  const BarBazPath: string := "bar.baz"
  const FooFlatBarPath: string := "foo[].bar"
  const FooFlatPath: string := "foo[]"
  const FlatPath: string := "[]"
  const RootFooPath: string := "$root.foo"

  lemma FooBarBazText()
    ensures FooBarBazPath == Join(["foo", "bar", "baz"])
  {
  }

  lemma FooBarBazSegments()
    ensures ParseSegments(["foo", "bar", "baz"]) == [Req("foo"), Req("bar"), Req("baz")]
  {
    PlainSegment("foo");
    PlainSegment("bar");
    PlainSegment("baz");
  }

  lemma ParseFooBarBaz()
    ensures ParsePath(FooBarBazPath) == Path(false, [Req("foo"), Req("bar"), Req("baz")])
  {
    FooBarBazText();
    ParsePieces(FooBarBazPath, ["foo", "bar", "baz"]);
    FooBarBazSegments();
  }

  lemma FooBarBazQuxText()
    ensures FooBarBazQuxPath == Join(["foo", "bar", "baz", "qux"])
  {
  }

  lemma FooBarBazQuxSegments()
    ensures ParseSegments(["foo", "bar", "baz", "qux"]) == [Req("foo"), Req("bar"), Req("baz"), Req("qux")]
  {
    PlainSegment("foo");
    PlainSegment("bar");
    PlainSegment("baz");
    PlainSegment("qux");
  }

  lemma ParseFooBarBazQux()
    ensures ParsePath(FooBarBazQuxPath) == Path(false, [Req("foo"), Req("bar"), Req("baz"), Req("qux")])
  {
    FooBarBazQuxText();
    ParsePieces(FooBarBazQuxPath, ["foo", "bar", "baz", "qux"]);
    FooBarBazQuxSegments();
  }

  lemma FooBarBazQuxQuuxText()
    ensures FooBarBazQuxQuuxPath == Join(["foo", "bar", "baz", "qux", "quux"])
  {
    assert Join(["qux", "quux"]) == "qux.quux";
    assert Join(["baz", "qux", "quux"]) == "baz" + "." + "qux.quux";
    assert Join(["bar", "baz", "qux", "quux"]) == "bar" + "." + "baz.qux.quux";
  }

  lemma FooBarBazQuxQuuxSegments()
    ensures ParseSegments(["foo", "bar", "baz", "qux", "quux"]) == [Req("foo"), Req("bar"), Req("baz"), Req("qux"), Req("quux")]
  {
    PlainSegment("foo");
    PlainSegment("bar");
    PlainSegment("baz");
    PlainSegment("qux");
    PlainSegment("quux");
  }

  lemma ParseFooBarBazQuxQuux()
    ensures ParsePath(FooBarBazQuxQuuxPath) == Path(false, [Req("foo"), Req("bar"), Req("baz"), Req("qux"), Req("quux")])
  {
    FooBarBazQuxQuuxText();
    ParsePieces(FooBarBazQuxQuuxPath, ["foo", "bar", "baz", "qux", "quux"]);
    FooBarBazQuxQuuxSegments();
  }

  lemma OptionalChainText()
    ensures OptionalChainPath == Join(["foo", "not_exist_key?", "bar", "baz"])
  {
    assert Join(["bar", "baz"]) == "bar.baz";
    assert Join(["not_exist_key?", "bar", "baz"]) == "not_exist_key?" + "." + "bar.baz";
  }

  lemma OptionalChainSegments()
    ensures ParseSegments(["foo", "not_exist_key?", "bar", "baz"]) == [Req("foo"), Opt("not_exist_key"), Req("bar"), Req("baz")]
  {
    SegmentsOfFour("foo", "not_exist_key?", "bar", "baz");
    PlainSegment("foo");
    MarkedSegments("not_exist_key");
    assert "not_exist_key" + "?" == "not_exist_key?";
    PlainSegment("bar");
    PlainSegment("baz");
  }

  lemma ParseOptionalChain()
    ensures ParsePath(OptionalChainPath) == Path(false, [Req("foo"), Opt("not_exist_key"), Req("bar"), Req("baz")])
  {
    OptionalChainText();
    ParsePieces(OptionalChainPath, ["foo", "not_exist_key?", "bar", "baz"]);
    OptionalChainSegments();
  }

  lemma FooBarText()
    ensures FooBarPath == Join(["foo", "bar"])
  {
  }

  lemma FooBarSegments()
    ensures ParseSegments(["foo", "bar"]) == [Req("foo"), Req("bar")]
  {
    PlainSegment("foo");
    PlainSegment("bar");
  }

  lemma ParseFooBar()
    ensures ParsePath(FooBarPath) == Path(false, [Req("foo"), Req("bar")])
  {
    FooBarText();
    ParsePieces(FooBarPath, ["foo", "bar"]);
    FooBarSegments();
  }

  lemma BarBazText()
    ensures BarBazPath == Join(["bar", "baz"])
  {
  }

  lemma BarBazSegments()
    ensures ParseSegments(["bar", "baz"]) == [Req("bar"), Req("baz")]
  {
    PlainSegment("bar");
    PlainSegment("baz");
  }

  lemma ParseBarBaz()
    ensures ParsePath(BarBazPath) == Path(false, [Req("bar"), Req("baz")])
  {
    BarBazText();
    ParsePieces(BarBazPath, ["bar", "baz"]);
    BarBazSegments();
  }

  lemma FooFlatBarText()
    ensures FooFlatBarPath == Join(["foo[]", "bar"])
  {
  }

  lemma FooFlatBarSegments()
    ensures ParseSegments(["foo[]", "bar"]) == [Flat("foo"), Req("bar")]
  {
    MarkedSegments("foo");
    assert "foo" + "[]" == "foo[]";
    PlainSegment("bar");
  }

  lemma ParseFooFlatBar()
    ensures ParsePath(FooFlatBarPath) == Path(false, [Flat("foo"), Req("bar")])
  {
    FooFlatBarText();
    ParsePieces(FooFlatBarPath, ["foo[]", "bar"]);
    FooFlatBarSegments();
  }

  lemma FooFlatText()
    ensures FooFlatPath == Join(["foo[]"])
  {
  }

  lemma FooFlatSegments()
    ensures ParseSegments(["foo[]"]) == [Flat("foo")]
  {
    MarkedSegments("foo");
    assert "foo" + "[]" == "foo[]";
  }

  lemma ParseFooFlat()
    ensures ParsePath(FooFlatPath) == Path(false, [Flat("foo")])
  {
    FooFlatText();
    ParsePieces(FooFlatPath, ["foo[]"]);
    FooFlatSegments();
  }

  lemma FlatText()
    ensures FlatPath == Join(["[]"])
  {
  }

  lemma FlatSegments()
    ensures ParseSegments(["[]"]) == [Flat("")]
  {
    MarkedSegments("");
  }

  lemma ParseFlat()
    ensures ParsePath(FlatPath) == Path(false, [Flat("")])
  {
    FlatText();
    ParsePieces(FlatPath, ["[]"]);
    FlatSegments();
  }

  lemma ParseRootFoo()
    ensures ParsePath(RootFooPath) == Path(true, [Req("foo")])
  {
    PlainSegment("foo");
    assert RootMarker + "." + "foo" == RootFooPath;
    RootPrefix("foo");
  }

  /** A single field name parses as one plain read. */
  lemma ParseName(name: string)
    requires PlainName(name) && name != RootMarker
    ensures ParsePath(name) == Path(false, [Req(name)])
  {
    PlainSegment(name);
    ParsePieces(name, [name]);
  }
}
