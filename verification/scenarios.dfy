/** The engine's documented behaviours, each stated for the documents and
    templates of the test suite and derived from the general model. User
    functions are left arbitrary wherever the behaviour does not depend on
    what they compute. */
module Scenarios {
  import opened Json
  import opened Paths
  import opened Resolver
  import opened Evaluator
  import opened TestPaths

  /** `{baz: 1}` */
  const BarObj: Value := Obj(map["baz" := Num(1)])

  /** `{bar: {baz: 1}}` */
  const FooObj: Value := Obj(map["bar" := BarObj])

  /** `{foo: {bar: {baz: 1}}}` */
  const FooBarBaz: Value := Obj(map["foo" := FooObj])

  /** `[{bar: 1}, {bar: 2}, {bar: 3}]` */
  const FooItems: seq<Value> := [Obj(map["bar" := Num(1)]), Obj(map["bar" := Num(2)]), Obj(map["bar" := Num(3)])]

  /** `{foo: [{bar: 1}, {bar: 2}, {bar: 3}]}` */
  const ArrayFooBar: Value := Obj(map["foo" := Arr(FooItems)])

  /** An object template with no `$path`, no `$formatting` and one output key. */
  function Single(name: string, sub: Template): Template {
    ObjTemplate(None, None, [(name, sub)])
  }

  /** Evaluating a one-key object template with no stages against a value. */
  lemma SingleStep(name: string, sub: Template, x: Value, root: Value)
    ensures Eval(Single(name, sub), x, root) ==
      match Eval(sub, x, root)
      case Err(e) => Err(e)
      case Ok(s) => Ok(Plain(Obj(map[name := Unwrap(s)])))
  {
    OneOutput(Single(name, sub), x, root, Plain(x), x);
  }

  /** The top-level call with a one-key object template. */
  lemma SingleTop(name: string, sub: Template, doc: Value)
    ensures Json2Json(doc, Single(name, sub)) ==
      match Eval(sub, doc, doc)
      case Err(e) => Err(e)
      case Ok(s) => Ok(Obj(map[name := Unwrap(s)]))
  {
    SingleStep(name, sub, doc, doc);
  }

  lemma FooChain()
    ensures ResolveSegs([Req("foo")], FooBarBaz) == Ok(Plain(FooObj))
  {
  }

  lemma FooBarChain()
    ensures ResolveSegs([Req("foo"), Req("bar")], FooBarBaz) == Ok(Plain(BarObj))
  {
    assert [Req("foo"), Req("bar")][1..] == [Req("bar")];
  }

  lemma BarBazChain()
    ensures ResolveSegs([Req("bar"), Req("baz")], FooObj) == Ok(Plain(Num(1)))
  {
    assert [Req("bar"), Req("baz")][1..] == [Req("baz")];
  }

  lemma FooBarBazChain()
    ensures ResolveSegs([Req("foo"), Req("bar"), Req("baz")], FooBarBaz) == Ok(Plain(Num(1)))
  {
    ResolveNest(["foo", "bar", "baz"], Num(1));
    assert BareSegments(["foo", "bar", "baz"]) == [Req("foo"), Req("bar"), Req("baz")];
    assert Nest(["foo", "bar", "baz"], Num(1)) == FooBarBaz;
  }

  /** Reading `qux` of the number at `foo.bar.baz` gives nothing. */
  lemma FooBarBazQuxChain()
    ensures ResolveSegs([Req("foo"), Req("bar"), Req("baz"), Req("qux")], FooBarBaz) == Ok(Plain(Absent))
  {
    FooBarBazChain();
    ReadPastScalar([Req("foo"), Req("bar"), Req("baz")], Req("qux"), FooBarBaz, Num(1));
    assert [Req("foo"), Req("bar"), Req("baz")] + [Req("qux")] == [Req("foo"), Req("bar"), Req("baz"), Req("qux")];
  }

  /** `{new_foo: 'foo.bar.baz'}` gives `{new_foo: 1}`. */
  lemma MatchNestedField()
    ensures Json2Json(FooBarBaz, Single("new_foo", StringTemplate(FooBarBazPath)))
         == Ok(Obj(map["new_foo" := Num(1)]))
  {
    ParseFooBarBaz();
    FooBarBazChain();
    SingleTop("new_foo", StringTemplate(FooBarBazPath), FooBarBaz);
  }

  /** `{new_foo: 'foo.bar.baz.qux'}` gives `{new_foo: undefined}`: a field
      of a number is absent, not an error. */
  lemma FieldOfNumberIsAbsent()
    ensures Json2Json(FooBarBaz, Single("new_foo", StringTemplate(FooBarBazQuxPath)))
         == Ok(Obj(map["new_foo" := Absent]))
  {
    ParseFooBarBazQux();
    FooBarBazQuxChain();
    SingleTop("new_foo", StringTemplate(FooBarBazQuxPath), FooBarBaz);
  }

  /** `{new_foo: 'foo.bar.baz.qux.quux'}` aborts with a dereference error
      naming `quux`. */
  lemma FieldOfAbsentThrows()
    ensures Json2Json(FooBarBaz, Single("new_foo", StringTemplate(FooBarBazQuxQuuxPath)))
         == Err(Deref("quux"))
  {
    ParseFooBarBazQuxQuux();
    FooBarBazQuxQuuxChain();
    SingleTop("new_foo", StringTemplate(FooBarBazQuxQuuxPath), FooBarBaz);
  }

  /** The error of that test reads "Cannot read property 'quux' of
      undefined". */
  lemma QuuxMessage()
    ensures Message(Deref("quux")) == "Cannot read property 'quux' of undefined"
  {
  }

  /** Reading `quux` of the absent `foo.bar.baz.qux` is an error. */
  lemma FooBarBazQuxQuuxChain()
    ensures ResolveSegs([Req("foo"), Req("bar"), Req("baz"), Req("qux"), Req("quux")], FooBarBaz)
         == Err(Deref("quux"))
  {
    FooBarBazQuxChain();
    var p := [Req("foo"), Req("bar"), Req("baz"), Req("qux")];
    StrictDeref(p, Req("quux"), [], FooBarBaz);
    assert p + [Req("quux")] + [] == [Req("foo"), Req("bar"), Req("baz"), Req("qux"), Req("quux")];
  }

  /** `{new_foo: 'foo.not_exist_key?.bar.baz'}` gives `{new_foo: undefined}`:
      the optional segment stops the walk before `bar` is read. */
  lemma OptionalChainStops()
    ensures Json2Json(FooBarBaz, Single("new_foo", StringTemplate(OptionalChainPath)))
         == Ok(Obj(map["new_foo" := Absent]))
  {
    ParseOptionalChain();
    OptionalChainResolves();
    SingleTop("new_foo", StringTemplate(OptionalChainPath), FooBarBaz);
  }

  /** `foo.not_exist_key?.bar.baz` stops at the missing optional field. */
  lemma OptionalChainResolves()
    ensures ResolveSegs([Req("foo"), Opt("not_exist_key"), Req("bar"), Req("baz")], FooBarBaz)
         == Ok(Plain(Absent))
  {
    FooChain();
    var q := [Req("bar"), Req("baz")];
    OptionalShortCircuit([Req("foo")], Opt("not_exist_key"), q, FooBarBaz, FooObj);
    assert [Req("foo")] + [Opt("not_exist_key")] + q == [Req("foo"), Opt("not_exist_key"), Req("bar"), Req("baz")];
  }

  /** `{new_foo: f}` gives `{new_foo: f(document)}`. */
  lemma FunctionSeesDocument(f: Value -> Value)
    ensures Json2Json(FooBarBaz, Single("new_foo", FunTemplate(f)))
         == Ok(Obj(map["new_foo" := f(FooBarBaz)]))
  {
    SingleTop("new_foo", FunTemplate(f), FooBarBaz);
  }

  /** `{new_foo: {$path: 'foo.bar.baz'}}` gives `{new_foo: 1}`. */
  lemma PathKey()
    ensures Json2Json(FooBarBaz, Single("new_foo", ObjectTemplate(Some(FooBarBazPath), None, [])))
         == Ok(Obj(map["new_foo" := Num(1)]))
  {
    ParseFooBarBaz();
    FooBarBazChain();
    PathStage(FooBarBazPath, FooBarBaz, FooBarBaz);
    SingleTop("new_foo", ObjectTemplate(Some(FooBarBazPath), None, []), FooBarBaz);
  }

  /** `{new_foo: {$formatting: f}}` gives `{new_foo: f(document)}`. */
  lemma FormattingKey(f: Value -> Value)
    ensures Json2Json(FooBarBaz, Single("new_foo", ObjectTemplate(None, Some(f), [])))
         == Ok(Obj(map["new_foo" := f(FooBarBaz)]))
  {
    FormatStage(f, FooBarBaz, FooBarBaz);
    SingleTop("new_foo", ObjectTemplate(None, Some(f), []), FooBarBaz);
  }

  /** `{new_foo: {$path: 'foo.bar', $formatting: f}}` gives
      `{new_foo: f({baz: 1})}`. */
  lemma PathThenFormattingKey(f: Value -> Value)
    ensures Json2Json(FooBarBaz, Single("new_foo", ObjectTemplate(Some(FooBarPath), Some(f), [])))
         == Ok(Obj(map["new_foo" := f(BarObj)]))
  {
    ParseFooBar();
    FooBarChain();
    PathThenFormat(FooBarPath, f, FooBarBaz, FooBarBaz);
    SingleTop("new_foo", ObjectTemplate(Some(FooBarPath), Some(f), []), FooBarBaz);
  }

  /** `{new_foo: {new_bar: 'foo.bar.baz'}}` gives `{new_foo: {new_bar: 1}}`. */
  lemma NestedObject()
    ensures Json2Json(FooBarBaz, Single("new_foo", Single("new_bar", StringTemplate(FooBarBazPath))))
         == Ok(Obj(map["new_foo" := Obj(map["new_bar" := Num(1)])]))
  {
    ParseFooBarBaz();
    FooBarBazChain();
    SingleStep("new_bar", StringTemplate(FooBarBazPath), FooBarBaz, FooBarBaz);
    SingleTop("new_foo", Single("new_bar", StringTemplate(FooBarBazPath)), FooBarBaz);
  }

  /** `{new_foo: {$path: 'foo', new_bar: 'bar.baz'}}` gives
      `{new_foo: {new_bar: 1}}`: the output keys read from the narrowed
      scope. */
  lemma NestedPath()
    ensures Json2Json(FooBarBaz, Single("new_foo",
              ObjectTemplate(Some("foo"), None, [("new_bar", StringTemplate(BarBazPath))])))
         == Ok(Obj(map["new_foo" := Obj(map["new_bar" := Num(1)])]))
  {
    ParseName("foo");
    ParseBarBaz();
    FooChain();
    BarBazChain();
    var inner := ObjectTemplate(Some("foo"), None, [("new_bar", StringTemplate(BarBazPath))]);
    OneOutput(inner, FooBarBaz, FooBarBaz, Plain(FooObj), FooObj);
    SingleTop("new_foo", inner, FooBarBaz);
  }

  /** A relative path string with the given segments, evaluated as a
      template. */
  lemma PathValue(text: string, segs: seq<Segment>, scope: Value, root: Value, r: Result<Scoped>)
    requires ParsePath(text) == Path(false, segs) && ResolveSegs(segs, scope) == r
    ensures Eval(StringTemplate(text), scope, root) == r
  {
  }

  /** A single field read from an object holding it. */
  lemma ReadOne(name: string, m: map<string, Value>)
    requires name in m
    ensures ResolveSegs([Req(name)], Obj(m)) == Ok(Plain(m[name]))
  {
  }

  /** An object template with two distinct output keys over a plain scope,
      both of whose templates succeed. */
  lemma TwoKeys(t: Template, scope: Value, root: Value, n: Scoped, v: Value, a: Scoped, b: Scoped)
    requires t.ObjTemplate? && |t.outputs| == 2 && t.outputs[0].0 != t.outputs[1].0
    requires Narrow(t.path, scope, root) == Ok(n) && Format(t.formatting, n) == Plain(v)
    requires Eval(t.outputs[0].1, v, root) == Ok(a) && Eval(t.outputs[1].1, v, root) == Ok(b)
    ensures Eval(t, scope, root) == Ok(Plain(Obj(map[t.outputs[0].0 := Unwrap(a), t.outputs[1].0 := Unwrap(b)])))
  {
    EvalPlainStep(t, scope, root, n, v);
    ProjectStep(t, 0, v, root);
    ProjectStep(t, 1, v, root);
    assert Project(t, 2, v, root) == Ok(map[]);
    var m1 := map[t.outputs[1].0 := Unwrap(b)];
    assert Project(t, 1, v, root) == Ok(m1);
    assert t.outputs[0].0 !in m1;
    assert Project(t, 0, v, root) == Ok(m1[t.outputs[0].0 := Unwrap(a)]);
    assert m1[t.outputs[0].0 := Unwrap(a)] == map[t.outputs[0].0 := Unwrap(a), t.outputs[1].0 := Unwrap(b)];
  }

  /** `$path: 'foo'` narrows the first document to `{bar: {baz: 1}}`. */
  lemma NarrowFoo(root: Value)
    ensures Narrow(Some(ParsePath("foo")), FooBarBaz, root) == Ok(Plain(FooObj))
  {
    ParseName("foo");
    FooChain();
  }

  /** `baz2` of a formatted `{baz2: w}`. */
  lemma Baz2Value(w: Value, root: Value)
    ensures Eval(StringTemplate("baz2"), Obj(map["baz2" := w]), root) == Ok(Plain(w))
  {
    ParseName("baz2");
    ReadOne("baz2", map["baz2" := w]);
    PathValue("baz2", [Req("baz2")], Obj(map["baz2" := w]), root, Ok(Plain(w)));
  }

  /** `{new_foo: {$path: 'foo', $formatting: f, new_bar: 'baz2'}}` where `f`
      maps `{bar: {baz: 1}}` to `{baz2: w}` gives `{new_foo: {new_bar: w}}`:
      the output keys read from the formatted scope. */
  lemma NestedPathFormatting(f: Value -> Value, w: Value)
    requires f(FooObj) == Obj(map["baz2" := w])
    ensures Json2Json(FooBarBaz, Single("new_foo",
              ObjectTemplate(Some("foo"), Some(f), [("new_bar", StringTemplate("baz2"))])))
         == Ok(Obj(map["new_foo" := Obj(map["new_bar" := w])]))
  {
    NarrowFoo(FooBarBaz);
    Baz2Value(w, FooBarBaz);
    var inner := ObjectTemplate(Some("foo"), Some(f), [("new_bar", StringTemplate("baz2"))]);
    OneOutput(inner, FooBarBaz, FooBarBaz, Plain(FooObj), f(FooObj));
    SingleTop("new_foo", inner, FooBarBaz);
  }

  /** The innermost template of the `$root` test:
      `{$path: 'bar', new_baz1: 'baz', new_baz2: '$root.foo'}`. */
  function RootInner(): Template {
    ObjectTemplate(Some("bar"), None, [("new_baz1", StringTemplate("baz")), ("new_baz2", StringTemplate(RootFooPath))])
  }

  lemma NarrowBar(root: Value)
    ensures Narrow(Some(ParsePath("bar")), FooObj, root) == Ok(Plain(BarObj))
  {
    ParseName("bar");
    ReadOne("bar", map["bar" := BarObj]);
  }

  lemma BazOfBar(root: Value)
    ensures Eval(StringTemplate("baz"), BarObj, root) == Ok(Plain(Num(1)))
  {
    ParseName("baz");
    ReadOne("baz", map["baz" := Num(1)]);
    PathValue("baz", [Req("baz")], BarObj, root, Ok(Plain(Num(1))));
  }

  lemma RootFooAnywhere(scope: Value)
    ensures Eval(StringTemplate(RootFooPath), scope, FooBarBaz) == Ok(Plain(FooObj))
  {
    ParseRootFoo();
    FooChain();
  }

  /** Against `{bar: {baz: 1}}` the innermost template reads `baz` from its
      narrowed scope and `$root.foo` from the document. */
  lemma RootInnerValue()
    ensures Eval(RootInner(), FooObj, FooBarBaz)
         == Ok(Plain(Obj(map["new_baz1" := Num(1), "new_baz2" := FooObj])))
  {
    NarrowBar(FooBarBaz);
    BazOfBar(FooBarBaz);
    RootFooAnywhere(BarObj);
    TwoKeys(RootInner(), FooObj, FooBarBaz, Plain(BarObj), BarObj, Plain(Num(1)), Plain(FooObj));
  }

  /** `{new_foo: {$path: 'foo', new_bar: {$path: 'bar', new_baz1: 'baz',
      new_baz2: '$root.foo'}}}` gives `{new_foo: {new_bar: {new_baz1: 1,
      new_baz2: {bar: {baz: 1}}}}}`: `$root` reaches the document from any
      depth. */
  lemma RootFromNestedScope()
    ensures Json2Json(FooBarBaz, Single("new_foo", ObjectTemplate(Some("foo"), None, [("new_bar", RootInner())])))
         == Ok(Obj(map["new_foo" := Obj(map["new_bar" := Obj(map["new_baz1" := Num(1), "new_baz2" := FooObj])])]))
  {
    NarrowFoo(FooBarBaz);
    RootInnerValue();
    var middle := ObjectTemplate(Some("foo"), None, [("new_bar", RootInner())]);
    OneOutput(middle, FooBarBaz, FooBarBaz, Plain(FooObj), FooObj);
    SingleTop("new_foo", middle, FooBarBaz);
  }

  /** `foo[]` over the array document broadcasts over its three items. */
  lemma FooFlatResolves()
    ensures ResolveSegs([Flat("foo")], ArrayFooBar) == Ok(Distributed(FooItems))
  {
    EmptyRest(FooItems);
    assert [Flat("foo")][1..] == [];
  }

  /** `bar` of one item of the array document. */
  lemma BarOfItem(k: int)
    ensures ResolveSegs([Req("bar")], Obj(map["bar" := Num(k)])) == Ok(Plain(Num(k)))
  {
  }

  /** `bar` read from every item of the array document. */
  lemma BarOfItems()
    ensures ResolveEach([Req("bar")], FooItems) == Ok([Num(1), Num(2), Num(3)])
  {
    BarOfItem(1);
    BarOfItem(2);
    BarOfItem(3);
    var r := ResolveEach([Req("bar")], FooItems);
    assert r.Ok?;
    assert r.value == [Num(1), Num(2), Num(3)];
  }

  /** `foo[].bar` over the array document reads `bar` of every item. */
  lemma FooFlatBarResolves()
    ensures ResolveSegs([Flat("foo"), Req("bar")], ArrayFooBar) == Ok(Distributed([Num(1), Num(2), Num(3)]))
  {
    BarOfItems();
    assert [Flat("foo"), Req("bar")][1..] == [Req("bar")];
  }

  /** `{new_foo: 'foo[].bar'}` gives `{new_foo: [1, 2, 3]}`. */
  lemma ArrayedPath()
    ensures Json2Json(ArrayFooBar, Single("new_foo", StringTemplate(FooFlatBarPath)))
         == Ok(Obj(map["new_foo" := Arr([Num(1), Num(2), Num(3)])]))
  {
    ParseFooFlatBar();
    FooFlatBarResolves();
    SingleTop("new_foo", StringTemplate(FooFlatBarPath), ArrayFooBar);
  }

  /** `{new_foo: {$path: 'foo[].bar'}}` gives `{new_foo: [1, 2, 3]}`. */
  lemma ArrayedPathKey()
    ensures Json2Json(ArrayFooBar, Single("new_foo", ObjectTemplate(Some(FooFlatBarPath), None, [])))
         == Ok(Obj(map["new_foo" := Arr([Num(1), Num(2), Num(3)])]))
  {
    ParseFooFlatBar();
    FooFlatBarResolves();
    PathStage(FooFlatBarPath, ArrayFooBar, ArrayFooBar);
    SingleTop("new_foo", ObjectTemplate(Some(FooFlatBarPath), None, []), ArrayFooBar);
  }

  /** Formatting three values. */
  lemma MapThree(f: Value -> Value, a: Value, b: Value, c: Value)
    ensures MapValues(f, [a, b, c]) == [f(a), f(b), f(c)]
  {
  }

  /** `{$path: 'foo[].bar', $formatting: f}` over the array document
      formats every `bar`. */
  lemma FormattedBars(f: Value -> Value)
    ensures Eval(ObjectTemplate(Some(FooFlatBarPath), Some(f), []), ArrayFooBar, ArrayFooBar)
         == Ok(Distributed([f(Num(1)), f(Num(2)), f(Num(3))]))
  {
    ParseFooFlatBar();
    FooFlatBarResolves();
    MapThree(f, Num(1), Num(2), Num(3));
    StagesOnly(ObjectTemplate(Some(FooFlatBarPath), Some(f), []), ArrayFooBar, ArrayFooBar);
  }

  /** `{new_foo: {$path: 'foo[].bar', $formatting: f}}` gives
      `{new_foo: [f(1), f(2), f(3)]}`: the function runs once per element. */
  lemma ArrayedFormatting(f: Value -> Value)
    ensures Json2Json(ArrayFooBar, Single("new_foo", ObjectTemplate(Some(FooFlatBarPath), Some(f), [])))
         == Ok(Obj(map["new_foo" := Arr([f(Num(1)), f(Num(2)), f(Num(3))])]))
  {
    FormattedBars(f);
    SingleTop("new_foo", ObjectTemplate(Some(FooFlatBarPath), Some(f), []), ArrayFooBar);
  }

  /** The template of the arrayed nested test:
      `{$path: 'foo[]', new_bar: {$formatting: g}}`. */
  function ArrayedNestedTemplate(g: Value -> Value): Template {
    ObjectTemplate(Some(FooFlatPath), None, [("new_bar", ObjectTemplate(None, Some(g), []))])
  }

  /** Its output key applied to one element. */
  lemma NewBarOf(g: Value -> Value, x: Value, root: Value)
    ensures Project(ArrayedNestedTemplate(g), 0, x, root) == Ok(map["new_bar" := g(x)])
  {
    var t := ArrayedNestedTemplate(g);
    FormatStage(g, x, root);
    ProjectStep(t, 0, x, root);
    assert Project(t, 1, x, root) == Ok(map[]);
  }

  /** Projecting a broadcast of one element. */
  lemma EachOfOne(t: Template, c: Value, root: Value, mc: map<string, Value>)
    requires t.ObjTemplate? && Project(t, 0, c, root) == Ok(mc)
    ensures ProjectEach(t, [c], root) == Ok([Obj(mc)])
  {
    assert ProjectEach(t, [], root) == Ok([]);
    EachCons(t, c, [], root);
    assert [c] + [] == [c];
    assert [Obj(mc)] + [] == [Obj(mc)];
  }

  /** Projecting a broadcast of two elements. */
  lemma EachOfTwo(t: Template, b: Value, c: Value, root: Value, mb: map<string, Value>, mc: map<string, Value>)
    requires t.ObjTemplate? && Project(t, 0, b, root) == Ok(mb) && Project(t, 0, c, root) == Ok(mc)
    ensures ProjectEach(t, [b, c], root) == Ok([Obj(mb), Obj(mc)])
  {
    EachOfOne(t, c, root, mc);
    EachCons(t, b, [c], root);
    assert [b] + [c] == [b, c];
    assert [Obj(mb)] + [Obj(mc)] == [Obj(mb), Obj(mc)];
  }

  /** Projecting a broadcast of three elements. */
  lemma EachOfThree(t: Template, a: Value, b: Value, c: Value, root: Value,
                    ma: map<string, Value>, mb: map<string, Value>, mc: map<string, Value>)
    requires t.ObjTemplate?
    requires Project(t, 0, a, root) == Ok(ma) && Project(t, 0, b, root) == Ok(mb) && Project(t, 0, c, root) == Ok(mc)
    ensures ProjectEach(t, [a, b, c], root) == Ok([Obj(ma), Obj(mb), Obj(mc)])
  {
    EachOfTwo(t, b, c, root, mb, mc);
    EachCons(t, a, [b, c], root);
    assert [a] + [b, c] == [a, b, c];
    assert [Obj(ma)] + [Obj(mb), Obj(mc)] == [Obj(ma), Obj(mb), Obj(mc)];
  }

  /** One step of a broadcast projection. */
  lemma EachCons(t: Template, x: Value, rest: seq<Value>, root: Value)
    requires t.ObjTemplate?
    ensures ProjectEach(t, [x] + rest, root) ==
      match Project(t, 0, x, root)
      case Err(e) => Err(e)
      case Ok(m) =>
        match ProjectEach(t, rest, root)
        case Err(e) => Err(e)
        case Ok(ys) => Ok([Obj(m)] + ys)
  {
    assert ([x] + rest)[0] == x;
    assert ([x] + rest)[1..] == rest;
  }

  /** Its output key applied to each item of the array document. */
  lemma NewBarOfItems(g: Value -> Value, root: Value)
    ensures ProjectEach(ArrayedNestedTemplate(g), FooItems, root) == Ok([
      Obj(map["new_bar" := g(FooItems[0])]),
      Obj(map["new_bar" := g(FooItems[1])]),
      Obj(map["new_bar" := g(FooItems[2])])])
  {
    NewBarOf(g, FooItems[0], root);
    NewBarOf(g, FooItems[1], root);
    NewBarOf(g, FooItems[2], root);
    EachOfThree(ArrayedNestedTemplate(g), FooItems[0], FooItems[1], FooItems[2], root,
                map["new_bar" := g(FooItems[0])], map["new_bar" := g(FooItems[1])], map["new_bar" := g(FooItems[2])]);
  }

  /** `$path: 'foo[]'` broadcasts over the items of the array document. */
  lemma NarrowFooFlat(root: Value)
    ensures Narrow(Some(ParsePath(FooFlatPath)), ArrayFooBar, root) == Ok(Distributed(FooItems))
  {
    ParseFooFlat();
    FooFlatResolves();
  }

  /** `{new_foo: {$path: 'foo[]', new_bar: {$formatting: g}}}` gives
      `{new_foo: [{new_bar: g(item)} for each item]}`: the output keys run
      once per element of the broadcast. */
  lemma ArrayedNested(g: Value -> Value)
    ensures Json2Json(ArrayFooBar, Single("new_foo", ArrayedNestedTemplate(g)))
         == Ok(Obj(map["new_foo" := Arr([
              Obj(map["new_bar" := g(FooItems[0])]),
              Obj(map["new_bar" := g(FooItems[1])]),
              Obj(map["new_bar" := g(FooItems[2])])])]))
  {
    var t := ArrayedNestedTemplate(g);
    NarrowFooFlat(ArrayFooBar);
    NewBarOfItems(g, ArrayFooBar);
    EvalDistributedStep(t, ArrayFooBar, ArrayFooBar, Distributed(FooItems), FooItems);
    SingleTop("new_foo", t, ArrayFooBar);
  }

  /** `$path: 'foo'` narrows the array document to its array. */
  lemma NarrowFooArray(root: Value)
    ensures Narrow(Some(ParsePath("foo")), ArrayFooBar, root) == Ok(Plain(Arr(FooItems)))
  {
    ParseName("foo");
    ReadOne("foo", map["foo" := Arr(FooItems)]);
  }

  /** `{$path: '[]', $formatting: g}` over an array formats every item. */
  lemma FormattedItems(g: Value -> Value, root: Value)
    ensures Eval(ObjectTemplate(Some(FlatPath), Some(g), []), Arr(FooItems), root)
         == Ok(Distributed([g(FooItems[0]), g(FooItems[1]), g(FooItems[2])]))
  {
    BareFlatten(FooItems, root);
    MapThree(g, FooItems[0], FooItems[1], FooItems[2]);
    StagesOnly(ObjectTemplate(Some(FlatPath), Some(g), []), Arr(FooItems), root);
  }

  /** `{new_foo: {$path: 'foo', new_bar: {$path: '[]', $formatting: g}}}`
      gives `{new_foo: {new_bar: [g(item) for each item]}}`: a bare `[]`
      broadcasts over the scope itself, and the broadcast becomes an array
      at its output key. */
  lemma NestedArrayed(g: Value -> Value)
    ensures Json2Json(ArrayFooBar, Single("new_foo",
              ObjectTemplate(Some("foo"), None, [("new_bar", ObjectTemplate(Some(FlatPath), Some(g), []))])))
         == Ok(Obj(map["new_foo" := Obj(map["new_bar" := Arr([g(FooItems[0]), g(FooItems[1]), g(FooItems[2])])])]))
  {
    var sub := ObjectTemplate(Some(FlatPath), Some(g), []);
    var t := ObjectTemplate(Some("foo"), None, [("new_bar", sub)]);
    NarrowFooArray(ArrayFooBar);
    FormattedItems(g, ArrayFooBar);
    OneOutput(t, ArrayFooBar, ArrayFooBar, Plain(Arr(FooItems)), Arr(FooItems));
    SingleTop("new_foo", t, ArrayFooBar);
  }

  /** `x.y` read from the empty object: `x` is absent, so reading `y`
      fails. */
  const MissingChain: Template := PathTemplate(Path(false, [Req("x"), Req("y")]))

  lemma MissingChainFails(root: Value)
    ensures Eval(MissingChain, Obj(map[]), root) == Err(Deref("y"))
  {
    assert [Req("x"), Req("y")][1..] == [Req("y")];
  }

  /** An output key written twice keeps only its last template, as in the
      object literal `{a: 'x.y', a: f}`: the shadowed path, which on its own
      fails, is never evaluated. */
  lemma RepeatedKey(f: Value -> Value)
    ensures Json2Json(Obj(map[]), ObjTemplate(None, None, [("a", MissingChain), ("a", FunTemplate(f))]))
         == Ok(Obj(map["a" := f(Obj(map[]))]))
  {
    var outputs := [("a", MissingChain), ("a", FunTemplate(f))];
    var t := ObjTemplate(None, None, outputs);
    var doc := Obj(map[]);
    assert !LastOccurrence(outputs, 0) by {
      assert NamesFrom(outputs, 1) == {"a"};
    }
    ProjectShadowed(t, 0, doc, doc);
    ProjectKept(t, 1, doc, doc);
    assert Project(t, 2, doc, doc) == Ok(map[]);
    ProjectOne(outputs, doc, doc);
  }
}
