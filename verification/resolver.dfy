/** The path resolver: walks a value segment by segment, short-circuiting on
    optional segments, failing on a required read from an absent base, and
    broadcasting the rest of the path over an array after `[]`. */
module Resolver {
  import opened Json
  import opened Paths

  /** Some segment of `segs` carries the flatten marker. */
  predicate HasFlatten(segs: seq<Segment>) {
    exists i :: 0 <= i < |segs| && segs[i].flatten
  }

  /** A segment with neither marker: a plain property read. */
  predicate Bare(seg: Segment) {
    !seg.optional && !seg.flatten
  }

  predicate AllBare(segs: seq<Segment>) {
    forall i :: 0 <= i < |segs| ==> Bare(segs[i])
  }

  /** The read one segment performs. A `[]` with no field name reads nothing
      and hands on the value itself; an optional segment tolerates an absent
      base; a required read from an absent base is a dereference error. */
  function Step(seg: Segment, v: Value): (r: Result<Value>)
    ensures r.Err? <==> v.Absent? && !seg.optional && !(seg.name == "" && seg.flatten)
    ensures r.Err? ==> r.error == Deref(seg.name)
    ensures r.Ok? && !v.Absent? && !(seg.name == "" && seg.flatten) ==> r.value == Field(v, seg.name)
    ensures r.Ok? && v.Absent? ==> r.value.Absent?
    ensures seg.name == "" && seg.flatten ==> r == Ok(v)
  {
    if seg.name == "" && seg.flatten then Ok(v)
    else if v.Absent? then
      if seg.optional then Ok(Absent) else Err(Deref(seg.name))
    else Ok(Field(v, seg.name))
  }

  /** Walks `segs` from `v`. An optional segment whose read yields nothing
      ends the walk with an absent result; a `[]` segment hands the rest of
      the path to every element of the array it reads. Only a `[]` marker
      starts a broadcast. */
  function ResolveSegs(segs: seq<Segment>, v: Value): (r: Result<Scoped>)
    ensures r.Ok? && r.value.Distributed? ==> HasFlatten(segs)
    decreases |segs|, 0
  {
    if |segs| == 0 then Ok(Plain(v))
    else
      var seg := segs[0];
      var w :- Step(seg, v);
      if seg.optional && w.Absent? then Ok(Plain(Absent))
      else if seg.flatten then
        if w.Arr? then
          var ys :- ResolveEach(segs[1..], w.items);
          Ok(Distributed(ys))
        else Err(NotArray(seg.name))
      else
        ResolveSegs(segs[1..], w)
  }

  /** Walks `segs` from every element of `xs` in order; the first element
      whose walk fails aborts the whole broadcast. A walk that itself
      broadcast contributes its results as one array. */
  function ResolveEach(segs: seq<Segment>, xs: seq<Value>): (r: Result<seq<Value>>)
    ensures r.Ok? <==> forall i :: 0 <= i < |xs| ==> ResolveSegs(segs, xs[i]).Ok?
    ensures r.Ok? ==> |r.value| == |xs|
    ensures r.Ok? ==> forall i :: 0 <= i < |xs| ==> r.value[i] == Unwrap(ResolveSegs(segs, xs[i]).value)
    ensures r.Err? ==>
      exists i ::
        && 0 <= i < |xs|
        && ResolveSegs(segs, xs[i]) == Err(r.error)
        && (forall j :: 0 <= j < i ==> ResolveSegs(segs, xs[j]).Ok?)
    decreases |segs|, |xs| + 1
  {
    if |xs| == 0 then Ok([])
    else
      var y :- ResolveSegs(segs, xs[0]);
      var ys :- ResolveEach(segs, xs[1..]);
      Ok([Unwrap(y)] + ys)
  }

  /** The error of a walk names a field of the path: a dereference error
      names a required segment and a not-an-array error names a `[]`
      segment. */
  predicate Blames(segs: seq<Segment>, e: Error) {
    match e
    case Deref(f) => exists i :: 0 <= i < |segs| && !segs[i].optional && segs[i].name == f
    case NotArray(f) => exists i :: 0 <= i < |segs| && segs[i].flatten && segs[i].name == f
  }

  /** An error blamed on the tail of a path is blamed on the whole path. */
  lemma BlamesTail(segs: seq<Segment>, e: Error)
    requires |segs| > 0 && Blames(segs[1..], e)
    ensures Blames(segs, e)
  {
    if e.Deref? {
      var i :| 0 <= i < |segs[1..]| && !segs[1..][i].optional && segs[1..][i].name == e.field;
      assert segs[i + 1] == segs[1..][i];
    } else {
      var i :| 0 <= i < |segs[1..]| && segs[1..][i].flatten && segs[1..][i].name == e.field;
      assert segs[i + 1] == segs[1..][i];
    }
  }

  /** Only a required segment raises a dereference error, only a `[]`
      segment raises a not-an-array error, and the error names that
      segment's field. */
  lemma {:induction false} ErrorBlamesSegment(segs: seq<Segment>, v: Value)
    requires ResolveSegs(segs, v).Err?
    ensures Blames(segs, ResolveSegs(segs, v).error)
    decreases |segs|
  {
    var seg := segs[0];
    var e := ResolveSegs(segs, v).error;
    if Step(seg, v).Err? {
      assert Blames(segs, e) by {
        assert segs[0].name == e.field;
      }
    } else {
      var w := Step(seg, v).value;
      if seg.flatten && w.Arr? {
        var k :| 0 <= k < |w.items| && ResolveSegs(segs[1..], w.items[k]) == Err(e);
        ErrorBlamesSegment(segs[1..], w.items[k]);
        BlamesTail(segs, e);
      } else if seg.flatten {
        assert Blames(segs, e) by {
          assert segs[0].name == e.field;
        }
      } else {
        assert ResolveSegs(segs, v) == ResolveSegs(segs[1..], w);
        ErrorBlamesSegment(segs[1..], w);
        BlamesTail(segs, e);
      }
    }
  }

  /** Resolves a parsed path against the current scope, or against the root
      document when the path starts with `$root`. */
  function Resolve(p: Path, scope: Value, root: Value): Result<Scoped> {
    ResolveSegs(p.segments, if p.fromRoot then root else scope)
  }

  /** Resolves a path string: parse, then resolve. */
  function ResolvePath(path: string, scope: Value, root: Value): Result<Scoped> {
    Resolve(ParsePath(path), scope, root)
  }

  /** Nests `leaf` under the chain of field names `names`. */
  function Nest(names: seq<string>, leaf: Value): Value {
    if |names| == 0 then leaf else Obj(map[names[0] := Nest(names[1..], leaf)])
  }

  function BareSegments(names: seq<string>): (segs: seq<Segment>)
    ensures |segs| == |names| && AllBare(segs)
    ensures forall i :: 0 <= i < |names| ==> segs[i].name == names[i]
  {
    if |names| == 0 then [] else [Segment(names[0], false, false)] + BareSegments(names[1..])
  }

  /** Walking an existing chain of fields yields exactly the value at its
      end, as a plain (non-broadcast) result. */
  lemma {:induction false} ResolveNest(names: seq<string>, leaf: Value)
    ensures ResolveSegs(BareSegments(names), Nest(names, leaf)) == Ok(Plain(leaf))
    decreases |names|
  {
    if |names| > 0 {
      var segs := BareSegments(names);
      assert segs[1..] == BareSegments(names[1..]);
      ResolveNest(names[1..], leaf);
    }
  }

  /** Resolution is a left fold: a prefix of plain reads can be walked
      first and the rest of the path walked from where it stopped. */
  lemma {:induction false} ResolveAppend(p: seq<Segment>, q: seq<Segment>, v: Value)
    requires AllBare(p)
    ensures ResolveSegs(p, v).Ok? ==> ResolveSegs(p, v).value.Plain?
    ensures ResolveSegs(p + q, v) ==
      match ResolveSegs(p, v)
      case Err(e) => Err(e)
      case Ok(s) => ResolveSegs(q, s.value)
    decreases |p|
  {
    if |p| == 0 {
      assert p + q == q;
    } else {
      assert (p + q)[0] == p[0];
      assert (p + q)[1..] == p[1..] + q;
      match Step(p[0], v)
      case Err(_) =>
      case Ok(w) =>
        assert Bare(p[0]);
        assert AllBare(p[1..]) by {
          forall i | 0 <= i < |p[1..]| ensures Bare(p[1..][i]) {
            assert p[1..][i] == p[i + 1];
          }
        }
        ResolveAppend(p[1..], q, w);
        assert ResolveSegs(p + q, v) == ResolveSegs(p[1..] + q, w);
        assert ResolveSegs(p, v) == ResolveSegs(p[1..], w);
    }
  }

  /** Reading a field of a present value that is not an object gives an
      absent result, not an error. */
  lemma ReadPastScalar(p: seq<Segment>, seg: Segment, v: Value, w: Value)
    requires AllBare(p) && !seg.flatten
    requires ResolveSegs(p, v) == Ok(Plain(w))
    requires !w.Absent? && !w.Obj?
    ensures ResolveSegs(p + [seg], v) == Ok(Plain(Absent))
  {
    ResolveAppend(p, [seg], v);
  }

  /** A required read from an absent value aborts the walk with a
      dereference error naming that read's field, whatever follows. */
  lemma StrictDeref(p: seq<Segment>, seg: Segment, q: seq<Segment>, v: Value)
    requires AllBare(p) && !seg.optional && !(seg.name == "" && seg.flatten)
    requires ResolveSegs(p, v) == Ok(Plain(Absent))
    ensures ResolveSegs(p + [seg] + q, v) == Err(Deref(seg.name))
  {
    assert p + [seg] + q == p + ([seg] + q);
    ResolveAppend(p, [seg] + q, v);
  }

  /** An optional segment whose read yields nothing (its base or its own
      field is absent) ends the walk with an absent result, whatever
      follows. */
  lemma OptionalShortCircuit(p: seq<Segment>, seg: Segment, q: seq<Segment>, v: Value, w: Value)
    requires AllBare(p) && seg.optional
    requires ResolveSegs(p, v) == Ok(Plain(w))
    requires Step(seg, w) == Ok(Absent)
    ensures ResolveSegs(p + [seg] + q, v) == Ok(Plain(Absent))
  {
    assert p + [seg] + q == p + ([seg] + q);
    ResolveAppend(p, [seg] + q, v);
  }

  /** Marking the segment that reads an absent field as optional turns the
      dereference error of the next required read into an absent result. */
  lemma OptionalRescues(p: seq<Segment>, name: string, next: Segment, q: seq<Segment>, v: Value, w: Value)
    requires AllBare(p) && !next.optional && !(next.name == "" && next.flatten)
    requires ResolveSegs(p, v) == Ok(Plain(w))
    requires !w.Absent? && Field(w, name).Absent?
    ensures ResolveSegs(p + [Segment(name, false, false)] + [next] + q, v) == Err(Deref(next.name))
    ensures ResolveSegs(p + [Segment(name, true, false)] + [next] + q, v) == Ok(Plain(Absent))
  {
    var bare := Segment(name, false, false);
    assert p + [bare] + [next] + q == (p + [bare]) + [next] + q;
    ResolveAppend(p, [bare], v);
    forall i | 0 <= i < |p + [bare]|
      ensures Bare((p + [bare])[i])
    {
    }
    StrictDeref(p + [bare], next, q, v);
    OptionalShortCircuit(p, Segment(name, true, false), [next] + q, v, w);
    assert p + [Segment(name, true, false)] + [next] + q == p + [Segment(name, true, false)] + ([next] + q);
  }

  /** A `[]` segment over an array walks the rest of the path from every
      element: the broadcast keeps the array's length and order, and fails
      exactly when some element's walk fails. */
  lemma Broadcast(seg: Segment, q: seq<Segment>, v: Value, xs: seq<Value>)
    requires seg.flatten && Step(seg, v) == Ok(Arr(xs))
    ensures ResolveSegs([seg] + q, v).Ok? <==> forall i :: 0 <= i < |xs| ==> ResolveSegs(q, xs[i]).Ok?
    ensures ResolveSegs([seg] + q, v).Ok? ==>
      var r := ResolveSegs([seg] + q, v).value;
      && r.Distributed? && |r.elements| == |xs|
      && forall i :: 0 <= i < |xs| ==> r.elements[i] == Unwrap(ResolveSegs(q, xs[i]).value)
  {
    assert ([seg] + q)[1..] == q;
  }

  /** Broadcasting the empty rest of a path hands back the elements. */
  lemma EmptyRest(xs: seq<Value>)
    ensures ResolveEach([], xs) == Ok(xs)
  {
    var r := ResolveEach([], xs);
    assert r.Ok? && r.value == xs;
  }

  /** A path that is just `[]` broadcasts over the scope itself. */
  lemma BareFlatten(xs: seq<Value>, root: Value)
    ensures ResolvePath("[]", Arr(xs), root) == Ok(Distributed(xs))
  {
    var p := ParsePath("[]");
    assert Split("[]") == ["[]"];
    assert p.segments == [Segment("", false, true)];
    EmptyRest(xs);
  }

  /** A `[]` on a field the object lacks: without `?` it is a not-an-array
      error, whatever follows; with `?` the walk ends with absent. */
  lemma FlattenMissingField(name: string, rest: seq<Segment>, m: map<string, Value>)
    requires name != "" && name !in m
    ensures ResolveSegs([Segment(name, false, true)] + rest, Obj(m)) == Err(NotArray(name))
    ensures ResolveSegs([Segment(name, true, true)] + rest, Obj(m)) == Ok(Plain(Absent))
  {
  }

  /** A `$root.` path reads from the original document, whatever the
      current scope is. */
  lemma RootIgnoresScope(path: string, scope: Value, root: Value)
    ensures ResolvePath(RootMarker + "." + path, scope, root)
         == ResolveSegs(ParseSegments(Split(path)), root)
  {
    RootPrefix(path);
  }
}
