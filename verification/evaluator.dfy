/** The template evaluator and the engine's entry point. A template is a
    path string, a function, or an object whose `$path` narrows the scope,
    whose `$formatting` then rewrites it, and whose other keys project it
    into a fresh output object. The root document travels unchanged through
    every call. */
module Evaluator {
  import opened Json
  import opened Paths
  import opened Resolver

  /** The three kinds of template. Path strings are held already parsed
      (see `StringTemplate`): parsing is a pure function of the string, so
      parsing once when the template is built and parsing at every use
      agree. A user function is an opaque total map from values to values.
      The output keys of an object template keep the order in which they
      were written; `$path` and `$formatting` are kept apart from them. */
  datatype Template =
    | PathTemplate(expr: Path)
    | FunTemplate(f: Value -> Value)
    | ObjTemplate(path: Option<Path>, formatting: Option<Value -> Value>, outputs: seq<(string, Template)>)

  /** The template a path string denotes. */
  function StringTemplate(s: string): (t: Template)
    ensures t.PathTemplate? && t.expr == ParsePath(s)
  {
    PathTemplate(ParsePath(s))
  }

  /** An object template with an optional `$path` string, an optional
      `$formatting` function and output keys. */
  function ObjectTemplate(path: Option<string>, formatting: Option<Value -> Value>,
                          outputs: seq<(string, Template)>): (t: Template)
    ensures t.ObjTemplate? && t.outputs == outputs && t.formatting == formatting
    ensures path.None? <==> t.path.None?
    ensures path.Some? ==> t.path == Some(ParsePath(path.value))
  {
    ObjTemplate(if path.Some? then Some(ParsePath(path.value)) else None, formatting, outputs)
  }

  /** The output keys an object template declares from position `i` on. */
  function NamesFrom(outputs: seq<(string, Template)>, i: nat): (names: set<string>)
    ensures forall j :: i <= j < |outputs| ==> outputs[j].0 in names
    decreases |outputs| - i
  {
    if i >= |outputs| then {} else {outputs[i].0} + NamesFrom(outputs, i + 1)
  }

  /** No later output key repeats the key at position `j`; a repeated key
      keeps the value of its last occurrence, as in an object literal. */
  predicate LastOccurrence(outputs: seq<(string, Template)>, j: int)
    requires 0 <= j < |outputs|
  {
    outputs[j].0 !in NamesFrom(outputs, j + 1)
  }

  /** Applies `f` to every element, keeping length and order. */
  function MapValues(f: Value -> Value, xs: seq<Value>): (ys: seq<Value>)
    ensures |ys| == |xs|
    ensures forall i :: 0 <= i < |xs| ==> ys[i] == f(xs[i])
  {
    seq(|xs|, i requires 0 <= i < |xs| => f(xs[i]))
  }

  /** The `$formatting` stage: absent, it changes nothing; present, it is
      applied once to a plain scope and to every element of a broadcast. */
  function Format(formatting: Option<Value -> Value>, s: Scoped): (r: Scoped)
    ensures r.Distributed? <==> s.Distributed?
    ensures s.Distributed? ==> |r.elements| == |s.elements|
  {
    match formatting
    case None => s
    case Some(f) =>
      match s
      case Plain(v) => Plain(f(v))
      case Distributed(xs) => Distributed(MapValues(f, xs))
  }

  /** The `$path` stage: the scope narrowed by the path, or the scope itself
      when there is no `$path`. */
  function Narrow(path: Option<Path>, scope: Value, root: Value): Result<Scoped> {
    match path
    case None => Ok(Plain(scope))
    case Some(p) => Resolve(p, scope, root)
  }

  /** Evaluates `t` against the scope `scope`; `root` is the original
      document. A string template is resolved as a path, a function template
      is applied to the scope, and an object template goes through its
      three stages. */
  function Eval(t: Template, scope: Value, root: Value): (r: Result<Scoped>)
    ensures t.FunTemplate? ==> r.Ok? && r.value.Plain?
    ensures t.PathTemplate? && r.Ok? && r.value.Distributed? ==> HasFlatten(t.expr.segments)
    ensures t.ObjTemplate? && |t.outputs| > 0 && r.Ok? && r.value.Plain? ==>
      r.value.value.Obj? && r.value.value.fields.Keys == NamesFrom(t.outputs, 0)
    decreases t, 3, 0
  {
    match t
    case PathTemplate(p) => Resolve(p, scope, root)
    case FunTemplate(f) => Ok(Plain(f(scope)))
    case ObjTemplate(_, _, _) => EvalObject(t, scope, root)
  }

  /** An object template: narrow by `$path`, then apply `$formatting`, then,
      when there are output keys, project them once per element. Without
      output keys the formatted scope is the result. */
  function EvalObject(t: Template, scope: Value, root: Value): (r: Result<Scoped>)
    requires t.ObjTemplate?
    ensures |t.outputs| > 0 && r.Ok? && r.value.Plain? ==>
      r.value.value.Obj? && r.value.value.fields.Keys == NamesFrom(t.outputs, 0)
    ensures |t.outputs| > 0 && r.Ok? && r.value.Distributed? ==>
      forall k :: 0 <= k < |r.value.elements| ==>
        r.value.elements[k].Obj? && r.value.elements[k].fields.Keys == NamesFrom(t.outputs, 0)
    decreases t, 2, 0
  {
    var narrowed :- Narrow(t.path, scope, root);
    var formatted := Format(t.formatting, narrowed);
    if |t.outputs| == 0 then Ok(formatted)
    else
      match formatted
      case Plain(v) =>
        var m :- Project(t, 0, v, root);
        Ok(Plain(Obj(m)))
      case Distributed(xs) =>
        var ys :- ProjectEach(t, xs, root);
        Ok(Distributed(ys))
  }

  /** Builds the output object of `t` for one element `x`, from output key
      `i` on. Keys are evaluated in order and the first failure aborts. A
      key that a later key repeats is skipped: as in an object literal, only
      the last occurrence of a name survives, so the templates it shadows
      are never evaluated. */
  function Project(t: Template, i: nat, x: Value, root: Value): (r: Result<map<string, Value>>)
    requires t.ObjTemplate? && i <= |t.outputs|
    ensures r.Ok? ==> r.value.Keys == NamesFrom(t.outputs, i)
    decreases t, 0, |t.outputs| - i
  {
    if i == |t.outputs| then Ok(map[])
    else if !LastOccurrence(t.outputs, i) then Project(t, i + 1, x, root)
    else
      var (name, sub) := t.outputs[i];
      var s :- Eval(sub, x, root);
      var m :- Project(t, i + 1, x, root);
      Ok(m[name := Unwrap(s)])
  }

  /** Builds one output object of `t` per element of a broadcast, in order;
      the first element whose projection fails aborts. */
  function ProjectEach(t: Template, xs: seq<Value>, root: Value): (r: Result<seq<Value>>)
    requires t.ObjTemplate?
    ensures r.Ok? ==> |r.value| == |xs|
    ensures r.Ok? ==> forall k :: 0 <= k < |xs| ==>
      r.value[k].Obj? && r.value[k].fields.Keys == NamesFrom(t.outputs, 0)
    decreases t, 1, |xs|
  {
    if |xs| == 0 then Ok([])
    else
      var m :- Project(t, 0, xs[0], root);
      var ys :- ProjectEach(t, xs[1..], root);
      Ok([Obj(m)] + ys)
  }

  /** The engine's entry point: evaluates the template with the document as
      both scope and root, and hands back a broadcast as a plain array. */
  function Json2Json(document: Value, template: Template): (r: Result<Value>)
    ensures r.Err? <==> Eval(template, document, document).Err?
    ensures r.Ok? ==> r.value == Unwrap(Eval(template, document, document).value)
  {
    var s :- Eval(template, document, document);
    Ok(Unwrap(s))
  }

  /** Every key in `NamesFrom(outputs, i)` is declared at some position
      from `i` on. */
  lemma {:induction false} NamesFromDeclared(outputs: seq<(string, Template)>, i: nat, n: string)
    requires n in NamesFrom(outputs, i)
    ensures exists j :: i <= j < |outputs| && outputs[j].0 == n
    decreases |outputs| - i
  {
    if outputs[i].0 != n {
      NamesFromDeclared(outputs, i + 1, n);
    }
  }

  /** `LastOccurrence` means what it says: no output key after position
      `j` has the name of the key at `j`. */
  lemma LastOccurrenceUnique(outputs: seq<(string, Template)>, j: nat)
    requires j < |outputs|
    ensures LastOccurrence(outputs, j) <==> forall k :: j < k < |outputs| ==> outputs[k].0 != outputs[j].0
  {
    if !LastOccurrence(outputs, j) {
      NamesFromDeclared(outputs, j + 1, outputs[j].0);
    }
  }

  /** One step of projection: a shadowed key is passed over; otherwise the
      key at position `i` is evaluated first, then the keys after it. */
  lemma ProjectStep(t: Template, i: nat, x: Value, root: Value)
    requires t.ObjTemplate? && i < |t.outputs|
    ensures
      var (name, sub) := t.outputs[i];
      Project(t, i, x, root) ==
        if !LastOccurrence(t.outputs, i) then Project(t, i + 1, x, root)
        else
          match Eval(sub, x, root)
          case Err(e) => Err(e)
          case Ok(s) =>
            match Project(t, i + 1, x, root)
            case Err(e) => Err(e)
            case Ok(m) => Ok(m[name := Unwrap(s)])
  {
  }

  /** A shadowed key contributes nothing: projection passes over it. */
  lemma ProjectShadowed(t: Template, i: nat, x: Value, root: Value)
    requires t.ObjTemplate? && i < |t.outputs| && !LastOccurrence(t.outputs, i)
    ensures Project(t, i, x, root) == Project(t, i + 1, x, root)
  {
  }

  /** An unshadowed key is evaluated before the keys after it, and its
      result is added to theirs. */
  lemma ProjectKept(t: Template, i: nat, x: Value, root: Value)
    requires t.ObjTemplate? && i < |t.outputs| && LastOccurrence(t.outputs, i)
    ensures var e := Eval(t.outputs[i].1, x, root);
      e.Err? ==> Project(t, i, x, root) == Err(e.error)
    ensures var e := Eval(t.outputs[i].1, x, root);
      var rest := Project(t, i + 1, x, root);
      e.Ok? && rest.Err? ==> Project(t, i, x, root) == rest
    ensures var e := Eval(t.outputs[i].1, x, root);
      var rest := Project(t, i + 1, x, root);
      e.Ok? && rest.Ok? ==> Project(t, i, x, root) == Ok(rest.value[t.outputs[i].0 := Unwrap(e.value)])
  {
  }

  /** The key at position `i` lets projection pass on to the next key:
      it is shadowed, or its template succeeds. */
  predicate PassesOver(t: Template, i: nat, x: Value, root: Value)
    requires t.ObjTemplate? && i < |t.outputs|
  {
    !LastOccurrence(t.outputs, i) || Eval(t.outputs[i].1, x, root).Ok?
  }

  /** Past a key that lets it pass, a failing projection fails as the
      projection of the keys after it. */
  lemma PassOver(t: Template, i: nat, x: Value, root: Value)
    requires t.ObjTemplate? && i < |t.outputs| && PassesOver(t, i, x, root)
    ensures Project(t, i, x, root).Err? ==> Project(t, i + 1, x, root) == Project(t, i, x, root)
  {
    if LastOccurrence(t.outputs, i) {
      ProjectKept(t, i, x, root);
    } else {
      ProjectShadowed(t, i, x, root);
    }
  }

  /** Every output key from position `i` up to (not including) `j` lets
      projection pass: it is shadowed, or its template succeeds. */
  predicate AllPass(t: Template, i: nat, j: nat, x: Value, root: Value)
    requires t.ObjTemplate? && i <= j <= |t.outputs|
    decreases j - i
  {
    i == j || (PassesOver(t, i, x, root) && AllPass(t, i + 1, j, x, root))
  }

  /** Under `AllPass`, every key in the range passes; in particular an
      unshadowed key in the range has a template that succeeds. */
  lemma {:induction false} AllPassAt(t: Template, i: nat, j: nat, k: nat, x: Value, root: Value)
    requires t.ObjTemplate? && i <= k < j <= |t.outputs| && AllPass(t, i, j, x, root)
    ensures PassesOver(t, k, x, root)
    ensures LastOccurrence(t.outputs, k) ==> Eval(t.outputs[k].1, x, root).Ok?
    decreases k - i
  {
    if i < k {
      AllPassAt(t, i + 1, j, k, x, root);
    }
  }

  /** Conversely, a range in which every key lets projection pass is a
      passing range. */
  lemma {:induction false} AllPassFrom(t: Template, i: nat, j: nat, x: Value, root: Value)
    requires t.ObjTemplate? && i <= j <= |t.outputs|
    requires forall k :: i <= k < j ==> PassesOver(t, k, x, root)
    ensures AllPass(t, i, j, x, root)
    decreases j - i
  {
    if i < j {
      AllPassFrom(t, i + 1, j, x, root);
    }
  }

  /** Projection succeeds exactly when the template of every output key
      that no later key shadows does. */
  lemma {:induction false} ProjectOk(t: Template, i: nat, x: Value, root: Value)
    requires t.ObjTemplate? && i <= |t.outputs|
    ensures Project(t, i, x, root).Ok? <==> AllPass(t, i, |t.outputs|, x, root)
    decreases |t.outputs| - i
  {
    if i < |t.outputs| {
      ProjectOk(t, i + 1, x, root);
      if LastOccurrence(t.outputs, i) {
        ProjectKept(t, i, x, root);
      } else {
        ProjectShadowed(t, i, x, root);
      }
    }
  }

  /** A failing projection fails with the error of the first unshadowed
      output key whose template fails. */
  lemma {:induction false} ProjectFirstError(t: Template, i: nat, x: Value, root: Value)
    requires t.ObjTemplate? && i <= |t.outputs|
    requires Project(t, i, x, root).Err?
    ensures
      exists j {:trigger LastOccurrence(t.outputs, j)} ::
        && i <= j < |t.outputs|
        && LastOccurrence(t.outputs, j)
        && Eval(t.outputs[j].1, x, root) == Err(Project(t, i, x, root).error)
        && AllPass(t, i, j, x, root)
    decreases |t.outputs| - i
  {
    var err := Project(t, i, x, root).error;
    if PassesOver(t, i, x, root) {
      PassOver(t, i, x, root);
      ProjectFirstError(t, i + 1, x, root);
      var j :| && i + 1 <= j < |t.outputs|
               && LastOccurrence(t.outputs, j)
               && Eval(t.outputs[j].1, x, root) == Err(err)
               && AllPass(t, i + 1, j, x, root);
      assert AllPass(t, i, j, x, root);
    } else {
      ProjectKept(t, i, x, root);
    }
  }

  /** The output key at position `j`, if no later key repeats it, holds
      the result of its own template evaluated against the element being
      projected. */
  lemma {:induction false} ProjectValueAt(t: Template, i: nat, j: nat, x: Value, root: Value)
    requires t.ObjTemplate? && i <= j < |t.outputs| && LastOccurrence(t.outputs, j)
    requires Project(t, i, x, root).Ok?
    ensures Eval(t.outputs[j].1, x, root).Ok?
    ensures Project(t, i, x, root).value[t.outputs[j].0] == Unwrap(Eval(t.outputs[j].1, x, root).value)
    decreases j - i
  {
    if !LastOccurrence(t.outputs, i) {
      ProjectShadowed(t, i, x, root);
      ProjectValueAt(t, i + 1, j, x, root);
    } else {
      ProjectKept(t, i, x, root);
      var name := t.outputs[i].0;
      if j > i {
        ProjectValueAt(t, i + 1, j, x, root);
        assert t.outputs[j].0 != name;
      }
    }
  }

  /** Each output key holds the result of its own template evaluated
      against the element being projected (for a repeated key, its last
      occurrence). */
  lemma ProjectValues(t: Template, x: Value, root: Value)
    requires t.ObjTemplate? && Project(t, 0, x, root).Ok?
    ensures forall j :: 0 <= j < |t.outputs| && LastOccurrence(t.outputs, j) ==>
      && Eval(t.outputs[j].1, x, root).Ok?
      && Project(t, 0, x, root).value[t.outputs[j].0] == Unwrap(Eval(t.outputs[j].1, x, root).value)
  {
    forall j | 0 <= j < |t.outputs| && LastOccurrence(t.outputs, j)
      ensures Eval(t.outputs[j].1, x, root).Ok?
      ensures Project(t, 0, x, root).value[t.outputs[j].0] == Unwrap(Eval(t.outputs[j].1, x, root).value)
    {
      ProjectValueAt(t, 0, j, x, root);
    }
  }

  /** A template that a later key of the same name shadows is never
      evaluated: replacing it, whatever it is replaced with, leaves the
      projection unchanged. */
  lemma {:induction false} ShadowedKeyIgnored(t: Template, u: Template, i: nat, x: Value, root: Value)
    requires t.ObjTemplate? && u.ObjTemplate? && |t.outputs| == |u.outputs| && i <= |t.outputs|
    requires forall j :: 0 <= j < |t.outputs| ==> t.outputs[j].0 == u.outputs[j].0
    requires forall j {:trigger LastOccurrence(t.outputs, j)} ::
      0 <= j < |t.outputs| && LastOccurrence(t.outputs, j) ==> t.outputs[j].1 == u.outputs[j].1
    ensures Project(t, i, x, root) == Project(u, i, x, root)
    decreases |t.outputs| - i
  {
    if i < |t.outputs| {
      ShadowedKeyIgnored(t, u, i + 1, x, root);
      assert NamesFrom(t.outputs, i + 1) == NamesFrom(u.outputs, i + 1) by {
        SameNames(t.outputs, u.outputs, i + 1);
      }
      if LastOccurrence(t.outputs, i) {
        ProjectKept(t, i, x, root);
        ProjectKept(u, i, x, root);
      } else {
        ProjectShadowed(t, i, x, root);
        ProjectShadowed(u, i, x, root);
      }
    }
  }

  /** Output lists that declare the same names position by position declare
      the same set of names. */
  lemma {:induction false} SameNames(a: seq<(string, Template)>, b: seq<(string, Template)>, i: nat)
    requires |a| == |b| && forall j :: 0 <= j < |a| ==> a[j].0 == b[j].0
    ensures NamesFrom(a, i) == NamesFrom(b, i)
    decreases |a| - i
  {
    if i < |a| {
      SameNames(a, b, i + 1);
    }
  }

  /** Projection looks only at the output keys of the template. */
  lemma {:induction false} ProjectOutputsOnly(t: Template, u: Template, i: nat, x: Value, root: Value)
    requires t.ObjTemplate? && u.ObjTemplate? && t.outputs == u.outputs && i <= |t.outputs|
    ensures Project(t, i, x, root) == Project(u, i, x, root)
    decreases |t.outputs| - i
  {
    if i < |t.outputs| {
      ProjectStep(t, i, x, root);
      ProjectStep(u, i, x, root);
      ProjectOutputsOnly(t, u, i + 1, x, root);
    }
  }

  /** A string template and an object template holding only that string as
      `$path` evaluate alike. */
  lemma PathStage(p: string, scope: Value, root: Value)
    ensures Eval(ObjectTemplate(Some(p), None, []), scope, root) == Eval(StringTemplate(p), scope, root)
    ensures Eval(StringTemplate(p), scope, root) == ResolvePath(p, scope, root)
  {
  }

  /** A function template and an object template holding only that function
      as `$formatting` evaluate alike: the function applied to the scope. */
  lemma FormatStage(f: Value -> Value, scope: Value, root: Value)
    ensures Eval(ObjectTemplate(None, Some(f), []), scope, root) == Eval(FunTemplate(f), scope, root)
    ensures Eval(FunTemplate(f), scope, root) == Ok(Plain(f(scope)))
  {
  }

  /** `$path` runs before `$formatting`: the function sees the narrowed
      scope, once if it is plain and once per element, in order, if the
      path broadcast. A failing path aborts before the function runs. */
  lemma PathThenFormat(p: string, f: Value -> Value, scope: Value, root: Value)
    ensures
      var e := Eval(ObjectTemplate(Some(p), Some(f), []), scope, root);
      match ResolvePath(p, scope, root)
      case Err(err) => e == Err(err)
      case Ok(Plain(v)) => e == Ok(Plain(f(v)))
      case Ok(Distributed(xs)) =>
        && e.Ok? && e.value.Distributed? && |e.value.elements| == |xs|
        && forall k :: 0 <= k < |xs| ==> e.value.elements[k] == f(xs[k])
  {
  }

  /** An object template whose narrowed and formatted scope is plain
      yields the object its output keys project from that value. */
  lemma EvalPlainStep(t: Template, scope: Value, root: Value, n: Scoped, v: Value)
    requires t.ObjTemplate? && |t.outputs| > 0
    requires Narrow(t.path, scope, root) == Ok(n) && Format(t.formatting, n) == Plain(v)
    ensures Project(t, 0, v, root).Ok? ==> Eval(t, scope, root) == Ok(Plain(Obj(Project(t, 0, v, root).value)))
    ensures Project(t, 0, v, root).Err? ==> Eval(t, scope, root) == Err(Project(t, 0, v, root).error)
  {
    assert Eval(t, scope, root) == EvalObject(t, scope, root);
  }

  /** An object template whose narrowed and formatted scope is a broadcast
      projects every element. */
  lemma EvalDistributedStep(t: Template, scope: Value, root: Value, n: Scoped, xs: seq<Value>)
    requires t.ObjTemplate? && |t.outputs| > 0
    requires Narrow(t.path, scope, root) == Ok(n) && Format(t.formatting, n) == Distributed(xs)
    ensures ProjectEach(t, xs, root).Ok? ==> Eval(t, scope, root) == Ok(Distributed(ProjectEach(t, xs, root).value))
    ensures ProjectEach(t, xs, root).Err? ==> Eval(t, scope, root) == Err(ProjectEach(t, xs, root).error)
  {
    assert Eval(t, scope, root) == EvalObject(t, scope, root);
  }

  /** Projecting a broadcast succeeds exactly when every element's
      projection does. */
  lemma {:induction false} ProjectEachOk(t: Template, xs: seq<Value>, root: Value)
    requires t.ObjTemplate?
    ensures ProjectEach(t, xs, root).Ok? <==> forall k :: 0 <= k < |xs| ==> Project(t, 0, xs[k], root).Ok?
    decreases |xs|
  {
    if |xs| > 0 {
      ProjectEachOk(t, xs[1..], root);
      var head := Project(t, 0, xs[0], root);
      var rest := ProjectEach(t, xs[1..], root);
      if head.Ok? && rest.Ok? {
        assert ProjectEach(t, xs, root).Ok?;
        forall k | 0 < k < |xs|
          ensures Project(t, 0, xs[k], root).Ok?
        {
          assert xs[1..][k - 1] == xs[k];
        }
      } else if head.Err? {
        assert ProjectEach(t, xs, root).Err?;
      } else {
        assert ProjectEach(t, xs, root).Err?;
        var k :| 0 <= k < |xs[1..]| && !Project(t, 0, xs[1..][k], root).Ok?;
        assert xs[1..][k] == xs[k + 1];
      }
    }
  }

  /** A successful broadcast projection holds, at every position, the
      projection of the element at that position. */
  lemma {:induction false} ProjectEachAt(t: Template, xs: seq<Value>, root: Value, k: nat)
    requires t.ObjTemplate? && k < |xs| && ProjectEach(t, xs, root).Ok?
    ensures Project(t, 0, xs[k], root).Ok?
    ensures ProjectEach(t, xs, root).value[k] == Obj(Project(t, 0, xs[k], root).value)
    decreases k
  {
    var head := Project(t, 0, xs[0], root);
    var rest := ProjectEach(t, xs[1..], root);
    assert head.Ok? && rest.Ok?;
    assert ProjectEach(t, xs, root).value == [Obj(head.value)] + rest.value;
    if k > 0 {
      ProjectEachAt(t, xs[1..], root, k - 1);
      assert xs[1..][k - 1] == xs[k];
    }
  }

  /** A failing broadcast projection fails with the error of the first
      element whose projection fails, all earlier elements having
      succeeded. */
  lemma {:induction false} ProjectEachFirstError(t: Template, xs: seq<Value>, root: Value)
    requires t.ObjTemplate? && ProjectEach(t, xs, root).Err?
    ensures
      exists k ::
        && 0 <= k < |xs|
        && Project(t, 0, xs[k], root) == Err(ProjectEach(t, xs, root).error)
        && (forall j :: 0 <= j < k ==> Project(t, 0, xs[j], root).Ok?)
    decreases |xs|
  {
    var err := ProjectEach(t, xs, root).error;
    if Project(t, 0, xs[0], root).Ok? {
      assert ProjectEach(t, xs[1..], root) == Err(err);
      ProjectEachFirstError(t, xs[1..], root);
      var k :| && 0 <= k < |xs[1..]|
               && Project(t, 0, xs[1..][k], root) == Err(err)
               && (forall j :: 0 <= j < k ==> Project(t, 0, xs[1..][j], root).Ok?);
      assert xs[1..][k] == xs[k + 1];
      forall j | 0 <= j < k + 1
        ensures Project(t, 0, xs[j], root).Ok?
      {
        if j > 0 {
          assert xs[1..][j - 1] == xs[j];
        }
      }
    }
  }

  /** An object template with output keys and no stages, applied to one
      value, projects that value. */
  lemma ProjectOne(outputs: seq<(string, Template)>, x: Value, root: Value)
    requires |outputs| > 0
    ensures
      var each := ObjTemplate(None, None, outputs);
      && (Project(each, 0, x, root).Ok? ==> Eval(each, x, root) == Ok(Plain(Obj(Project(each, 0, x, root).value))))
      && (Project(each, 0, x, root).Err? ==> Eval(each, x, root) == Err(Project(each, 0, x, root).error))
  {
    var each := ObjTemplate(None, None, outputs);
    EvalPlainStep(each, x, root, Plain(x), x);
  }

  /** Projection over a plain scope succeeds exactly when every output
      key's template succeeds against the narrowed-then-formatted scope;
      otherwise the first key whose template fails aborts the whole object
      with its error. */
  lemma ProjectPlainOk(t: Template, scope: Value, root: Value, n: Scoped, v: Value)
    requires t.ObjTemplate? && |t.outputs| > 0
    requires Narrow(t.path, scope, root) == Ok(n) && Format(t.formatting, n) == Plain(v)
    ensures Eval(t, scope, root).Ok? <==> AllPass(t, 0, |t.outputs|, v, root)
    ensures Eval(t, scope, root).Err? ==>
      exists j {:trigger LastOccurrence(t.outputs, j)} ::
        && 0 <= j < |t.outputs|
        && LastOccurrence(t.outputs, j)
        && Eval(t.outputs[j].1, v, root) == Eval(t, scope, root)
        && AllPass(t, 0, j, v, root)
  {
    EvalPlainStep(t, scope, root, n, v);
    ProjectOk(t, 0, v, root);
    if Project(t, 0, v, root).Err? {
      ProjectFirstError(t, 0, v, root);
    }
  }

  /** A successful projection over a plain scope is an object with exactly
      the declared keys, each holding its own template's result against the
      narrowed-then-formatted scope with the same root (for a repeated key,
      the template of its last occurrence). */
  lemma ProjectPlainValues(t: Template, scope: Value, root: Value, n: Scoped, v: Value)
    requires t.ObjTemplate? && |t.outputs| > 0
    requires Narrow(t.path, scope, root) == Ok(n) && Format(t.formatting, n) == Plain(v)
    requires Eval(t, scope, root).Ok?
    ensures Eval(t, scope, root).value.Plain?
    ensures var out := Eval(t, scope, root).value.value;
      && out.Obj? && out.fields.Keys == NamesFrom(t.outputs, 0)
      && forall j :: 0 <= j < |t.outputs| && LastOccurrence(t.outputs, j) ==>
           && Eval(t.outputs[j].1, v, root).Ok?
           && out.fields[t.outputs[j].0] == Unwrap(Eval(t.outputs[j].1, v, root).value)
  {
    EvalPlainStep(t, scope, root, n, v);
    ProjectValues(t, v, root);
  }

  /** An object template with a single output key over a plain scope
      wraps that key's result in a one-key object, or fails with its
      error. */
  lemma OneOutput(t: Template, scope: Value, root: Value, n: Scoped, v: Value)
    requires t.ObjTemplate? && |t.outputs| == 1
    requires Narrow(t.path, scope, root) == Ok(n) && Format(t.formatting, n) == Plain(v)
    ensures Eval(t, scope, root) ==
      match Eval(t.outputs[0].1, v, root)
      case Err(e) => Err(e)
      case Ok(s) => Ok(Plain(Obj(map[t.outputs[0].0 := Unwrap(s)])))
  {
    EvalPlainStep(t, scope, root, n, v);
    ProjectStep(t, 0, v, root);
    assert Project(t, 1, v, root) == Ok(map[]);
  }

  /** An object template without output keys is just its two stages: the
      narrowed scope, formatted. */
  lemma StagesOnly(t: Template, scope: Value, root: Value)
    requires t.ObjTemplate? && |t.outputs| == 0
    ensures Eval(t, scope, root) ==
      match Narrow(t.path, scope, root)
      case Err(e) => Err(e)
      case Ok(n) => Ok(Format(t.formatting, n))
  {
    assert Eval(t, scope, root) == EvalObject(t, scope, root);
  }

  /** Broadcast commutes with projection: when the narrowed and formatted
      scope is a broadcast, the object template yields one output object
      per element, in order, each equal to what the same output keys give
      for that element alone. */
  lemma BroadcastProjection(t: Template, scope: Value, root: Value, n: Scoped, xs: seq<Value>)
    requires t.ObjTemplate? && |t.outputs| > 0
    requires Narrow(t.path, scope, root) == Ok(n) && Format(t.formatting, n) == Distributed(xs)
    ensures
      var each := ObjTemplate(None, None, t.outputs);
      Eval(t, scope, root).Ok? <==> forall k :: 0 <= k < |xs| ==> Eval(each, xs[k], root).Ok?
    ensures
      var each := ObjTemplate(None, None, t.outputs);
      Eval(t, scope, root).Ok? ==>
        && Eval(t, scope, root).value.Distributed?
        && |Eval(t, scope, root).value.elements| == |xs|
        && forall k :: 0 <= k < |xs| ==>
             Eval(each, xs[k], root) == Ok(Plain(Eval(t, scope, root).value.elements[k]))
  {
    var each := ObjTemplate(None, None, t.outputs);
    EvalDistributedStep(t, scope, root, n, xs);
    ProjectEachOk(t, xs, root);
    forall k | 0 <= k < |xs|
      ensures ProjectEach(t, xs, root).Ok? ==> ProjectEach(t, xs, root).value[k] == Obj(Project(t, 0, xs[k], root).value)
      ensures Project(t, 0, xs[k], root) == Project(each, 0, xs[k], root)
      ensures Project(t, 0, xs[k], root).Ok? ==> Eval(each, xs[k], root) == Ok(Plain(Obj(Project(t, 0, xs[k], root).value)))
      ensures Project(t, 0, xs[k], root).Err? ==> Eval(each, xs[k], root).Err?
    {
      if ProjectEach(t, xs, root).Ok? {
        ProjectEachAt(t, xs, root, k);
      }
      ProjectOutputsOnly(t, each, 0, xs[k], root);
      ProjectOne(t.outputs, xs[k], root);
    }
  }

  /** A failing broadcast aborts at the first element whose own projection
      fails: the object template fails with that element's error, and every
      element before it projects successfully. */
  lemma BroadcastFirstError(t: Template, scope: Value, root: Value, n: Scoped, xs: seq<Value>)
    requires t.ObjTemplate? && |t.outputs| > 0
    requires Narrow(t.path, scope, root) == Ok(n) && Format(t.formatting, n) == Distributed(xs)
    requires Eval(t, scope, root).Err?
    ensures
      var each := ObjTemplate(None, None, t.outputs);
      exists k ::
        && 0 <= k < |xs|
        && Eval(each, xs[k], root) == Eval(t, scope, root)
        && (forall j :: 0 <= j < k ==> Eval(each, xs[j], root).Ok?)
  {
    var each := ObjTemplate(None, None, t.outputs);
    EvalDistributedStep(t, scope, root, n, xs);
    ProjectEachFirstError(t, xs, root);
    var k :| && 0 <= k < |xs|
             && Project(t, 0, xs[k], root) == Err(ProjectEach(t, xs, root).error)
             && (forall j :: 0 <= j < k ==> Project(t, 0, xs[j], root).Ok?);
    forall j | 0 <= j <= k
      ensures Project(t, 0, xs[j], root) == Project(each, 0, xs[j], root)
      ensures Project(each, 0, xs[j], root).Ok? ==> Eval(each, xs[j], root).Ok?
      ensures Project(each, 0, xs[j], root).Err? ==> Eval(each, xs[j], root) == Err(Project(each, 0, xs[j], root).error)
    {
      ProjectOutputsOnly(t, each, 0, xs[j], root);
      ProjectOne(t.outputs, xs[j], root);
    }
  }

  /** A `$root.` string template reads the original document whatever the
      scope it is evaluated against. */
  lemma RootAnywhere(p: string, scope: Value, root: Value)
    ensures Eval(StringTemplate(RootMarker + "." + p), scope, root)
         == ResolveSegs(ParseSegments(Split(p)), root)
  {
    RootIgnoresScope(p, scope, root);
  }

  /** A failing output key that no later key shadows aborts the whole
      transformation: no partial object is returned. */
  lemma NoPartialResult(document: Value, outputs: seq<(string, Template)>, j: nat)
    requires j < |outputs| && LastOccurrence(outputs, j) && Eval(outputs[j].1, document, document).Err?
    ensures Json2Json(document, ObjTemplate(None, None, outputs)).Err?
  {
    var t := ObjTemplate(None, None, outputs);
    ProjectOk(t, 0, document, document);
    if AllPass(t, 0, |outputs|, document, document) {
      AllPassAt(t, 0, |outputs|, j, document, document);
    }
    ProjectOne(outputs, document, document);
  }
}
