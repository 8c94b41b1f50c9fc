/**
 * Parsed JSON documents: the workflow definition the state-machine construct patches and the
 * events the Lambda handlers receive. Numbers are integers in this model.
 */
module Json {
  import opened Wrappers

  datatype Json =
    | Null
    | Bool(b: bool)
    | Num(n: int)
    | Str(s: string)
    | Arr(items: seq<Json>)
    | Obj(fields: map<string, Json>)

  /** A chain of object member names, outermost first. */
  type Path = seq<string>

  /** Two paths diverge when neither is a prefix of the other: they name disjoint subtrees. */
  predicate Diverge(p: Path, q: Path)
  {
    !(p <= q) && !(q <= p)
  }

  lemma DivergeAt(p: Path, q: Path, i: nat)
    requires i < |p| && i < |q| && p[i] != q[i]
    ensures Diverge(p, q)
  {
  }

  /** The value reached from `j` by following object members along `path`. */
  function Lookup(j: Json, path: Path): Option<Json>
    decreases |path|
  {
    if path == [] then Some(j)
    else match j
      case Obj(m) => if path[0] in m then Lookup(m[path[0]], path[1..]) else None
      case _ => None
  }

  /** Looking up `p + q` is looking up `q` from wherever `p` leads. */
  lemma {:induction false} LookupAppend(j: Json, p: Path, q: Path)
    ensures Lookup(j, p + q) == if Lookup(j, p).None? then None else Lookup(Lookup(j, p).value, q)
    decreases |p|
  {
    if p == [] {
      assert p + q == q;
    } else {
      assert (p + q)[0] == p[0] && (p + q)[1..] == p[1..] + q;
      if j.Obj? && p[0] in j.fields {
        LookupAppend(j.fields[p[0]], p[1..], q);
      }
    }
  }

  /** Every proper prefix of a path that leads somewhere leads to an object. */
  lemma LookupThroughObjects(j: Json, p: Path, q: Path)
    requires q != [] && Lookup(j, p + q).Some?
    ensures Lookup(j, p).Some? && Lookup(j, p).value.Obj?
  {
    LookupAppend(j, p, q);
  }
}

/**
 * JavaScript's reading, truth-testing and assignment of object members, applied to a parsed
 * JSON tree, as `updateParsedDefinition` uses them (strict mode: the TypeScript module is
 * compiled with "use strict"). Every key used is a plain name: never an array index and never
 * `length`.
 */
module JsAccess {
  import opened Wrappers
  import opened Json

  /** The exception JavaScript throws on the failing read or write; its message is not modelled. */
  datatype Fault = TypeError

  /** The result of a member read: `None` stands for `undefined`. */
  type Read = Option<Json>

  /** JavaScript truthiness, as tested by `if (x)`. */
  predicate Truthy(v: Read)
  {
    match v
    case None => false
    case Some(Null) => false
    case Some(Bool(b)) => b
    case Some(Num(n)) => n != 0
    case Some(Str(s)) => s != ""
    case Some(_) => true
  }

  /**
   * `e[k]` where `e` evaluated to `v`: reading a member of `undefined` or `null` throws, an
   * object yields the member or `undefined`, any other value has no such member.
   */
  function Member(v: Read, k: string): (r: Result<Read, Fault>)
    ensures r.Failure? <==> v.None? || v.value.Null?
    ensures r.Success? && v.value.Obj? ==> r.value == Lookup(v.value, [k])
    ensures r.Success? && !v.value.Obj? ==> r.value.None?
  {
    match v
    case None => Failure(TypeError)
    case Some(Null) => Failure(TypeError)
    case Some(Obj(m)) => Success(if k in m then Some(m[k]) else None)
    case Some(_) => Success(None)
  }

  /**
   * The statement `root.p[0]...p[n-1][k] = v`. Every step of `p` must reach an object member
   * (a step into `undefined` or `null` throws). The final target must be an object, which gets
   * member `k`; an array silently takes a named property that JSON.stringify never emits, so
   * the tree is unchanged; a primitive throws in strict mode.
   */
  function Assign(root: Json, p: Path, k: string, v: Json): Result<Json, Fault>
    decreases |p|
  {
    if p == [] then
      match root
      case Obj(m) => Success(Obj(m[k := v]))
      case Arr(_) => Success(root)
      case _ => Failure(TypeError)
    else
      match root
      case Obj(m) =>
        if p[0] in m then
          var child :- Assign(m[p[0]], p[1..], k, v);
          Success(Obj(m[p[0] := child]))
        else Failure(TypeError)
      case _ => Failure(TypeError)
  }

  /** The assignment target of `Assign(_, p, k, _)` once written: `v` is there, or `p` is an array. */
  predicate Holds(j: Json, p: Path, k: string, v: Json)
  {
    Lookup(j, p + [k]) == Some(v) || (Lookup(j, p).Some? && Lookup(j, p).value.Arr?)
  }

  /** An assignment succeeds exactly when its path leads to an object or an array. */
  lemma {:induction false} AssignSucceedsIff(j: Json, p: Path, k: string, v: Json)
    ensures Assign(j, p, k, v).Success? <==> Lookup(j, p).Some? && (Lookup(j, p).value.Obj? || Lookup(j, p).value.Arr?)
    decreases |p|
  {
    if p != [] && j.Obj? && p[0] in j.fields {
      AssignSucceedsIff(j.fields[p[0]], p[1..], k, v);
    }
  }

  /** After a successful assignment its target holds the value (or its parent is an array). */
  lemma {:induction false} AssignEstablishes(j: Json, p: Path, k: string, v: Json)
    requires Assign(j, p, k, v).Success?
    ensures Holds(Assign(j, p, k, v).value, p, k, v)
    ensures Lookup(j, p).Some? && Lookup(j, p).value.Obj? ==> Lookup(Assign(j, p, k, v).value, p + [k]) == Some(v)
    ensures Lookup(j, p).Some? && Lookup(j, p).value.Arr? ==> Assign(j, p, k, v).value == j
    decreases |p|
  {
    AssignSucceedsIff(j, p, k, v);
    if p != [] {
      var m := j.fields;
      AssignEstablishes(m[p[0]], p[1..], k, v);
      assert (p + [k])[0] == p[0] && (p + [k])[1..] == p[1..] + [k];
    }
  }

  /** An assignment changes nothing outside the subtree of its target and its ancestors. */
  lemma {:induction false} AssignFrame(j: Json, p: Path, k: string, v: Json, q: Path)
    requires Assign(j, p, k, v).Success?
    requires Diverge(q, p + [k])
    ensures Lookup(Assign(j, p, k, v).value, q) == Lookup(j, q)
    decreases |p|
  {
    var r := Assign(j, p, k, v).value;
    assert q != [];
    if p == [] {
      if j.Obj? {
        assert q[0] != k by { assert [k] == (p + [k]); }
      }
    } else {
      var m := j.fields;
      assert (p + [k])[0] == p[0] && (p + [k])[1..] == p[1..] + [k];
      if q[0] == p[0] {
        assert Diverge(q[1..], p[1..] + [k]) by {
          assert q == [q[0]] + q[1..];
          assert p + [k] == [p[0]] + (p[1..] + [k]);
        }
        AssignFrame(m[p[0]], p[1..], k, v, q[1..]);
      }
    }
  }

  /** Assigning a value the target already holds changes nothing. */
  lemma {:induction false} HoldsStable(j: Json, p: Path, k: string, v: Json)
    requires Holds(j, p, k, v)
    ensures Assign(j, p, k, v) == Success(j)
    decreases |p|
  {
    if Lookup(j, p + [k]) == Some(v) {
      LookupThroughObjects(j, p, [k]);
    }
    if p == [] {
      if j.Obj? {
        assert j.fields[k := v] == j.fields;
      }
    } else {
      var m := j.fields;
      assert (p + [k])[1..] == p[1..] + [k];
      HoldsStable(m[p[0]], p[1..], k, v);
      assert m[p[0] := m[p[0]]] == m;
    }
  }

  /** A later assignment to a diverging target leaves an earlier one's effect in place. */
  lemma HoldsPreserved(j: Json, p: Path, k: string, v: Json, p': Path, k': string, v': Json)
    requires Holds(j, p, k, v)
    requires Assign(j, p', k', v').Success?
    requires Diverge(p + [k], p' + [k'])
    ensures Holds(Assign(j, p', k', v').value, p, k, v)
  {
    var r := Assign(j, p', k', v').value;
    if Lookup(j, p + [k]) == Some(v) {
      AssignFrame(j, p', k', v', p + [k]);
    } else if Diverge(p, p' + [k']) {
      AssignFrame(j, p', k', v', p);
    } else {
      // p + [k] and p' + [k'] diverge, so p is a proper prefix of p' + [k'].
      assert p <= p' + [k'] by {
        assert !(p' + [k'] <= p);
      }
      if p == p' {
        AssignEstablishes(j, p', k', v');
      } else {
        assert p <= p' && p != p';
        var rest := p'[|p|..];
        assert p' == p + rest;
        assert rest != [];
        AssignSucceedsIff(j, p', k', v');
        LookupThroughObjects(j, p, rest);
      }
    }
  }

  // ---------------------------------------------------------------------------------------
  // A run of assignment statements

  /** The statement `root.parent[0]...[key] = value`. */
  datatype Write = Write(parent: Path, key: string, value: Json)

  function Target(w: Write): Path
  {
    w.parent + [w.key]
  }

  /** The statements run in order; the first one that throws ends the run. */
  function ApplyWrites(j: Json, ws: seq<Write>): Result<Json, Fault>
    decreases |ws|
  {
    if ws == [] then Success(j)
    else
      var next :- Assign(j, ws[0].parent, ws[0].key, ws[0].value);
      ApplyWrites(next, ws[1..])
  }

  /** No two statements write into each other's subtree. */
  predicate Disjoint(ws: seq<Write>)
  {
    forall a, b :: 0 <= a < b < |ws| ==> Diverge(Target(ws[a]), Target(ws[b]))
  }

  lemma {:induction false} ApplyWritesAppend(j: Json, a: seq<Write>, b: seq<Write>)
    ensures ApplyWrites(j, a + b) ==
      if ApplyWrites(j, a).Failure? then ApplyWrites(j, a) else ApplyWrites(ApplyWrites(j, a).value, b)
    decreases |a|
  {
    if a == [] {
      assert a + b == b;
    } else {
      assert (a + b)[0] == a[0] && (a + b)[1..] == a[1..] + b;
      var step := Assign(j, a[0].parent, a[0].key, a[0].value);
      if step.Success? {
        ApplyWritesAppend(step.value, a[1..], b);
      }
    }
  }

  /** A run of statements changes nothing outside the subtrees it writes and their ancestors. */
  lemma {:induction false} ApplyFrame(j: Json, ws: seq<Write>, q: Path)
    requires ApplyWrites(j, ws).Success?
    requires forall i :: 0 <= i < |ws| ==> Diverge(q, Target(ws[i]))
    ensures Lookup(ApplyWrites(j, ws).value, q) == Lookup(j, q)
    decreases |ws|
  {
    if ws != [] {
      var next := Assign(j, ws[0].parent, ws[0].key, ws[0].value).value;
      assert Diverge(q, Target(ws[0]));
      AssignFrame(j, ws[0].parent, ws[0].key, ws[0].value, q);
      ApplyFrame(next, ws[1..], q);
    }
  }

  lemma {:induction false} ApplyPreservesHolds(j: Json, ws: seq<Write>, w: Write)
    requires ApplyWrites(j, ws).Success?
    requires Holds(j, w.parent, w.key, w.value)
    requires forall i :: 0 <= i < |ws| ==> Diverge(Target(w), Target(ws[i]))
    ensures Holds(ApplyWrites(j, ws).value, w.parent, w.key, w.value)
    decreases |ws|
  {
    if ws != [] {
      var next := Assign(j, ws[0].parent, ws[0].key, ws[0].value).value;
      assert Diverge(Target(w), Target(ws[0]));
      HoldsPreserved(j, w.parent, w.key, w.value, ws[0].parent, ws[0].key, ws[0].value);
      ApplyPreservesHolds(next, ws[1..], w);
    }
  }

  /**
   * A statement whose parent is an object when the run reaches it (no earlier statement writes on
   * the way to it) leaves its value at its target, and later disjoint statements keep it there.
   */
  lemma {:induction false} ApplyEstablishesAtObject(j: Json, ws: seq<Write>, i: nat)
    requires ApplyWrites(j, ws).Success? && Disjoint(ws) && i < |ws|
    requires Lookup(j, ws[i].parent).Some? && Lookup(j, ws[i].parent).value.Obj?
    requires forall h :: 0 <= h < i ==> Diverge(ws[i].parent, Target(ws[h]))
    ensures Lookup(ApplyWrites(j, ws).value, Target(ws[i])) == Some(ws[i].value)
    decreases i
  {
    var w := ws[0];
    var next := Assign(j, w.parent, w.key, w.value).value;
    if i == 0 {
      AssignEstablishes(j, w.parent, w.key, w.value);
      forall h | 0 <= h < |ws[1..]| ensures Diverge(Target(w), Target(ws[1..][h])) {
        assert ws[1..][h] == ws[h + 1];
      }
      ApplyFrame(next, ws[1..], Target(w));
    } else {
      AssignFrame(j, w.parent, w.key, w.value, ws[i].parent);
      assert ws[1..][i - 1] == ws[i];
      forall a, b | 0 <= a < b < |ws[1..]| ensures Diverge(Target(ws[1..][a]), Target(ws[1..][b])) {
        assert ws[1..][a] == ws[a + 1] && ws[1..][b] == ws[b + 1];
      }
      forall h | 0 <= h < i - 1 ensures Diverge(ws[1..][i - 1].parent, Target(ws[1..][h])) {
        assert ws[1..][h] == ws[h + 1];
      }
      ApplyEstablishesAtObject(next, ws[1..], i - 1);
    }
  }

  /** After a successful run of disjoint statements, every target holds what was written to it. */
  lemma {:induction false} ApplyEstablishes(j: Json, ws: seq<Write>)
    requires ApplyWrites(j, ws).Success? && Disjoint(ws)
    ensures forall i :: 0 <= i < |ws| ==> Holds(ApplyWrites(j, ws).value, ws[i].parent, ws[i].key, ws[i].value)
    decreases |ws|
  {
    if ws != [] {
      var r := ApplyWrites(j, ws).value;
      var next := Assign(j, ws[0].parent, ws[0].key, ws[0].value).value;
      AssignEstablishes(j, ws[0].parent, ws[0].key, ws[0].value);
      forall i | 0 <= i < |ws[1..]| ensures Diverge(Target(ws[0]), Target(ws[1..][i])) {
        assert ws[1..][i] == ws[i + 1];
      }
      ApplyPreservesHolds(next, ws[1..], ws[0]);
      ApplyEstablishes(next, ws[1..]);
      forall i | 0 <= i < |ws| ensures Holds(r, ws[i].parent, ws[i].key, ws[i].value) {
        if i > 0 { assert ws[i] == ws[1..][i - 1]; }
      }
    }
  }

  /** Running statements whose targets already hold their values changes nothing. */
  lemma {:induction false} ApplyStable(j: Json, ws: seq<Write>)
    requires forall i :: 0 <= i < |ws| ==> Holds(j, ws[i].parent, ws[i].key, ws[i].value)
    ensures ApplyWrites(j, ws) == Success(j)
    decreases |ws|
  {
    if ws != [] {
      HoldsStable(j, ws[0].parent, ws[0].key, ws[0].value);
      forall i | 0 <= i < |ws[1..]| ensures Holds(j, ws[1..][i].parent, ws[1..][i].key, ws[1..][i].value) {
        assert ws[1..][i] == ws[i + 1];
      }
      ApplyStable(j, ws[1..]);
    }
  }

  /** Running a run of disjoint statements a second time changes nothing. */
  lemma ApplyIdempotent(j: Json, ws: seq<Write>)
    requires ApplyWrites(j, ws).Success? && Disjoint(ws)
    ensures ApplyWrites(ApplyWrites(j, ws).value, ws) == ApplyWrites(j, ws)
  {
    ApplyEstablishes(j, ws);
    ApplyStable(ApplyWrites(j, ws).value, ws);
  }

  /**
   * A run fails when statement `i` writes below a path that leads nowhere and no earlier
   * statement writes there.
   */
  lemma {:induction false} ApplyFailsOnMissing(j: Json, ws: seq<Write>, i: nat, q: Path)
    requires i < |ws| && q <= ws[i].parent && Lookup(j, q).None?
    requires forall h :: 0 <= h < i ==> Diverge(q, Target(ws[h]))
    ensures ApplyWrites(j, ws).Failure?
    decreases i
  {
    var w := ws[0];
    var step := Assign(j, w.parent, w.key, w.value);
    if i == 0 {
      LookupAppend(j, q, w.parent[|q|..]);
      assert q + w.parent[|q|..] == w.parent;
      AssignSucceedsIff(j, w.parent, w.key, w.value);
    } else if step.Success? {
      AssignFrame(j, w.parent, w.key, w.value, q);
      assert ws[1..][i - 1] == ws[i];
      forall h | 0 <= h < i - 1 ensures Diverge(q, Target(ws[1..][h])) {
        assert ws[1..][h] == ws[h + 1];
      }
      ApplyFailsOnMissing(step.value, ws[1..], i - 1, q);
    }
  }
}
