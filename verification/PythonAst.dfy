/** Python syntax trees, as far as the source rewriters look at them, and the splice that puts a policy's own
    statements at the head of a module. */
module PythonAst {
  import opened Options

  datatype Alias = Alias(name: string, asname: Option<string>)
  datatype Keyword = Keyword(arg: Option<string>, value: Tree)   // None: **value
  datatype Target = To(id: string) | Into(place: Tree)

  datatype Tree =
    | Name(id: string)
    | Text(text: string)                                  // a string constant
    | Attribute(value: Tree, attr: string)
    | Call(func: Tree, args: seq<Tree>, keywords: seq<Keyword>)
    | Assign(targets: seq<Target>, right: Tree)
    | ExprStmt(expr: Tree)
    | ImportFrom(source: string, level: nat, names: seq<Alias>)
    | Block(items: seq<Tree>)                             // a statement list
    | Node(kind: string, children: seq<Tree>)             // everything else, at any depth

  predicate IsDocstring(t: Tree) {
    t.ExprStmt? && t.expr.Text?
  }

  predicate IsFuture(t: Tree) {
    t.ImportFrom? && t.source == "__future__"
  }

  function FutureRun(body: seq<Tree>, from: nat): (n: nat)
    requires from <= |body|
    ensures from <= n <= |body|
    ensures (forall k :: from <= k < n ==> IsFuture(body[k])) && (n < |body| ==> !IsFuture(body[n]))
    decreases |body| - from
  {
    if from < |body| && IsFuture(body[from]) then FutureRun(body, from + 1) else from
  }

  /** The first n statements are the docstring, if there is one, and every __future__ import that follows at once. */
  predicate IsHead(body: seq<Tree>, n: nat) {
    && n <= |body|
    && (forall k :: 0 <= k < n ==> (k == 0 && body[0].ExprStmt? && body[0].expr.Text?) || (body[k].ImportFrom? && body[k].source == "__future__"))
    && (n < |body| ==> !(body[n].ImportFrom? && body[n].source == "__future__"))
    && (n == 0 && body != [] ==> !(body[0].ExprStmt? && body[0].expr.Text?))
  }

  /** After the docstring and the __future__ imports. */
  function Insertion(body: seq<Tree>): (n: nat)
    ensures n <= |body| && IsHead(body, n)
  {
    FutureRun(body, if body != [] && IsDocstring(body[0]) then 1 else 0)
  }

  function Splice(body: seq<Tree>, prefix: seq<Tree>): seq<Tree> {
    body[..Insertion(body)] + prefix + body[Insertion(body)..]
  }

  /** The statements that are not among the policy's own. */
  function Without(body: seq<Tree>, own: seq<Tree>): seq<Tree> {
    if body == [] then []
    else Without(body[..|body| - 1], own) + if body[|body| - 1] in own then [] else [body[|body| - 1]]
  }

  method WithoutLoop(body: seq<Tree>, own: seq<Tree>) returns (r: seq<Tree>)
    ensures r == Without(body, own)
  {
    r := [];
    for i := 0 to |body|
      invariant r == Without(body[..i], own)
    {
      assert body[..i + 1][..i] == body[..i];
      if body[i] !in own {
        r := r + [body[i]];
      }
    }
    assert body[..|body|] == body;
  }

  method SpliceLoop(body: seq<Tree>, prefix: seq<Tree>) returns (r: seq<Tree>)
    ensures r == Splice(body, prefix)
    ensures exists n: nat :: IsHead(body, n) && r == body[..n] + prefix + body[n..]
  {
    var insertion := 0;
    if body != [] && IsDocstring(body[0]) {
      insertion := 1;
    }
    while insertion < |body| && IsFuture(body[insertion])
      invariant insertion <= |body|
      invariant FutureRun(body, insertion) == Insertion(body)
    {
      insertion := insertion + 1;
    }
    r := body[..insertion] + prefix + body[insertion..];
    assert IsHead(body, insertion);
  }

  lemma {:induction false} WithoutConcat(a: seq<Tree>, b: seq<Tree>, own: seq<Tree>)
    ensures Without(a + b, own) == Without(a, own) + Without(b, own)
    decreases |b|
  {
    if b == [] {
      assert a + b == a;
    } else {
      assert (a + b)[..|a + b| - 1] == a + b[..|b| - 1];
      WithoutConcat(a, b[..|b| - 1], own);
    }
  }

  lemma {:induction false} WithoutNone(body: seq<Tree>, own: seq<Tree>)
    requires forall i :: 0 <= i < |body| ==> body[i] !in own
    ensures Without(body, own) == body
  {
    if body != [] {
      WithoutNone(body[..|body| - 1], own);
      assert body == body[..|body| - 1] + [body[|body| - 1]];
    }
  }

  lemma {:induction false} WithoutAll(body: seq<Tree>, own: seq<Tree>)
    requires forall i :: 0 <= i < |body| ==> body[i] in own
    ensures Without(body, own) == []
  {
    if body != [] { WithoutAll(body[..|body| - 1], own); }
  }

  lemma {:induction false} WithoutFrom(body: seq<Tree>, own: seq<Tree>)
    ensures forall t :: t in Without(body, own) ==> t in body && t !in own
    ensures |Without(body, own)| <= |body|
    ensures (exists i :: 0 <= i < |body| && body[i] in own) ==> |Without(body, own)| < |body|
  {
    if body != [] {
      WithoutFrom(body[..|body| - 1], own);
    }
  }

  lemma WithoutMiddle(a: seq<Tree>, prefix: seq<Tree>, b: seq<Tree>)
    ensures Without(a + prefix + b, prefix) == Without(a + b, prefix)
  {
    hide Without;
    WithoutConcat(a + prefix, b, prefix);
    WithoutConcat(a, prefix, prefix);
    WithoutAll(prefix, prefix);
    WithoutConcat(a, b, prefix);
  }

  /** Taking the policy's statements out of a spliced module gives back the module. */
  lemma WithoutSplice(body: seq<Tree>, prefix: seq<Tree>)
    ensures Without(Splice(body, prefix), prefix) == Without(body, prefix)
  {
    hide Without, Insertion;
    var n := Insertion(body);
    WithoutMiddle(body[..n], prefix, body[n..]);
    assert body[..n] + body[n..] == body;
  }
}
