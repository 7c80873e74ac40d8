/** Values shared by every module: optional values, results, and the errors the
    JavaScript code throws. */
module Base {

  datatype Option<+T> = None | Some(value: T)

  /** The outcome of a JavaScript call that either returns a value or throws. */
  datatype Result<+T> = Ok(value: T) | Err(error: Error) {
    predicate IsFailure() { Err? }

    function PropagateFailure<U>(): Result<U>
      requires Err?
    {
      Err(error)
    }

    function Extract(): T
      requires Ok?
    {
      value
    }
  }

  /** The results of `f` over `xs`, concatenated in order: a loop whose body
      either appends to its output or throws, so the first failure aborts it. */
  function Collect<T, R>(xs: seq<T>, f: T -> Result<seq<R>>): Result<seq<R>> {
    if xs == [] then Ok([])
    else
      var init :- Collect(xs[..|xs| - 1], f);
      var last :- f(xs[|xs| - 1]);
      Ok(init + last)
  }

  /** A loop over one element does what the body does for it. */
  lemma CollectSingle<T, R>(x: T, f: T -> Result<seq<R>>)
    ensures Collect([x], f) == f(x)
  {
    assert [x][..0] == [];
    if f(x).Ok? {
      assert [] + f(x).value == f(x).value;
    }
  }

  /** Once a prefix fails, the whole loop fails with the same error. */
  lemma {:induction false} CollectPrefixError<T, R>(xs: seq<T>, f: T -> Result<seq<R>>, i: nat)
    requires i <= |xs| && Collect(xs[..i], f).Err?
    ensures Collect(xs, f) == Collect(xs[..i], f)
  {
    if i < |xs| {
      assert xs[..|xs| - 1][..i] == xs[..i];
      CollectPrefixError(xs[..|xs| - 1], f, i);
    } else {
      assert xs[..i] == xs;
    }
  }

  /** The loop fails exactly when some element fails, and then with the
      error of the first one. */
  lemma {:induction false} CollectError<T, R>(xs: seq<T>, f: T -> Result<seq<R>>)
    ensures Collect(xs, f).Err? <==> exists i :: 0 <= i < |xs| && f(xs[i]).Err?
    ensures Collect(xs, f).Err? ==>
      exists i :: 0 <= i < |xs| && f(xs[i]) == Err(Collect(xs, f).error) && (forall j :: 0 <= j < i ==> f(xs[j]).Ok?)
  {
    if xs != [] {
      var init := xs[..|xs| - 1];
      CollectError(init, f);
      forall j | 0 <= j < |init| ensures init[j] == xs[j] {
      }
      if Collect(init, f).Ok? && f(xs[|xs| - 1]).Err? {
        assert forall j :: 0 <= j < |xs| - 1 ==> f(xs[j]).Ok?;
      }
    }
  }

  /** One more element: the loop appends what the body returns for it. */
  lemma CollectSnoc<T, R>(xs: seq<T>, x: T, f: T -> Result<seq<R>>)
    requires Collect(xs, f).Ok? && f(x).Ok?
    ensures Collect(xs + [x], f) == Ok(Collect(xs, f).value + f(x).value)
  {
    assert (xs + [x])[..|xs|] == xs;
  }

  /** When the loop succeeds, its output is that of every element, in order. */
  lemma {:induction false} CollectAppend<T, R>(xs: seq<T>, ys: seq<T>, f: T -> Result<seq<R>>)
    requires Collect(xs, f).Ok? && Collect(ys, f).Ok?
    ensures Collect(xs + ys, f) == Ok(Collect(xs, f).value + Collect(ys, f).value)
  {
    if ys == [] {
      assert xs + ys == xs;
      assert Collect(xs, f).value + [] == Collect(xs, f).value;
    } else {
      var init := ys[..|ys| - 1];
      assert (xs + ys)[..|xs + ys| - 1] == xs + init;
      assert (xs + ys)[|xs + ys| - 1] == ys[|ys| - 1];
      CollectAppend(xs, init, f);
      var a, b, c := Collect(xs, f).value, Collect(init, f).value, f(ys[|ys| - 1]).value;
      assert a + b + c == a + (b + c);
    }
  }

  /** What a successful loop collects: exactly what the bodies produced. */
  lemma {:induction false} CollectMembers<T, R>(xs: seq<T>, f: T -> Result<seq<R>>, y: R)
    requires Collect(xs, f).Ok?
    ensures y in Collect(xs, f).value <==> exists i :: 0 <= i < |xs| && f(xs[i]).Ok? && y in f(xs[i]).value
  {
    if xs != [] {
      var init := xs[..|xs| - 1];
      CollectMembers(init, f, y);
      assert forall i :: 0 <= i < |init| ==> init[i] == xs[i];
      if y in f(xs[|xs| - 1]).value {
        assert f(xs[|xs| - 1]).Ok? && y in f(xs[|xs| - 1]).value;
      }
    }
  }

  /** The outcome of a JavaScript call that either returns nothing or throws. */
  datatype Outcome = Pass | Fail(error: Error)

  /** What the code throws; each message is kept as data and rendered by `Message`. */
  datatype Error =
    /** a uri registered a second time */
    | DuplicateFile
    /** an export specifier form the adapter does not handle yet */
    | TodoSpecifier(specifierType: string)
    /** a syntax node whose Babel `type` is not handled */
    | UnsupportedNodeType(nodeType: string)
    /** an exported TypeScript statement whose kind is not handled */
    | UnsupportedStatementKind(kindName: NodeName)
    /** a node without source location reaching the JavaScript adapter's `push` */
    | NodeHasNoLocation
    /** the engine's TypeError for reading `property` of `null` */
    | ReadOfNull(property: string)
    /** the engine's TypeError for reading `property` of `undefined` */
    | ReadOfUndefined(property: string)
    /** a failure of a collaborator that is not modelled (reading or parsing a file) */
    | ForeignFailure(description: string)

  /** What `getNodeName` returns: the name of a `ts.SyntaxKind` member, or the
      kind number itself when no member has that value. */
  datatype NodeName = KindName(name: string) | KindNumber(kind: int)

  /** The message string of a thrown `Error`. */
  function Message(e: Error): string {
    match e
    case DuplicateFile => "Cannot check the same file twice"
    case TodoSpecifier(t) => "TODO " + t
    case UnsupportedNodeType(t) => t + " isn't supported"
    case UnsupportedStatementKind(KindName(n)) => "statement of kind " + n + " isn't supported"
    case UnsupportedStatementKind(KindNumber(k)) => "statement of kind " + IntToString(k) + " isn't supported"
    case NodeHasNoLocation => "Node has no location"
    case ReadOfNull(p) => "Cannot read properties of null (reading '" + p + "')"
    case ReadOfUndefined(p) => "Cannot read properties of undefined (reading '" + p + "')"
    case ForeignFailure(d) => d
  }

  /** Decimal rendering of an integer, as a template literal prints a number. */
  function IntToString(n: int): string
    decreases if n < 0 then 1 - n else n
  {
    if n < 0 then "-" + IntToString(-n)
    else if n < 10 then [DigitChar(n)]
    else IntToString(n / 10) + [DigitChar(n % 10)]
  }

  function DigitChar(d: int): char
    requires 0 <= d < 10
  {
    "0123456789"[d]
  }
}
