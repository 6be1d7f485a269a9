/** Outcomes of the repository layer's operations.

    The Java layer reports every expected failure as a `GitException`, and a
    handful of its `catch (GitException e)` clauses swallow exactly those.
    Unchecked Java exceptions (a `null` dereferenced, an index out of range,
    an unparseable object id) pass straight through such clauses, so the
    model keeps the two kinds apart.
 */
module Results {

  datatype Failure =
    | GitException(message: string)      // hudson.plugins.git.GitException
    | NullPointer                         // java.lang.NullPointerException
    | IndexOutOfBounds                    // array, list or string index out of range
    | InvalidObjectId(text: string)       // ObjectId.fromString rejected its argument
    | LibraryFailure(message: string)     // an exception raised inside the embedded library
  {
    /** True for the failures that a `catch (GitException e)` clause stops. */
    predicate IsGitException() { GitException? }
  }

  /** A Java reference that may be `null`. */
  datatype Option<+T> = None | Some(value: T)

  datatype Result<+T> = Ok(value: T) | Err(error: Failure) {
    predicate IsFailure() { Err? }

    function PropagateFailure<U>(): Result<U>
      requires Err?
    {
      Err(error)
    }

    function Extract(): T
      requires Ok?
    {
      value
    }
  }

  /** The result of an operation that returns nothing (a Java `void` method). */
  datatype Outcome = Pass | Fail(error: Failure) {
    predicate IsFailure() { Fail? }

    function PropagateFailure(): Outcome
      requires Fail?
    {
      this
    }
  }

  /** The outcome of running `r` only for its failure. */
  function Drop<T>(r: Result<T>): (o: Outcome)
    ensures o.Pass? <==> r.Ok?
    ensures o.Fail? ==> o.error == r.error
  {
    match r
    case Ok(_) => Pass
    case Err(e) => Fail(e)
  }

  /** `prefix` followed by whatever `rest` produced, or the failure of `rest`:
      the state of a list that a loop has filled up to a point, once the loop
      has finished. */
  function Prepend<T>(prefix: seq<T>, rest: Result<seq<T>>): (r: Result<seq<T>>)
    ensures r.Ok? <==> rest.Ok?
    ensures r.Ok? ==> r.value == prefix + rest.value
    ensures r.Err? ==> r.error == rest.error
  {
    match rest
    case Ok(s) => Ok(prefix + s)
    case Err(e) => Err(e)
  }

  /** Nothing before a result leaves it as it is; a prefix before an empty list is the prefix. */
  lemma PrependUnits<T>(prefix: seq<T>, rest: Result<seq<T>>)
    ensures Prepend([], rest) == rest
    ensures Prepend(prefix, Ok([])) == Ok(prefix)
  {
    assert prefix + [] == prefix;
    if rest.Ok? {
      assert [] + rest.value == rest.value;
    }
  }

  lemma PrependAssoc<T>(a: seq<T>, b: seq<T>, rest: Result<seq<T>>)
    ensures Prepend(a, Prepend(b, rest)) == Prepend(a + b, rest)
  {
    if rest.Ok? {
      assert a + (b + rest.value) == (a + b) + rest.value;
    }
  }
}
