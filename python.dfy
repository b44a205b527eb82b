/** The Python semantics the integration relies on: None, raising, and list indexing. */
module Python {
  import opened Client

  datatype Option<+T> = None | Some(value: T)

  /** Exceptions raised by the interpreter itself, or passed up from the device client. */
  datatype Error = IndexError | TypeError | AttributeError | NameError | Device(error: ClientError)

  /** The value of an expression that either evaluates or raises. */
  datatype Read<+T> = Ok(value: T) | Raise(error: Error)

  /** `s[i]` on a list: a negative position counts from the end. */
  function Index<T>(s: seq<T>, i: int): Read<T> {
    if 0 <= i < |s| then Ok(s[i])
    else if -|s| <= i < 0 then Ok(s[|s| + i])
    else Raise(IndexError)
  }

  /** `xs[i]` where `xs` may be None, which raises TypeError. */
  function Subscript<T>(xs: Option<seq<T>>, i: int): Read<T> {
    match xs
    case None => Raise(TypeError)
    case Some(s) => Index(s, i)
  }

  /** Lemma: a subscript that evaluates yields an element of the list. */
  lemma SubscriptIsElement<T>(xs: Option<seq<T>>, i: int)
    requires Subscript(xs, i).Ok?
    ensures xs.Some? && Subscript(xs, i).value in xs.value
  {
    var s := xs.value;
    if i < 0 {
      assert s[|s| + i] in s;
    } else {
      assert s[i] in s;
    }
  }
}
