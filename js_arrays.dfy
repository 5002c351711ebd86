/**
 * The two pieces of JavaScript array semantics that the genome scale's lookups
 * rely on: `Array.prototype.findIndex` and reading an element by index.
 */
module JsArrays {
  import opened Wrappers

  /** The exception `findIndex` throws when its argument is not callable. */
  datatype JsError = TypeError

  /**
   * What a caller hands to `findIndex`: a callback, or a plain value (such as a
   * string) that JavaScript cannot call.
   */
  datatype FindIndexArgument<!T> = Callable(test: T -> bool) | NotCallable(value: T)

  /**
   * `a.findIndex(test)` for a callable `test`: the index of the first element the
   * test accepts, or -1 when it accepts none.
   */
  function FindIndex<T>(a: seq<T>, test: T -> bool): (i: int)
    ensures -1 <= i < |a|
    ensures i == -1 <==> forall j :: 0 <= j < |a| ==> !test(a[j])
    ensures 0 <= i ==> test(a[i]) && forall j :: 0 <= j < i ==> !test(a[j])
  {
    if a == [] then -1
    else if test(a[0]) then 0
    else
      var k := FindIndex(a[1..], test);
      if k == -1 then -1 else k + 1
  }

  /**
   * `a.findIndex(arg)` for any argument: the ECMAScript definition of
   * `Array.prototype.findIndex` throws a TypeError before looking at any element
   * when its argument is not callable.
   */
  function CallFindIndex<T>(a: seq<T>, arg: FindIndexArgument<T>): Result<int, JsError>
  {
    match arg
    case Callable(test) => Success(FindIndex(a, test))
    case NotCallable(_) => Failure(TypeError)
  }

  /** `a[i]`: the element at index `i`, or `undefined` outside the array (so also at -1). */
  function At<T>(a: seq<T>, i: int): Option<T>
  {
    if 0 <= i < |a| then Some(a[i]) else None
  }
}
