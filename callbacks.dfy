/**
 * DataTables callbacks: a callback type (a constant of the CallbackType
 * catalogue, with its argument names and whether the callback must return a
 * value) and the JavaScript function run for it. A `Callback` is shared by
 * reference between the table configuration and the code that appends to it,
 * so it is a class.
 */
module Callbacks {
  import opened Common

  /** A constant of CallbackType: its name, its JavaScript arguments, and whether it returns a value. */
  datatype CallbackType = CallbackType(constant: string, args: seq<string>, hasReturn: bool)

  /** A JavaScript function: its body, as the code fragments appended so far, and its parameter names. */
  datatype JsFunction = JsFunction(code: seq<string>, args: seq<string>) {
    /** The body text: the fragments in order. */
    function Body(): string {
      Concat(code)
    }

    /** JsFunction.appendCode: the fragment goes at the end of the body. */
    function AppendCode(fragment: string): (r: JsFunction)
      ensures r.args == args
      ensures r.Body() == Body() + fragment
      ensures |r.code| == |code| + 1 && r.code[..|code|] == code
    {
      var r := JsFunction(code + [fragment], args);
      assert r.code[..|code|] == code;
      r
    }
  }

  class Callback {
    var callbackType: CallbackType
    var jsFunction: JsFunction

    /** A callback whose function has the given content as body and the type's arguments as parameters. */
    constructor FromContent(callbackType: CallbackType, functionContent: string)
      ensures this.callbackType == callbackType
      ensures jsFunction.Body() == functionContent && jsFunction.args == callbackType.args
      ensures jsFunction == JsFunction([functionContent], callbackType.args)
    {
      this.callbackType := callbackType;
      var f := JsFunction([functionContent], callbackType.args);
      assert f.code[..|f.code| - 1] == [];
      assert f.Body() == Concat([]) + functionContent;
      jsFunction := f;
    }

    constructor (callbackType: CallbackType, jsFunction: JsFunction)
      ensures this.callbackType == callbackType && this.jsFunction == jsFunction
    {
      this.callbackType := callbackType;
      this.jsFunction := jsFunction;
    }

    method SetType(callbackType: CallbackType)
      modifies this
      ensures this.callbackType == callbackType && jsFunction == old(jsFunction)
    {
      this.callbackType := callbackType;
    }

    method SetFunction(jsFunction: JsFunction)
      modifies this
      ensures this.jsFunction == jsFunction && callbackType == old(callbackType)
    {
      this.jsFunction := jsFunction;
    }

    /** Appends code at the end of the function body; the type and the arguments stay. */
    method AppendCode(code: string)
      modifies this
      ensures callbackType == old(callbackType)
      ensures jsFunction == old(jsFunction).AppendCode(code)
      ensures jsFunction.Body() == old(jsFunction.Body()) + code
    {
      jsFunction := jsFunction.AppendCode(code);
    }
  }

  /** The types of the callbacks, in list order. */
  function Types(callbacks: seq<Callback>): (r: seq<CallbackType>)
    reads callbacks
    ensures |r| == |callbacks|
  {
    seq(|callbacks|, i reads callbacks requires 0 <= i < |callbacks| => callbacks[i].callbackType)
  }

  /** The position of the first occurrence of `x` in `s`. */
  function FirstIndex<T(==)>(s: seq<T>, x: T): (i: nat)
    requires x in s
    ensures i < |s| && s[i] == x && x !in s[..i]
  {
    if s[0] == x then 0
    else
      var i := FirstIndex(s[1..], x) + 1;
      assert s[..i] == [s[0]] + s[1..][..i - 1];
      i
  }

  /** Callback.hasCallback: whether a callback of that type is in the (possibly null) list. */
  method HasCallback(callbackType: CallbackType, callbacks: Option<seq<Callback>>) returns (found: bool)
    ensures found <==> callbacks.Some? && callbackType in Types(callbacks.value)
  {
    if callbacks.Some? {
      var cs := callbacks.value;
      var i := 0;
      while i < |cs|
        invariant 0 <= i <= |cs|
        invariant callbackType !in Types(cs)[..i]
      {
        if cs[i].callbackType == callbackType {
          assert Types(cs)[i] == callbackType;
          return true;
        }
        assert Types(cs)[..i + 1] == Types(cs)[..i] + [cs[i].callbackType];
        i := i + 1;
      }
      assert Types(cs)[..i] == Types(cs);
    }
    return false;
  }

  /** Callback.findByType: the first callback of that type in list order, null when there is none. */
  method FindByType(callbackType: CallbackType, callbacks: seq<Callback>) returns (r: Callback?)
    ensures r == null <==> callbackType !in Types(callbacks)
    ensures r != null ==> r == callbacks[FirstIndex(Types(callbacks), callbackType)]
  {
    var i := 0;
    while i < |callbacks|
      invariant 0 <= i <= |callbacks|
      invariant callbackType !in Types(callbacks)[..i]
    {
      if callbacks[i].callbackType == callbackType {
        ghost var types := Types(callbacks);
        assert types[i] == callbackType && types[..i] == Types(callbacks)[..i];
        FirstIndexUnique(types, callbackType, i);
        return callbacks[i];
      }
      assert Types(callbacks)[..i + 1] == Types(callbacks)[..i] + [callbacks[i].callbackType];
      i := i + 1;
    }
    assert Types(callbacks)[..i] == Types(callbacks);
    return null;
  }

  /** A position holding `x` with no earlier `x` is the first index of `x`. */
  lemma FirstIndexUnique<T>(s: seq<T>, x: T, i: nat)
    requires i < |s| && s[i] == x && x !in s[..i]
    ensures FirstIndex(s, x) == i
  {
  }
}
