/**
 * The JSP `<datatables:callback>` tag: on the table's first iteration it
 * resolves the callback type, builds the JavaScript call of the user's
 * function, and either appends that call to the callback already registered
 * for the type or registers a new callback holding it.
 *
 * The table configuration's callback list (hasCallback / getCallback /
 * registerCallback) is modelled by `TableCallbacks`, built on Callback's
 * hasCallback and findByType; `View()` abstracts it to a list of
 * (type, function) pairs, and `Register` specifies one tag's effect on it.
 */
module CallbackTag {
  import opened Common
  import opened Callbacks

  /** The callbacks of a table as values: one (type, function) pair per registered callback. */
  type Registry = seq<(CallbackType, JsFunction)>

  predicate UniqueTypes(r: Registry) {
    forall i, j | 0 <= i < j < |r| :: r[i].0 != r[j].0
  }

  function TypesOf(r: Registry): (ts: seq<CallbackType>)
    ensures |ts| == |r| && forall i | 0 <= i < |r| :: ts[i] == r[i].0
  {
    seq(|r|, i requires 0 <= i < |r| => r[i].0)
  }

  /** The code one tag contributes: `[return ]function(arg1,arg2,...);` */
  function CallCode(t: CallbackType, functionName: string): (code: string)
    ensures var prefix := if t.hasReturn then "return " else "";
      && |code| == |prefix| + |functionName| + |Join(t.args, ",")| + 3
      && code[..|prefix|] == prefix
      && code[|prefix|..|prefix| + |functionName|] == functionName
      && code[|prefix| + |functionName|..] == "(" + Join(t.args, ",") + ");"
  {
    (if t.hasReturn then "return " else "") + functionName + "(" + Join(t.args, ",") + ");"
  }

  /**
   * The effect of one tag on the registry: the code is appended to the
   * callback of type `t` when there is one, otherwise a callback of type `t`
   * whose body is the code is added at the end.
   */
  function Register(r: Registry, t: CallbackType, code: string): (r': Registry)
    requires UniqueTypes(r)
    ensures UniqueTypes(r')
    ensures TypesOf(r') == if t in TypesOf(r) then TypesOf(r) else TypesOf(r) + [t]
  {
    var types := TypesOf(r);
    if t in types then
      var i := FirstIndex(types, t);
      r[i := (t, r[i].1.AppendCode(code))]
    else
      r + [(t, JsFunction([code], t.args))]
  }

  /** A type that is not registered yet gets a new callback, at the end, whose body is the code. */
  lemma RegisterNew(r: Registry, t: CallbackType, code: string)
    requires UniqueTypes(r) && t !in TypesOf(r)
    ensures Register(r, t, code) == r + [(t, JsFunction([code], t.args))]
  {
  }

  /** The number of callbacks grows only when the type was not registered yet. */
  lemma RegisterCount(r: Registry, t: CallbackType, code: string)
    requires UniqueTypes(r)
    ensures t in TypesOf(r) ==> |Register(r, t, code)| == |r|
    ensures t !in TypesOf(r) ==> |Register(r, t, code)| == |r| + 1
  {
    assert |TypesOf(Register(r, t, code))| == |Register(r, t, code)|;
  }

  /**
   * Registering touches only the callback of type `t`: its body gains the code
   * at the end (or is exactly the code, with the type's arguments, when it is
   * new); every other callback is unchanged.
   */
  lemma {:induction false} RegisterEffect(r: Registry, t: CallbackType, code: string)
    requires UniqueTypes(r)
    ensures var r' := Register(r, t, code);
      && (forall i | 0 <= i < |r| && r[i].0 != t :: r'[i] == r[i])
      && (forall i | 0 <= i < |r| && r[i].0 == t ::
            r'[i].0 == t && r'[i].1.Body() == r[i].1.Body() + code && r'[i].1.args == r[i].1.args)
      && (t !in TypesOf(r) ==> r'[|r|] == (t, JsFunction([code], t.args)) && r'[|r|].1.Body() == code)
  {
    var types := TypesOf(r);
    if t in types {
      var k := FirstIndex(types, t);
      forall i | 0 <= i < |r| && r[i].0 == t ensures i == k {
        assert types[i] == t;
      }
    } else {
      assert JsFunction([code], t.args).Body() == Concat([code][..0]) + code;
    }
  }

  /** Registering under the type of the last callback, held by no other, appends to that callback. */
  lemma RegisterOntoLast(r: Registry, t: CallbackType, f: JsFunction, code: string)
    requires UniqueTypes(r) && t !in TypesOf(r) && UniqueTypes(r + [(t, f)])
    ensures Register(r + [(t, f)], t, code) == r + [(t, f.AppendCode(code))]
  {
    var before := r + [(t, f)];
    assert TypesOf(before) == TypesOf(r) + [t];
    assert TypesOf(before)[..|r|] == TypesOf(r);
    FirstIndexUnique(TypesOf(before), t, |r|);
    assert before[|r| := (t, f.AppendCode(code))] == r + [(t, f.AppendCode(code))];
  }

  /** A function whose body is all fragments but the last, with the last appended, has them all. */
  lemma AppendLastCode(codes: seq<string>, args: seq<string>)
    requires codes != []
    ensures JsFunction(codes[..|codes| - 1], args).AppendCode(codes[|codes| - 1]) == JsFunction(codes, args)
  {
    assert codes[..|codes| - 1] + [codes[|codes| - 1]] == codes;
  }

  /** Registers every code of `codes`, in order, under the same type. */
  function RegisterAll(r: Registry, t: CallbackType, codes: seq<string>): (r': Registry)
    requires UniqueTypes(r)
    ensures UniqueTypes(r')
    decreases |codes|
  {
    if codes == [] then r
    else Register(RegisterAll(r, t, codes[..|codes| - 1]), t, codes[|codes| - 1])
  }

  /**
   * Several tags of a type that is not registered yet yield exactly one new
   * callback, whose body holds their calls in tag order.
   */
  lemma {:induction false} TagsOfOneTypeShareOneCallback(r: Registry, t: CallbackType, codes: seq<string>)
    requires UniqueTypes(r) && t !in TypesOf(r) && codes != []
    ensures RegisterAll(r, t, codes) == r + [(t, JsFunction(codes, t.args))]
    decreases |codes|
  {
    var n := |codes| - 1;
    if n == 0 {
      assert codes[..n] == [];
      assert codes == [codes[0]];
    } else {
      TagsOfOneTypeShareOneCallback(r, t, codes[..n]);
      var f := JsFunction(codes[..n], t.args);
      assert RegisterAll(r, t, codes) == Register(r + [(t, f)], t, codes[n]);
      RegisterOntoLast(r, t, f, codes[n]);
      AppendLastCode(codes, t.args);
    }
  }

  /** The callback list of a table configuration. */
  class TableCallbacks {
    var callbacks: Option<seq<Callback>>

    function Objects(): set<object>
      reads this
    {
      if callbacks.Some? then set c | c in callbacks.value else {}
    }

    function View(): (r: Registry)
      reads this, Objects()
      ensures |r| == |callbacks.GetOr([])|
    {
      var cs := callbacks.GetOr([]);
      seq(|cs|, i reads cs requires 0 <= i < |cs| => (cs[i].callbackType, cs[i].jsFunction))
    }

    /** No two registered callbacks share a type (so no callback object occurs twice). */
    predicate Valid()
      reads this, Objects()
    {
      UniqueTypes(View())
    }

    constructor ()
      ensures callbacks.None? && Valid()
    {
      callbacks := None;
    }

    method HasCallback(callbackType: CallbackType) returns (found: bool)
      ensures found <==> callbackType in TypesOf(View())
    {
      found := Callbacks.HasCallback(callbackType, callbacks);
      if callbacks.Some? {
        assert Types(callbacks.value) == TypesOf(View());
      }
    }

    method GetCallback(callbackType: CallbackType) returns (c: Callback?)
      requires callbacks.Some?
      ensures c == null <==> callbackType !in TypesOf(View())
      ensures c != null ==> c == callbacks.value[FirstIndex(TypesOf(View()), callbackType)]
    {
      c := FindByType(callbackType, callbacks.value);
      assert Types(callbacks.value) == TypesOf(View());
    }

    /**
     * getCallback(t).appendCode(code): the code goes at the end of the body of
     * the callback of type `t`, and no other callback changes.
     */
    method AppendToCallback(callbackType: CallbackType, code: string)
      requires Valid() && callbacks.Some? && callbackType in TypesOf(View())
      modifies Objects()
      ensures Valid()
      ensures View() == Register(old(View()), callbackType, code)
    {
      var c := GetCallback(callbackType);
      ghost var before := View();
      ghost var i := FirstIndex(TypesOf(before), callbackType);
      assert forall j | 0 <= j < |before| && j != i :: callbacks.value[j] != c by {
        forall j | 0 <= j < |before| && j != i ensures callbacks.value[j] != c {
          assert before[j].0 != before[i].0;
        }
      }
      c.AppendCode(code);
      assert View() == before[i := (callbackType, before[i].1.AppendCode(code))];
    }

    /**
     * What the tag does with its code: append it to the callback already
     * registered for the type, or register a new callback holding it.
     */
    method AddCode(callbackType: CallbackType, code: string)
      requires Valid()
      modifies this, Objects()
      ensures Valid()
      ensures View() == Register(old(View()), callbackType, code)
    {
      var registered := HasCallback(callbackType);
      if registered {
        AppendToCallback(callbackType, code);
      } else {
        ghost var before := View();
        var c := new Callback.FromContent(callbackType, code);
        RegisterCallback(c);
        RegisterNew(before, callbackType, code);
      }
    }

    /** Adds the callback at the end of the list, creating the list when it is null. */
    method RegisterCallback(c: Callback)
      modifies this
      ensures callbacks == Some(old(callbacks).GetOr([]) + [c])
      ensures View() == old(View()) + [(c.callbackType, c.jsFunction)]
    {
      if callbacks.None? {
        var list: seq<Callback> := [c];
        assert list == [] + [c];
        callbacks := Some(list);
      } else {
        callbacks := Some(callbacks.value + [c]);
      }
    }
  }

  /** The `<datatables:callback type="..." function="...">` tag. */
  class CallbackTagHandler {
    /** The `type` attribute, as written in the page. */
    var typeAttribute: string
    /** The `function` attribute: the name of the JavaScript function to call. */
    var functionAttribute: string

    constructor (typeAttribute: string, functionAttribute: string)
      ensures this.typeAttribute == typeAttribute && this.functionAttribute == functionAttribute
    {
      this.typeAttribute := typeAttribute;
      this.functionAttribute := functionAttribute;
    }

    /**
     * doEndTag. `catalogue` lists the CallbackType constants and
     * `possibleValues` is how they are printed in the error message;
     * `processBundles` stands for ProcessorUtils.getValueAfterProcessingBundles.
     * A returned message is the JspException thrown for an unknown type.
     */
    method DoEndTag(firstIteration: bool, catalogue: seq<CallbackType>, possibleValues: string,
                    processBundles: string -> string, table: TableCallbacks)
      returns (error: Option<string>)
      requires table.Valid()
      modifies this, table, table.Objects()
      ensures table.Valid()
      ensures !firstIteration ==> error.None? && unchanged(this) && unchanged(table) && unchanged(old(table.Objects()))
      ensures firstIteration && ValueOf(catalogue, Trim(ToUpper(old(typeAttribute)))).None? ==>
        && error == Some("'" + old(typeAttribute) + "' is not a valid callback type. Possible values are: " + possibleValues)
        && unchanged(this) && unchanged(table) && unchanged(old(table.Objects()))
      ensures firstIteration && ValueOf(catalogue, Trim(ToUpper(old(typeAttribute)))).Some? ==>
        var t := ValueOf(catalogue, Trim(ToUpper(old(typeAttribute)))).value;
        && error.None?
        && typeAttribute == old(typeAttribute)
        && functionAttribute == processBundles(old(functionAttribute))
        && table.View() == Register(old(table.View()), t, CallCode(t, functionAttribute))
    {
      error := None;
      if !firstIteration {
        return;
      }
      var found := ValueOf(catalogue, Trim(ToUpper(typeAttribute)));
      if found.None? {
        error := Some("'" + typeAttribute + "' is not a valid callback type. Possible values are: " + possibleValues);
        return;
      }
      Apply(found.value, processBundles, table);
    }

    /** doEndTag once the type is resolved: process the function, then register or append its call. */
    method Apply(t: CallbackType, processBundles: string -> string, table: TableCallbacks)
      requires table.Valid()
      modifies this, table, table.Objects()
      ensures table.Valid()
      ensures typeAttribute == old(typeAttribute)
      ensures functionAttribute == processBundles(old(functionAttribute))
      ensures table.View() == Register(old(table.View()), t, CallCode(t, functionAttribute))
    {
      functionAttribute := processBundles(functionAttribute);
      assert table.Valid();
      var code := CallCode(t, functionAttribute);
      table.AddCode(t, code);
    }
  }

  /** CallbackType.valueOf: the constant with exactly that name, None (an IllegalArgumentException) otherwise. */
  function ValueOf(catalogue: seq<CallbackType>, name: string): (r: Option<CallbackType>)
    ensures r.Some? ==> r.value in catalogue && r.value.constant == name
    ensures r.None? <==> forall t | t in catalogue :: t.constant != name
  {
    if catalogue == [] then None
    else if catalogue[0].constant == name then Some(catalogue[0])
    else ValueOf(catalogue[1..], name)
  }
}
