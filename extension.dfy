/**
 * What an extension contributes to a table while its `setup` runs: asset
 * bundles, DataTables parameters (each with the way it is merged into the
 * configuration), callbacks, and JavaScript to run once the document is
 * ready. AbstractExtension, which holds these accumulators, is not part of
 * this model; its add* methods are modelled as appends, in call order.
 */
module Extension {
  import opened Common
  import opened DatatableBundles
  import opened Callbacks

  /** The DataTables parameters the modelled extensions write (DTConstants). */
  datatype DtParam = DT_DOM | DT_S_AJAX_SOURCE | DT_PAGINGTYPE | DT_AS_STRIPE_CLASSES | DT_DEFER_RENDER

  /** addParameter(name, value) versus addParameter(name, value, Parameter.Mode.APPEND). */
  datatype ParamMode = Default | APPEND

  /** PagingType, of which the modelled code uses one constant. */
  datatype PagingType = BOOTSTRAP_SIMPLE

  datatype ParamValue =
    | Text(s: string)
    | Snippet(js: string)
    | StringMap(entries: map<string, Option<string>>)
    | Flag(b: bool)
    | Paging(pagingType: PagingType)

  datatype Parameter = Parameter(name: DtParam, value: ParamValue, mode: ParamMode)

  /**
   * The DT_S_AJAX_SOURCE value both AJAX features build: the AJAX source under
   * "url" and the feature's data value under the data-property key.
   */
  function AjaxSourceMap(ajaxSource: Option<string>, dataPropKey: string, data: string)
    : (r: map<string, Option<string>>)
    requires dataPropKey != "url"
    ensures r.Keys == {"url", dataPropKey}
    ensures r["url"] == ajaxSource && r[dataPropKey] == Some(data)
  {
    map["url" := ajaxSource, dataPropKey := Some(data)]
  }

  class Contributions {
    var bundles: seq<DatatableBundle>
    var parameters: seq<Parameter>
    var callbacks: seq<(CallbackType, string)>
    var afterStartDocumentReady: seq<string>

    constructor ()
      ensures bundles == [] && parameters == [] && callbacks == [] && afterStartDocumentReady == []
    {
      bundles := [];
      parameters := [];
      callbacks := [];
      afterStartDocumentReady := [];
    }

    method AddBundle(b: DatatableBundle)
      modifies this
      ensures bundles == old(bundles) + [b]
      ensures parameters == old(parameters) && callbacks == old(callbacks)
      ensures afterStartDocumentReady == old(afterStartDocumentReady)
    {
      bundles := bundles + [b];
    }

    method AddParameter(name: DtParam, value: ParamValue, mode: ParamMode)
      modifies this
      ensures parameters == old(parameters) + [Parameter(name, value, mode)]
      ensures bundles == old(bundles) && callbacks == old(callbacks)
      ensures afterStartDocumentReady == old(afterStartDocumentReady)
    {
      parameters := parameters + [Parameter(name, value, mode)];
    }

    method AddCallback(callbackType: CallbackType, code: string)
      modifies this
      ensures callbacks == old(callbacks) + [(callbackType, code)]
      ensures bundles == old(bundles) && parameters == old(parameters)
      ensures afterStartDocumentReady == old(afterStartDocumentReady)
    {
      callbacks := callbacks + [(callbackType, code)];
    }

    method AppendToAfterStartDocumentReady(js: string)
      modifies this
      ensures afterStartDocumentReady == old(afterStartDocumentReady) + [js]
      ensures bundles == old(bundles) && parameters == old(parameters) && callbacks == old(callbacks)
    {
      afterStartDocumentReady := afterStartDocumentReady + [js];
    }
  }

  /** The INIT callback code of the AJAX features: re-adjust the columns and redraw the table. */
  function AdjustAndDrawCode(tableId: string): string {
    "oTable_" + tableId + ".columns.adjust().draw();"
  }

  /** The parameters of a list that write a given DataTables parameter. */
  function Writes(parameters: seq<Parameter>, name: DtParam): (r: seq<Parameter>)
    ensures |r| <= |parameters|
    ensures forall p | p in r :: p in parameters && p.name == name
    ensures forall p | p in parameters && p.name == name :: p in r
  {
    if parameters == [] then []
    else
      var rest := Writes(parameters[..|parameters| - 1], name);
      var last := parameters[|parameters| - 1];
      assert parameters == parameters[..|parameters| - 1] + [last];
      if last.name == name then rest + [last] else rest
  }

  lemma {:induction false} WritesAppend(a: seq<Parameter>, b: seq<Parameter>, name: DtParam)
    ensures Writes(a + b, name) == Writes(a, name) + Writes(b, name)
    decreases |b|
  {
    if b == [] {
      assert a + b == a;
    } else {
      var b' := b[..|b| - 1];
      assert (a + b)[..|a + b| - 1] == a + b';
      WritesAppend(a, b', name);
    }
  }
}
