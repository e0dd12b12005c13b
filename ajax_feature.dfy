/**
 * AjaxFeature: its code is not part of this model; its contributions are the
 * ones its unit test pins down. It defers rendering, points DataTables at the
 * AJAX source with an empty data property, registers the INIT callback that
 * redraws the table, and adds no bundle.
 */
module AjaxFeature {
  import opened Common
  import opened Callbacks
  import opened Extension

  /** The parameters setup writes: deferred rendering and the AJAX source. */
  function AjaxParameters(ajaxSource: Option<string>, dataPropKey: string): (r: seq<Parameter>)
    requires dataPropKey != "url"
    ensures Writes(r, DT_DEFER_RENDER) == [Parameter(DT_DEFER_RENDER, Flag(true), Default)]
    ensures Writes(r, DT_S_AJAX_SOURCE)
      == [Parameter(DT_S_AJAX_SOURCE, StringMap(AjaxSourceMap(ajaxSource, dataPropKey, "")), Default)]
    ensures |r| == 2
  {
    var defer := Parameter(DT_DEFER_RENDER, Flag(true), Default);
    var source := Parameter(DT_S_AJAX_SOURCE, StringMap(AjaxSourceMap(ajaxSource, dataPropKey, "")), Default);
    assert [defer, source][..1] == [defer];
    assert [defer][..0] == [];
    [defer, source]
  }

  /** setup, given the table's id and AJAX_SOURCE option. */
  method Setup(tableId: string, ajaxSource: Option<string>, dataPropKey: string, init: CallbackType,
               ext: Contributions)
    requires dataPropKey != "url"
    modifies ext
    ensures ext.parameters == old(ext.parameters) + AjaxParameters(ajaxSource, dataPropKey)
    ensures ext.callbacks == old(ext.callbacks) + [(init, AdjustAndDrawCode(tableId))]
    ensures ext.bundles == old(ext.bundles) && ext.afterStartDocumentReady == old(ext.afterStartDocumentReady)
  {
    ext.AddParameter(DT_DEFER_RENDER, Flag(true), Default);
    ext.AddParameter(DT_S_AJAX_SOURCE, StringMap(AjaxSourceMap(ajaxSource, dataPropKey, "")), Default);
    ext.AddCallback(init, AdjustAndDrawCode(tableId));
  }
}
