/**
 * ServerSideFeature: points DataTables at the table's AJAX source. The AJAX
 * parameters go either into the DT_S_AJAX_SOURCE parameter or, when the
 * table names a JavaScript function producing extra parameters, into
 * JavaScript run once the document is ready. The order in which the
 * parameter map is walked is HashMap's, which is unspecified; it is the
 * parameter `order` here, any enumeration of the map's keys.
 */
module ServerSideFeature {
  import opened Common
  import opened Callbacks
  import opened Extension

  const SERVER_SIDE_FEATURE_NAME: string := "serverSide"

  /** `order` lists every key of the map exactly once. */
  predicate Enumerates(order: seq<string>, params: map<string, Option<string>>) {
    && (forall i | 0 <= i < |order| :: order[i] in params)
    && (forall k | k in params :: k in order)
    && (forall i, j | 0 <= i < j < |order| :: order[i] != order[j])
  }

  function ParamObject(tableId: string): string {
    "oTable_" + tableId + "_params"
  }

  /** The assignment of one AJAX parameter: `<paramObject>.ajax.<key> = '<value>';` and a newline. */
  function AjaxLine(paramObject: string, key: string, value: Option<string>): string {
    paramObject + ".ajax." + key + " = '" + JavaText(value) + "';\n"
  }

  /** The assignment lines, in the order the map is walked; each key gets exactly its own line. */
  function AjaxLines(paramObject: string, params: map<string, Option<string>>, order: seq<string>): (r: seq<string>)
    requires forall i | 0 <= i < |order| :: order[i] in params
    ensures |r| == |order|
    ensures forall i | 0 <= i < |order| :: r[i] == AjaxLine(paramObject, order[i], params[order[i]])
  {
    seq(|order|, i requires 0 <= i < |order| => AjaxLine(paramObject, order[i], params[order[i]]))
  }

  /** The head of the JavaScript: the parameter object is whatever the extra-parameters function returns. */
  function AjaxHead(tableId: string, extraParams: string): string {
    ParamObject(tableId) + ".ajax = " + extraParams + "();\n"
  }

  /** Whatever order HashMap uses, the lines are one per key, each assigning that key's value. */
  lemma LinesAreOnePerKey(paramObject: string, params: map<string, Option<string>>, order: seq<string>)
    requires Enumerates(order, params)
    ensures |AjaxLines(paramObject, params, order)| == |params|
    ensures forall line :: line in AjaxLines(paramObject, params, order) <==>
      exists k | k in params :: line == AjaxLine(paramObject, k, params[k])
  {
    var lines := AjaxLines(paramObject, params, order);
    forall line | line in lines
      ensures exists k | k in params :: line == AjaxLine(paramObject, k, params[k])
    {
      var i :| 0 <= i < |lines| && lines[i] == line;
      assert order[i] in params;
    }
    forall k | k in params
      ensures AjaxLine(paramObject, k, params[k]) in lines
    {
      var i :| 0 <= i < |order| && order[i] == k;
      assert lines[i] == AjaxLine(paramObject, k, params[k]);
    }
    EnumerationSize(order, params);
  }

  /** A duplicate-free enumeration of a map's keys is as long as the map. */
  lemma {:induction false} EnumerationSize(order: seq<string>, params: map<string, Option<string>>)
    requires Enumerates(order, params)
    ensures |order| == |params|
    decreases |order|
  {
    if order == [] {
      assert params.Keys == {} by {
        forall k | k in params ensures false {
        }
      }
    } else {
      var k := order[|order| - 1];
      var rest := order[..|order| - 1];
      var smaller := params - {k};
      assert Enumerates(rest, smaller) by {
        forall i | 0 <= i < |rest| ensures rest[i] in smaller {
          assert rest[i] == order[i] && order[i] != order[|order| - 1];
        }
        forall k' | k' in smaller ensures k' in rest {
          assert k' in order;
          var i :| 0 <= i < |order| && order[i] == k';
          assert i != |order| - 1;
          assert rest[i] == k';
        }
      }
      EnumerationSize(rest, smaller);
      assert params.Keys == smaller.Keys + {k};
    }
  }

  /** The StringBuilder loop: the head, then one line per entry in the order the map is walked. */
  method BuildAjaxJs(tableId: string, extraParams: string, params: map<string, Option<string>>, order: seq<string>)
    returns (js: string)
    requires forall i | 0 <= i < |order| :: order[i] in params
    ensures js == AjaxHead(tableId, extraParams) + Concat(AjaxLines(ParamObject(tableId), params, order))
  {
    var paramObject := ParamObject(tableId);
    var head := AjaxHead(tableId, extraParams);
    js := head;
    ghost var lines := AjaxLines(paramObject, params, order);
    var i := 0;
    while i < |order|
      invariant 0 <= i <= |order|
      invariant js == head + Concat(lines[..i])
    {
      var key := order[i];
      var line := AjaxLine(paramObject, key, params[key]);
      ConcatNext(head, lines, i, js);
      js := js + line;
      i := i + 1;
    }
    assert lines[..i] == lines;
  }

  /** setup, given the table's id and its AJAX_SOURCE and AJAX_PARAMS options. */
  method Setup(tableId: string, ajaxSource: Option<string>, extraParams: Option<string>,
               dataPropKey: string, order: seq<string>, init: CallbackType, ext: Contributions)
    requires dataPropKey != "url"
    requires Enumerates(order, AjaxSourceMap(ajaxSource, dataPropKey, "data"))
    modifies ext
    ensures !IsBlank(extraParams) ==>
      && ext.afterStartDocumentReady == old(ext.afterStartDocumentReady) + [
        AjaxHead(tableId, extraParams.value)
        + Concat(AjaxLines(ParamObject(tableId), AjaxSourceMap(ajaxSource, dataPropKey, "data"), order))]
      && ext.parameters == old(ext.parameters)
    ensures IsBlank(extraParams) ==>
      && ext.parameters == old(ext.parameters) + [
        Parameter(DT_S_AJAX_SOURCE, StringMap(AjaxSourceMap(ajaxSource, dataPropKey, "data")), Default)]
      && ext.afterStartDocumentReady == old(ext.afterStartDocumentReady)
    ensures ext.callbacks == old(ext.callbacks) + [(init, AdjustAndDrawCode(tableId))]
    ensures ext.bundles == old(ext.bundles)
  {
    var ajaxParams := AjaxSourceMap(ajaxSource, dataPropKey, "data");
    if !IsBlank(extraParams) {
      var js := BuildAjaxJs(tableId, extraParams.value, ajaxParams, order);
      ext.AppendToAfterStartDocumentReady(js);
    } else {
      ext.AddParameter(DT_S_AJAX_SOURCE, StringMap(ajaxParams), Default);
    }
    ext.AddCallback(init, "oTable_" + tableId + ".columns.adjust().draw();");
  }
}
