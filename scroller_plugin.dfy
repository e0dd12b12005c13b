/**
 * ScrollerPlugin: always asks for the Scroller bundle and writes the DOM
 * parameter once, so that the 'S' (Scroller) control ends up in it.
 */
module ScrollerPlugin {
  import opened Common
  import opened DatatableBundles
  import opened Extension

  const SCROLLER_PLUGIN_NAME: string := "scroller"

  /** The DOM when the table uses jQuery UI: header and footer bars around the table, then Scroller. */
  const JQUERYUI_DOM: string := "<\"H\"lfr>t<\"F\"ip>S"

  const PLAIN_DOM: string := "frtiS"

  /**
   * The DOM parameter setup writes. A DOM the table already has gets "S"
   * appended to it; otherwise the whole DOM is set, depending on jQuery UI.
   */
  function DomParameter(dom: Option<string>, jqueryUiEnabled: Option<bool>): (r: Parameter)
    ensures r.name == DT_DOM && r.value.Text?
    ensures r.mode == APPEND <==> !IsBlank(dom)
    ensures !IsBlank(dom) ==> r.value.s == "S"
    ensures IsBlank(dom) ==> r.value.s == (if jqueryUiEnabled == Some(true) then JQUERYUI_DOM else PLAIN_DOM)
  {
    if !IsBlank(dom) then Parameter(DT_DOM, Text("S"), APPEND)
    else if jqueryUiEnabled.Some? && jqueryUiEnabled.value then Parameter(DT_DOM, Text(JQUERYUI_DOM), Default)
    else Parameter(DT_DOM, Text(PLAIN_DOM), Default)
  }

  /** Whatever the options, the value written ends with the Scroller control 'S'. */
  lemma DomEndsWithScroller(dom: Option<string>, jqueryUiEnabled: Option<bool>)
    ensures var s := DomParameter(dom, jqueryUiEnabled).value.s; |s| > 0 && s[|s| - 1] == 'S'
  {
    var s := DomParameter(dom, jqueryUiEnabled).value.s;
    if !IsBlank(dom) {
      assert s == "S";
    } else if jqueryUiEnabled == Some(true) {
      assert s == JQUERYUI_DOM && |s| == 17 && s[16] == 'S';
    } else {
      assert s == PLAIN_DOM && |s| == 5 && s[4] == 'S';
    }
  }

  /** setup: the Scroller bundle, then exactly one DOM parameter write. */
  method Setup(dom: Option<string>, jqueryUiEnabled: Option<bool>, ext: Contributions)
    modifies ext
    ensures ext.bundles == old(ext.bundles) + [DATATABLES_SCROLLER]
    ensures ext.parameters == old(ext.parameters) + [DomParameter(dom, jqueryUiEnabled)]
    ensures ext.callbacks == old(ext.callbacks) && ext.afterStartDocumentReady == old(ext.afterStartDocumentReady)
  {
    ext.AddBundle(DATATABLES_SCROLLER);
    if !IsBlank(dom) {
      ext.AddParameter(DT_DOM, Text("S"), APPEND);
    } else {
      if jqueryUiEnabled.Some? && jqueryUiEnabled.value {
        ext.AddParameter(DT_DOM, Text(JQUERYUI_DOM), Default);
      } else {
        ext.AddParameter(DT_DOM, Text(PLAIN_DOM), Default);
      }
    }
  }

  /** One setup adds exactly one write of the DOM parameter to whatever was written before. */
  lemma OneDomWrite(before: seq<Parameter>, dom: Option<string>, jqueryUiEnabled: Option<bool>)
    ensures Writes(before + [DomParameter(dom, jqueryUiEnabled)], DT_DOM)
      == Writes(before, DT_DOM) + [DomParameter(dom, jqueryUiEnabled)]
  {
    var p := DomParameter(dom, jqueryUiEnabled);
    WritesAppend(before, [p], DT_DOM);
    assert [p][..0] == [];
  }
}
