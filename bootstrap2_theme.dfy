/**
 * Bootstrap2Theme: the theme bundle, the Bootstrap paging bundle and paging
 * type when the table is pageable, and empty stripe classes.
 */
module Bootstrap2Theme {
  import opened Common
  import opened DatatableBundles
  import opened Extension

  const BOOTSTRAP2_THEME_NAME: string := "bootstrap2"

  /** The table's FEATURE_PAGEABLE option is set to true (null counts as off). */
  predicate PagingEnabled(pageable: Option<bool>) {
    pageable.Some? && pageable.value
  }

  /** The bundles setup adds, in order. */
  function ThemeBundles(pageable: Option<bool>): (r: seq<DatatableBundle>)
    ensures |r| >= 1 && r[0] == DDL_DT_THEME_BOOTSTRAP2
    ensures DDL_DT_PAGING_BOOTSTRAP_SIMPLE in r <==> PagingEnabled(pageable)
    ensures |r| <= 2
  {
    if PagingEnabled(pageable) then [DDL_DT_THEME_BOOTSTRAP2, DDL_DT_PAGING_BOOTSTRAP_SIMPLE]
    else [DDL_DT_THEME_BOOTSTRAP2]
  }

  /** The parameters setup writes, in order. */
  function ThemeParameters(pageable: Option<bool>, pagingType: Option<string>): (r: seq<Parameter>)
    ensures |r| >= 1 && r[|r| - 1] == Parameter(DT_AS_STRIPE_CLASSES, Snippet("[]"), Default)
    ensures Writes(r, DT_PAGINGTYPE) != [] <==> PagingEnabled(pageable) && pagingType.None?
    ensures Writes(r, DT_PAGINGTYPE) != [] ==>
      Writes(r, DT_PAGINGTYPE) == [Parameter(DT_PAGINGTYPE, Paging(BOOTSTRAP_SIMPLE), Default)]
  {
    var stripes := Parameter(DT_AS_STRIPE_CLASSES, Snippet("[]"), Default);
    var paging := Parameter(DT_PAGINGTYPE, Paging(BOOTSTRAP_SIMPLE), Default);
    if PagingEnabled(pageable) && pagingType.None? then
      assert Writes([paging, stripes], DT_PAGINGTYPE) == [paging] by {
        assert [paging, stripes][..1] == [paging];
        assert [paging][..0] == [];
      }
      [paging, stripes]
    else
      assert Writes([stripes], DT_PAGINGTYPE) == [] by {
        assert [stripes][..0] == [];
      }
      [stripes]
  }

  /** setup, given the table's FEATURE_PAGEABLE and FEATURE_PAGINGTYPE options. */
  method Setup(pageable: Option<bool>, pagingType: Option<string>, ext: Contributions)
    modifies ext
    ensures ext.bundles == old(ext.bundles) + ThemeBundles(pageable)
    ensures ext.parameters == old(ext.parameters) + ThemeParameters(pageable, pagingType)
    ensures ext.callbacks == old(ext.callbacks) && ext.afterStartDocumentReady == old(ext.afterStartDocumentReady)
  {
    ext.AddBundle(DDL_DT_THEME_BOOTSTRAP2);
    if pageable.Some? && pageable.value {
      ext.AddBundle(DDL_DT_PAGING_BOOTSTRAP_SIMPLE);
      if pagingType.None? {
        ext.AddParameter(DT_PAGINGTYPE, Paging(BOOTSTRAP_SIMPLE), Default);
      }
    }
    ext.AddParameter(DT_AS_STRIPE_CLASSES, Snippet("[]"), Default);
  }
}
