/**
 * SortingFeature: asks for the bundle of every sort type used by a column of
 * the last header row. SortType.findByName is not part of this model; it is
 * the oracle `findByName`, returning the bundle of the sort type it finds.
 */
module SortingFeature {
  import opened Common
  import opened DatatableBundles
  import opened Extension

  const SORTING_FEATURE_NAME: string := "sorting"

  /** A column's SORTTYPE option is set and names a known sort type. */
  predicate Recognised(sortType: Option<string>, findByName: string -> Option<DatatableBundle>) {
    !IsBlank(sortType) && findByName(sortType.value).Some?
  }

  /** The bundles setup adds for columns with these SORTTYPE options, in column order. */
  function SortBundles(sortTypes: seq<Option<string>>, findByName: string -> Option<DatatableBundle>)
    : (r: seq<DatatableBundle>)
    ensures |r| <= |sortTypes|
    ensures forall b | b in r :: exists i | 0 <= i < |sortTypes| ::
      Recognised(sortTypes[i], findByName) && findByName(sortTypes[i].value) == Some(b)
    ensures forall i | 0 <= i < |sortTypes| && Recognised(sortTypes[i], findByName) ::
      findByName(sortTypes[i].value).value in r
  {
    if sortTypes == [] then []
    else
      var init := sortTypes[..|sortTypes| - 1];
      var last := sortTypes[|sortTypes| - 1];
      var rest := SortBundles(init, findByName);
      assert forall i | 0 <= i < |init| :: init[i] == sortTypes[i];
      if Recognised(last, findByName) then rest + [findByName(last.value).value] else rest
  }

  /** Columns contribute independently and in order: the bundles of a split row are the bundles of its parts. */
  lemma {:induction false} SortBundlesAppend(a: seq<Option<string>>, b: seq<Option<string>>,
                                              findByName: string -> Option<DatatableBundle>)
    ensures SortBundles(a + b, findByName) == SortBundles(a, findByName) + SortBundles(b, findByName)
    decreases |b|
  {
    if b == [] {
      assert a + b == a;
    } else {
      var b' := b[..|b| - 1];
      assert (a + b)[..|a + b| - 1] == a + b';
      SortBundlesAppend(a, b', findByName);
    }
  }

  /** Columns without a usable sort type are skipped silently: they add nothing. */
  lemma {:induction false} UnrecognisedColumnsAddNothing(sortTypes: seq<Option<string>>,
                                                        findByName: string -> Option<DatatableBundle>)
    requires forall i | 0 <= i < |sortTypes| :: !Recognised(sortTypes[i], findByName)
    ensures SortBundles(sortTypes, findByName) == []
    decreases |sortTypes|
  {
    if sortTypes != [] {
      UnrecognisedColumnsAddNothing(sortTypes[..|sortTypes| - 1], findByName);
    }
  }

  /** setup: one bundle per recognised column, in column order; no parameter and no callback. */
  method Setup(sortTypes: seq<Option<string>>, findByName: string -> Option<DatatableBundle>, ext: Contributions)
    modifies ext
    ensures ext.bundles == old(ext.bundles) + SortBundles(sortTypes, findByName)
    ensures ext.parameters == old(ext.parameters) && ext.callbacks == old(ext.callbacks)
    ensures ext.afterStartDocumentReady == old(ext.afterStartDocumentReady)
  {
    var i := 0;
    while i < |sortTypes|
      invariant 0 <= i <= |sortTypes|
      invariant ext.bundles == old(ext.bundles) + SortBundles(sortTypes[..i], findByName)
      invariant ext.parameters == old(ext.parameters) && ext.callbacks == old(ext.callbacks)
      invariant ext.afterStartDocumentReady == old(ext.afterStartDocumentReady)
    {
      var sortTypeString := sortTypes[i];
      assert sortTypes[..i + 1][..i] == sortTypes[..i];
      if !IsBlank(sortTypeString) {
        var sortType := findByName(sortTypeString.value);
        if sortType.Some? {
          ext.AddBundle(sortType.value);
        }
      }
      i := i + 1;
    }
    assert sortTypes[..i] == sortTypes;
  }
}
