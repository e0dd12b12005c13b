/**
 * The two AJAX option processors, AjaxPipeliningProcessor and
 * AjaxReloadFunctionProcessor. Their code is not part of this model; their
 * behaviour is the one their unit tests pin down, completed as described in
 * the README. A processor receives the option's map entry, whose value is
 * still the raw String from the page, rewrites that value in place, and may
 * register internal extensions on the table configuration and bundles on the
 * current request.
 */
module AjaxProcessors {
  import opened Common

  /** The internal extensions these processors register. */
  datatype InternalExtension = PipeliningFeature | AjaxReloadFeature

  /** The map entry handed to a processor; its value is rewritten in place. */
  class MapEntry {
    const key: OptionKey
    var value: Value

    constructor (key: OptionKey, value: Value)
      ensures this.key == key && this.value == value
    {
      this.key := key;
      this.value := value;
    }
  }

  /** What the processors may touch besides the entry. */
  class TableState {
    /** tableConfiguration.getOptions() */
    var options: map<OptionKey, Value>
    /** tableConfiguration.getInternalExtensions(): null until a first registration */
    var internalExtensions: Option<set<InternalExtension>>
    /** the bundles of the request's AssetRequestContext, in the order they were added */
    var requestBundles: seq<string>

    constructor (options: map<OptionKey, Value>)
      ensures this.options == options && internalExtensions.None? && requestBundles == []
    {
      this.options := options;
      internalExtensions := None;
      requestBundles := [];
    }

    /** Adds the bundles to the current request, one after the other. */
    method AddRequestBundles(bundles: seq<string>)
      modifies this
      ensures requestBundles == old(requestBundles) + bundles
      ensures options == old(options) && internalExtensions == old(internalExtensions)
    {
      var i := 0;
      while i < |bundles|
        invariant 0 <= i <= |bundles|
        invariant requestBundles == old(requestBundles) + bundles[..i]
        invariant options == old(options) && internalExtensions == old(internalExtensions)
      {
        requestBundles := requestBundles + [bundles[i]];
        assert bundles[..i + 1] == bundles[..i] + [bundles[i]];
        i := i + 1;
      }
      assert bundles[..i] == bundles;
    }

    /** registerExtension: creates the set on first use. */
    method RegisterExtension(e: InternalExtension)
      modifies this
      ensures internalExtensions == Some(old(internalExtensions).GetOr({}) + {e})
      ensures options == old(options) && requestBundles == old(requestBundles)
    {
      if internalExtensions.None? {
        assert {} + {e} == {e};
        internalExtensions := Some({e});
      } else {
        internalExtensions := Some(internalExtensions.value + {e});
      }
    }
  }

  // -----------------------------------------------------------------------
  // AjaxPipeliningProcessor

  /** Boolean.parseBoolean: "true" in any case is true, anything else (including junk) is false. */
  predicate ParseBoolean(s: string) {
    ToLower(s) == "true"
  }

  lemma ParseBooleanExamples()
    ensures ParseBoolean("true") && ParseBoolean("TRUE") && ParseBoolean("True")
    ensures !ParseBoolean("false") && !ParseBoolean("weird") && !ParseBoolean("")
  {
    assert ToLower("TRUE") == "true";
    assert ToLower("True") == "true";
    assert ToLower("false")[0] == 'f';
    assert ToLower("weird")[0] == 'w';
  }

  /** The option holding the number of pages the pipeline fetches at once. */
  const AJAX_PIPESIZE := OptionKey("AJAX_PIPESIZE")

  /**
   * The table options once pipelining is decided: enabling it sets the pipe
   * size to its default unless a pipe size is already configured; every
   * option already present keeps its value.
   */
  function PipelinedOptions(options: map<OptionKey, Value>, enabled: bool, defaultPipeSize: Value)
    : (r: map<OptionKey, Value>)
    ensures r.Keys == if enabled then options.Keys + {AJAX_PIPESIZE} else options.Keys
    ensures forall k | k in options :: r[k] == options[k]
    ensures enabled && AJAX_PIPESIZE !in options ==> r[AJAX_PIPESIZE] == defaultPipeSize
  {
    if enabled && AJAX_PIPESIZE !in options then options[AJAX_PIPESIZE := defaultPipeSize] else options
  }

  /**
   * The entry's raw value becomes the boolean it spells. When that is true the
   * PipeliningFeature is registered and, when no pipe size is configured, the
   * default one (whose value is a parameter) is set; a pipe size already
   * configured is kept.
   */
  method ProcessPipelining(entry: MapEntry, table: TableState, defaultPipeSize: Value)
    requires entry.value.StringValue?
    modifies entry, table
    ensures entry.value == BooleanValue(ParseBoolean(old(entry.value.s)))
    ensures table.options == PipelinedOptions(old(table.options), ParseBoolean(old(entry.value.s)), defaultPipeSize)
    ensures ParseBoolean(old(entry.value.s)) && AJAX_PIPESIZE !in old(table.options) ==>
      table.options == old(table.options)[AJAX_PIPESIZE := defaultPipeSize]
    ensures ParseBoolean(old(entry.value.s)) && AJAX_PIPESIZE in old(table.options) ==>
      table.options == old(table.options)
    ensures ParseBoolean(old(entry.value.s)) ==>
      table.internalExtensions == Some(old(table.internalExtensions).GetOr({}) + {PipeliningFeature})
    ensures !ParseBoolean(old(entry.value.s)) ==>
      table.internalExtensions == old(table.internalExtensions) && table.options == old(table.options)
    ensures table.requestBundles == old(table.requestBundles)
  {
    var enabled := ToLower(entry.value.s) == "true";
    entry.value := BooleanValue(enabled);
    if enabled {
      table.RegisterExtension(PipeliningFeature);
      if AJAX_PIPESIZE !in table.options {
        table.options := table.options[AJAX_PIPESIZE := defaultPipeSize];
      }
    }
  }

  // -----------------------------------------------------------------------
  // AjaxReloadFunctionProcessor

  /**
   * The `bundles#function` syntax: the value is split on '#'; the first
   * segment is a comma-separated list of bundle names (each trimmed) and the
   * second is the function. A value without '#' is just a function name.
   * Fewer than two segments, or a blank bundle segment, is an error.
   */
  function SplitReloadValue(value: string): Result<(seq<string>, string)> {
    if '#' !in value then Ok(([], value))
    else
      var segments := JavaSplit(value, '#');
      if |segments| < 2 || IsBlankText(segments[0]) then
        Err("Wrong format used in the attribute value: '" + value + "'")
      else
        Ok((TrimAll(JavaSplit(segments[0], ',')), segments[1]))
  }

  function TrimAll(names: seq<string>): (r: seq<string>)
    ensures |r| == |names| && forall i | 0 <= i < |names| :: r[i] == Trim(names[i])
  {
    seq(|names|, i requires 0 <= i < |names| => Trim(names[i]))
  }

  /**
   * On success the entry holds the function name, the bundles are added to
   * the request and the AjaxReloadFeature is registered; on error nothing
   * changes and the DandelionException's message is returned.
   */
  method ProcessReloadFunction(entry: MapEntry, table: TableState) returns (error: Option<string>)
    requires entry.value.StringValue?
    modifies entry, table
    ensures SplitReloadValue(old(entry.value.s)).Err? ==>
      error == Some(SplitReloadValue(old(entry.value.s)).message) && unchanged(entry) && unchanged(table)
    ensures SplitReloadValue(old(entry.value.s)).Ok? ==>
      var parsed := SplitReloadValue(old(entry.value.s)).value;
      && error.None?
      && entry.value == StringValue(parsed.1)
      && table.requestBundles == old(table.requestBundles) + parsed.0
      && table.internalExtensions == Some(old(table.internalExtensions).GetOr({}) + {AjaxReloadFeature})
      && table.options == old(table.options)
  {
    var parsed := SplitReloadValue(entry.value.s);
    if parsed.Err? {
      return Some(parsed.message);
    }
    error := None;
    table.AddRequestBundles(parsed.value.0);
    entry.value := StringValue(parsed.value.1);
    table.RegisterExtension(AjaxReloadFeature);
  }

  /** A value without '#' is a plain function name: it is kept as it is and adds no bundle. */
  lemma PlainFunctionName(f: string)
    requires '#' !in f
    ensures SplitReloadValue(f) == Ok(([], f))
  {
  }

  /** Splitting `x#f` on '#', where neither part holds a '#' and `f` is not empty, gives `[x, f]`. */
  lemma SplitAtHash(x: string, f: string)
    requires '#' !in x && '#' !in f && f != []
    ensures '#' in x + "#" + f
    ensures JavaSplit(x + "#" + f, '#') == [x, f]
  {
    assert (x + "#" + f)[|x|] == '#';
    SplitAllFirstPiece(x, f, '#');
    SplitAllNoSeparator(f, '#');
  }

  /**
   * `b1,b2,...#f` names the bundles b1, b2, ... (each trimmed) and the
   * function f: splitting inverts writing the bundle list, a '#' and the function.
   */
  lemma {:induction false} BundlesThenFunction(parts: seq<string>, f: string)
    requires |parts| >= 1 && f != [] && '#' !in f
    requires forall i | 0 <= i < |parts| :: !IsBlankText(parts[i]) && ',' !in parts[i] && '#' !in parts[i]
    ensures SplitReloadValue(Join(parts, ",") + "#" + f) == Ok((TrimAll(parts), f))
  {
    var x := Join(parts, [',']);
    JoinAvoids(parts, ',', '#');
    SplitAtHash(x, f);
    if |parts| == 1 {
      assert x == parts[0];
      assert ',' !in x;
      assert JavaSplit(x, ',') == parts;
      assert !IsBlankText(x);
      assert SplitReloadValue(x + "#" + f) == Ok((TrimAll(JavaSplit(x, ',')), f));
    } else {
      assert x == parts[0] + [','] + Join(parts[1..], [',']);
      assert x[|parts[0]|] == ',' && ',' in x;
      assert !IsWhitespace(x[|parts[0]|]);
      SplitAllJoin(parts, ',');
      assert parts[|parts| - 1] != [];
    }
  }

  /** A character that is neither in any part nor the separator is not in their join. */
  lemma {:induction false} JoinAvoids(parts: seq<string>, sep: char, c: char)
    requires c != sep && forall i | 0 <= i < |parts| :: c !in parts[i]
    ensures c !in Join(parts, [sep])
    decreases |parts|
  {
    if |parts| >= 2 {
      JoinAvoids(parts[1..], sep, c);
    }
  }

  /**
   * `x#f#rest`: only the first two segments are read, so the bundles come
   * from `x`, the function is `f`, and `rest` is dropped without an error.
   */
  lemma ExtraSegmentsDropped(x: string, f: string, rest: string)
    requires '#' !in x && '#' !in f && '#' !in rest && rest != [] && !IsBlankText(x)
    ensures SplitReloadValue(x + "#" + f + "#" + rest) == Ok((TrimAll(JavaSplit(x, ',')), f))
  {
    var tail := f + ['#'] + rest;
    var v := x + ['#'] + tail;
    assert x + "#" + f + "#" + rest == v;
    assert v[|x|] == '#';
    SplitAllNoSeparator(rest, '#');
    SplitAllFirstPiece(f, rest, '#');
    SplitAllFirstPiece(x, tail, '#');
    var pieces := [x, f, rest];
    assert SplitAll(v, '#') == pieces;
    assert DropTrailingEmpty(pieces) == pieces;
    assert JavaSplit(v, '#') == pieces;
  }

  /** `#f`: the bundle segment is empty, which is an error. */
  lemma EmptyBundleSegmentRejected(f: string)
    requires f != [] && '#' !in f
    ensures SplitReloadValue("#" + f).Err?
  {
    SplitAtHash("", f);
    assert "" + "#" + f == "#" + f;
  }
}
