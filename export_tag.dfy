/**
 * The JSP `<datatables:export>` tag: on the table's first iteration it gets
 * (or creates and stores) the export configuration of its format, copies the
 * tag's attributes into it, and builds the export URL.
 *
 * The attributes are checked in the order of the source, and a rejected HTTP
 * method or orientation throws after the earlier attributes have already been
 * copied: the configuration keeps those writes. UrlUtils is not part of this
 * model: the URL is the list of its parameters, in the order they are added,
 * on top of either the current URI or the custom URL, and the final
 * processing of the URL is the oracle `processUrl`. StringUtils.escape is the
 * oracle `escape`, and the lists of possible enum values in the messages are
 * parameters.
 */
module ExportTag {
  import opened Common

  datatype HttpMethod = GET | POST

  datatype Orientation = PORTRAIT | LANDSCAPE

  function MethodName(m: HttpMethod): string {
    match m
    case GET => "GET"
    case POST => "POST"
  }

  function OrientationName(o: Orientation): string {
    match o
    case PORTRAIT => "PORTRAIT"
    case LANDSCAPE => "LANDSCAPE"
  }

  /** HttpMethod.valueOf. */
  function HttpMethodValueOf(name: string): Option<HttpMethod>
  {
    if name == "GET" then Some(GET) else if name == "POST" then Some(POST) else None
  }

  /** Orientation.valueOf. */
  function OrientationValueOf(name: string): Option<Orientation>
  {
    if name == "PORTRAIT" then Some(PORTRAIT) else if name == "LANDSCAPE" then Some(LANDSCAPE) else None
  }

  /** The request parameters of an export URL (ExportUtils and WebConstants). */
  datatype UrlParam =
    | EXPORT_TYPE | EXPORT_NAME | EXPORT_EXTENSION | EXPORT_ORIENTATION | EXPORT_MIME_TYPE
    | EXPORT_HEADER | EXPORT_AUTOSIZE | EXPORT_ID | EXPORT_FORMAT | EXPORT_IN_PROGRESS
    | DANDELION_ASSET_FILTER_STATE

  /** What the URL is built on: the current request URI (filter export) or the tag's URL (controller export). */
  datatype UrlBase = CurrentUri | CustomUrl(url: string)

  datatype ExportUrl = ExportUrl(base: UrlBase, params: seq<(UrlParam, string)>)

  /** The tag's attributes; null is None. */
  datatype ExportAttributes = ExportAttributes(
    fileName: Option<string>, fileExtension: Option<string>, exportType: string, labelText: Option<string>,
    cssStyle: Option<string>, cssClass: Option<string>, includeHeader: Option<bool>, autoSize: Option<bool>,
    url: Option<string>, httpMethod: Option<string>, orientation: Option<string>, mimeType: Option<string>,
    escapeXml: bool)

  /** The fields of an export configuration that the JSP tag and the Thymeleaf URL attribute write. */
  datatype ConfState = ConfState(
    hasCustomUrl: bool, fileName: Option<string>, fileExtension: Option<string>, labelText: Option<string>,
    cssClass: Option<string>, cssStyle: Option<string>, httpMethod: Option<HttpMethod>,
    orientation: Option<Orientation>, mimeType: Option<string>, includeHeader: Option<bool>,
    autoSize: Option<bool>, url: Option<string>, custom: bool)

  class ExportConf {
    const format: string
    var hasCustomUrl: bool
    var fileName: Option<string>
    var fileExtension: Option<string>
    var labelText: Option<string>
    var cssClass: Option<string>
    var cssStyle: Option<string>
    var httpMethod: Option<HttpMethod>
    var orientation: Option<Orientation>
    var mimeType: Option<string>
    var includeHeader: Option<bool>
    var autoSize: Option<bool>
    var url: Option<string>
    /** Set by the Thymeleaf URL attribute only. */
    var custom: bool

    /**
     * new ExportConf(format). What that constructor leaves in the fields the
     * tag writes is `initial`, since ExportConf's own code is not part of this
     * model.
     */
    constructor (format: string, initial: ConfState)
      ensures this.format == format && State() == initial
    {
      this.format := format;
      hasCustomUrl := initial.hasCustomUrl;
      fileName := initial.fileName;
      fileExtension := initial.fileExtension;
      labelText := initial.labelText;
      cssClass := initial.cssClass;
      cssStyle := initial.cssStyle;
      httpMethod := initial.httpMethod;
      orientation := initial.orientation;
      mimeType := initial.mimeType;
      includeHeader := initial.includeHeader;
      autoSize := initial.autoSize;
      url := initial.url;
      custom := initial.custom;
    }

    function State(): ConfState
      reads this
    {
      ConfState(hasCustomUrl, fileName, fileExtension, labelText, cssClass, cssStyle, httpMethod, orientation,
                mimeType, includeHeader, autoSize, url, custom)
    }

    /** setCustom(true) then setUrl(url), as the Thymeleaf URL attribute does. */
    method MarkCustom(url: Option<string>)
      modifies this
      ensures State() == old(State()).(custom := true, url := url)
    {
      custom := true;
      this.url := url;
    }

    /** The writes that come before the HTTP method: the URL mode and the non-blank text attributes. */
    method CopyFirst(a: ExportAttributes, escape: (bool, string) -> string)
      modifies this
      ensures State() == CopyFirstAttributes(old(State()), a, escape)
    {
      hasCustomUrl := !IsBlank(a.url);
      fileName := OverrideTrimmed(a.fileName, fileName);
      fileExtension := OverrideRaw(a.fileExtension, fileExtension);
      labelText := OverrideLabel(a, escape, labelText);
      cssClass := OverrideTrimmed(a.cssClass, cssClass);
      cssStyle := OverrideTrimmed(a.cssStyle, cssStyle);
    }

    /** The writes that come after the orientation: MIME type, header and auto-size flags, and the URL. */
    method CopyLast(a: ExportAttributes, url: string)
      modifies this
      ensures State() == CopyLastAttributes(old(State()), a, url)
    {
      mimeType := OverrideTrimmed(a.mimeType, mimeType);
      if a.includeHeader.Some? {
        includeHeader := a.includeHeader;
      }
      if a.autoSize.Some? {
        autoSize := a.autoSize;
      }
      this.url := Some(url);
    }
  }

  /** The table's export configurations, each stored under its own format. */
  class ExportConfiguration {
    var confs: map<string, ExportConf>

    predicate Valid()
      reads this
    {
      && (forall f | f in confs :: confs[f].format == f)
      && (forall f1, f2 | f1 in confs && f2 in confs && f1 != f2 :: confs[f1] != confs[f2])
    }

    /** The state of a newly created configuration, per format. */
    const initial: string -> ConfState

    constructor (initial: string -> ConfState)
      ensures confs == map[] && this.initial == initial && Valid()
    {
      confs := map[];
      this.initial := initial;
    }

    /** The configuration stored under a format, created and stored first if there is none. */
    method GetOrCreate(format: string) returns (conf: ExportConf)
      requires Valid()
      modifies this
      ensures Valid()
      ensures confs == old(confs)[format := conf] && conf.format == format
      ensures format in old(confs) ==> conf == old(confs[format])
      ensures format !in old(confs) ==> fresh(conf) && conf.State() == initial(format)
    {
      if format in confs {
        conf := confs[format];
      } else {
        conf := new ExportConf(format, initial(format));
        confs := confs[format := conf];
      }
    }
  }

  /** The format key: the type, lower-cased, then trimmed. */
  function Format(exportType: string): string {
    Trim(ToLower(exportType))
  }

  /** A text attribute overrides the configured value, trimmed, only when it is not blank. */
  function OverrideTrimmed(attribute: Option<string>, current: Option<string>): Option<string> {
    if IsBlank(attribute) then current else Some(Trim(attribute.value))
  }

  /** The file extension overrides the configured value as given, only when it is not blank. */
  function OverrideRaw(attribute: Option<string>, current: Option<string>): Option<string> {
    if IsBlank(attribute) then current else attribute
  }

  /** The label overrides the configured value, trimmed and then escaped as escapeXml says, only when it is not blank. */
  function OverrideLabel(a: ExportAttributes, escape: (bool, string) -> string, current: Option<string>)
    : Option<string>
  {
    if IsBlank(a.labelText) then current else Some(escape(a.escapeXml, Trim(a.labelText.value)))
  }

  /**
   * The attributes copied before the HTTP method is looked at: the URL mode,
   * then the file name (trimmed), extension (as given), label (trimmed and
   * escaped), CSS class and CSS style (trimmed).
   */
  function CopyFirstAttributes(s: ConfState, a: ExportAttributes, escape: (bool, string) -> string): ConfState {
    s.(hasCustomUrl := !IsBlank(a.url),
       fileName := OverrideTrimmed(a.fileName, s.fileName),
       fileExtension := OverrideRaw(a.fileExtension, s.fileExtension),
       labelText := OverrideLabel(a, escape, s.labelText),
       cssClass := OverrideTrimmed(a.cssClass, s.cssClass),
       cssStyle := OverrideTrimmed(a.cssStyle, s.cssStyle))
  }

  /** The HTTP method attribute: absent (None), a method, or the error message. */
  function ParseMethod(a: ExportAttributes, possibleMethods: string): Result<Option<HttpMethod>>
  {
    if IsBlank(a.httpMethod) then Ok(None)
    else
      match HttpMethodValueOf(Trim(ToUpper(a.httpMethod.value)))
      case Some(m) => Ok(Some(m))
      case None => Err("'" + a.httpMethod.value + "' is not a valid HTTP method. Possible values are: " + possibleMethods)
  }

  /** The orientation attribute: absent (None), an orientation, or the error message. */
  function ParseOrientation(a: ExportAttributes, possibleOrientations: string): Result<Option<Orientation>>
  {
    if IsBlank(a.orientation) then Ok(None)
    else
      match OrientationValueOf(Trim(ToUpper(a.orientation.value)))
      case Some(o) => Ok(Some(o))
      case None => Err("'" + a.orientation.value + "' is not a valid orientation. Possible values are: " + possibleOrientations)
  }

  function OptionalParam(name: UrlParam, value: Option<string>): (r: seq<(UrlParam, string)>)
    ensures forall p | p in r :: p.0 == name
  {
    if IsBlank(value) then [] else [(name, value.value)]
  }

  function FlagParam(name: UrlParam, value: Option<bool>): (r: seq<(UrlParam, string)>)
    ensures forall p | p in r :: p.0 == name
  {
    if value.None? then [] else [(name, BoolText(value.value))]
  }

  /** The parameters added before the orientation: the export type, then the file name and extension as written. */
  function UrlHead(a: ExportAttributes): (r: seq<(UrlParam, string)>)
    ensures |r| >= 1 && r[0] == (EXPORT_TYPE, if IsBlank(a.url) then "f" else "c")
    ensures forall p | p in r :: p.0 != EXPORT_ORIENTATION
  {
    [(EXPORT_TYPE, if IsBlank(a.url) then "f" else "c")]
    + OptionalParam(EXPORT_NAME, a.fileName)
    + OptionalParam(EXPORT_EXTENSION, a.fileExtension)
  }

  /** The parameters that end every export URL. */
  function FinalParams(a: ExportAttributes, tableId: string): (r: seq<(UrlParam, string)>)
    ensures forall p | p in r :: p.0 != EXPORT_ORIENTATION
  {
    [(EXPORT_ID, tableId), (EXPORT_FORMAT, Format(a.exportType)),
     (EXPORT_IN_PROGRESS, "y"), (DANDELION_ASSET_FILTER_STATE, "false")]
  }

  /**
   * A concatenation starts with its first part's first element and ends with
   * the last `n` elements of its second part, when that part has `n`.
   */
  lemma ConcatEnds<T>(x: seq<T>, y: seq<T>, n: nat)
    requires n <= |y|
    ensures |x| >= 1 ==> (x + y)[0] == x[0]
    ensures (x + y)[|x + y| - n..] == y[|y| - n..]
  {
  }

  /** The parameters added after the orientation: MIME type (trimmed), the two flags, then the final ones. */
  function UrlTail(a: ExportAttributes, tableId: string): (r: seq<(UrlParam, string)>)
    ensures forall p | p in r :: p.0 != EXPORT_ORIENTATION
    ensures |r| >= 4 && r[|r| - 4..] == FinalParams(a, tableId)
  {
    var optional := (if IsBlank(a.mimeType) then [] else [(EXPORT_MIME_TYPE, Trim(a.mimeType.value))])
      + FlagParam(EXPORT_HEADER, a.includeHeader)
      + FlagParam(EXPORT_AUTOSIZE, a.autoSize);
    var final := FinalParams(a, tableId);
    ConcatEnds(optional, final, 4);
    assert final[|final| - 4..] == final;
    optional + final
  }

  /** The parameters of the export URL, in the order they are added. */
  function UrlParams(a: ExportAttributes, tableId: string): (r: seq<(UrlParam, string)>)
    ensures |r| >= 5 && r[0] == (EXPORT_TYPE, if IsBlank(a.url) then "f" else "c")
    ensures r[|r| - 4..] == FinalParams(a, tableId)
  {
    var head := UrlHead(a);
    var front := head + OptionalParam(EXPORT_ORIENTATION, a.orientation);
    var tail := UrlTail(a, tableId);
    ConcatEnds(head, OptionalParam(EXPORT_ORIENTATION, a.orientation), 0);
    ConcatEnds(front, tail, 4);
    front + tail
  }

  /**
   * The URL carries the orientation exactly when the attribute is not blank,
   * and it carries it as written, untrimmed and in its original case.
   */
  lemma OrientationInUrl(a: ExportAttributes, tableId: string, v: string)
    ensures (EXPORT_ORIENTATION, v) in UrlParams(a, tableId) <==> !IsBlank(a.orientation) && v == a.orientation.value
  {
    var p := (EXPORT_ORIENTATION, v);
    assert p !in UrlHead(a) && p !in UrlTail(a, tableId);
  }

  function ExportUrlOf(a: ExportAttributes, tableId: string): (r: ExportUrl)
    ensures r.base == (if IsBlank(a.url) then CurrentUri else CustomUrl(Trim(a.url.value)))
  {
    ExportUrl(if IsBlank(a.url) then CurrentUri else CustomUrl(Trim(a.url.value)), UrlParams(a, tableId))
  }

  /** The writes after the orientation, ending with the processed export URL. */
  function CopyLastAttributes(s: ConfState, a: ExportAttributes, url: string): ConfState {
    s.(mimeType := OverrideTrimmed(a.mimeType, s.mimeType),
       includeHeader := if a.includeHeader.None? then s.includeHeader else a.includeHeader,
       autoSize := if a.autoSize.None? then s.autoSize else a.autoSize,
       url := Some(url))
  }

  /** UrlUtils.getProcessedUrl applied to the export URL. */
  function ProcessedUrl(a: ExportAttributes, tableId: string, processUrl: ExportUrl -> string): string {
    processUrl(ExportUrlOf(a, tableId))
  }

  /**
   * The configuration after doEndTag, and the JspException's message if one is
   * thrown. A rejected method leaves the method and everything after it
   * untouched; a rejected orientation does the same from the orientation on.
   */
  function Configured(s: ConfState, a: ExportAttributes, tableId: string, escape: (bool, string) -> string,
                      processUrl: ExportUrl -> string, possibleMethods: string, possibleOrientations: string)
    : (ConfState, Option<string>)
  {
    var s1 := CopyFirstAttributes(s, a, escape);
    match ParseMethod(a, possibleMethods)
    case Err(message) => (s1, Some(message))
    case Ok(m) =>
      ConfiguredFromOrientation(if m.Some? then s1.(httpMethod := m) else s1, a, tableId, processUrl,
                                possibleOrientations)
  }

  /** The rest of doEndTag once the HTTP method is accepted: the orientation, then the last attributes and the URL. */
  function ConfiguredFromOrientation(s: ConfState, a: ExportAttributes, tableId: string,
                                     processUrl: ExportUrl -> string, possibleOrientations: string)
    : (ConfState, Option<string>)
  {
    match ParseOrientation(a, possibleOrientations)
    case Err(message) => (s, Some(message))
    case Ok(o) =>
      (CopyLastAttributes(if o.Some? then s.(orientation := o) else s, a, ProcessedUrl(a, tableId, processUrl)), None)
  }

  /** Blank optional attributes never overwrite what the configuration already holds. */
  lemma BlankAttributesKeepValues(s: ConfState, a: ExportAttributes, tableId: string,
                                  escape: (bool, string) -> string, processUrl: ExportUrl -> string,
                                  possibleMethods: string, possibleOrientations: string)
    requires IsBlank(a.fileName) && IsBlank(a.fileExtension) && IsBlank(a.labelText) && IsBlank(a.cssClass)
    requires IsBlank(a.cssStyle) && IsBlank(a.httpMethod) && IsBlank(a.orientation) && IsBlank(a.mimeType)
    requires a.includeHeader.None? && a.autoSize.None?
    ensures var r := Configured(s, a, tableId, escape, processUrl, possibleMethods, possibleOrientations);
      && r.1.None?
      && r.0 == s.(hasCustomUrl := !IsBlank(a.url), url := Some(ProcessedUrl(a, tableId, processUrl)))
  {
  }

  /** A rejected orientation: the method (when valid) is already set, but neither the orientation nor the URL is. */
  lemma RejectedOrientation(s: ConfState, a: ExportAttributes, tableId: string,
                            escape: (bool, string) -> string, processUrl: ExportUrl -> string,
                            possibleMethods: string, possibleOrientations: string)
    requires ParseMethod(a, possibleMethods).Ok? && ParseOrientation(a, possibleOrientations).Err?
    ensures var r := Configured(s, a, tableId, escape, processUrl, possibleMethods, possibleOrientations);
      && r.1 == Some("'" + a.orientation.value + "' is not a valid orientation. Possible values are: "
                     + possibleOrientations)
      && r.0.orientation == s.orientation && r.0.url == s.url
      && r.0.httpMethod == (if IsBlank(a.httpMethod) then s.httpMethod else ParseMethod(a, possibleMethods).value)
  {
  }

  /** The spelling of a constant's name, in upper or lower case, is not blank and normalises back to the name. */
  lemma NameNormalises(name: string, raw: string)
    requires name != [] && forall i | 0 <= i < |name| :: 'A' <= name[i] <= 'Z'
    requires raw == name || raw == ToLower(name)
    ensures !IsBlankText(raw) && Trim(ToUpper(raw)) == name
  {
    assert !IsWhitespace(raw[0]);
    if raw == name {
      ToUpperKeepsUpper(name);
    } else {
      ToUpperUndoesToLower(name);
    }
    TrimKeepsUnpadded(name);
  }

  /** A method attribute naming a constant, in upper or lower case, is accepted as that constant. */
  lemma MethodNamesAccepted(a: ExportAttributes, m: HttpMethod, possibleMethods: string)
    requires a.httpMethod == Some(MethodName(m)) || a.httpMethod == Some(ToLower(MethodName(m)))
    ensures ParseMethod(a, possibleMethods) == Ok(Some(m))
  {
    var name := MethodName(m);
    assert !IsBlankText(a.httpMethod.value) && Trim(ToUpper(a.httpMethod.value)) == name by {
      NameNormalises(name, a.httpMethod.value);
    }
  }

  /** An orientation attribute naming a constant, in upper or lower case, is accepted as that constant. */
  lemma OrientationNamesAccepted(a: ExportAttributes, o: Orientation, possibleOrientations: string)
    requires a.orientation == Some(OrientationName(o)) || a.orientation == Some(ToLower(OrientationName(o)))
    ensures ParseOrientation(a, possibleOrientations) == Ok(Some(o))
  {
    var name := OrientationName(o);
    assert !IsBlankText(a.orientation.value) && Trim(ToUpper(a.orientation.value)) == name by {
      NameNormalises(name, a.orientation.value);
    }
  }

  /**
   * A rejected HTTP method: the attributes before it are copied, the JspException
   * quotes the attribute as given, and neither the method nor anything after it
   * (orientation, MIME type, flags, URL) is written.
   */
  lemma RejectedMethod(s: ConfState, a: ExportAttributes, tableId: string,
                       escape: (bool, string) -> string, processUrl: ExportUrl -> string,
                       possibleMethods: string, possibleOrientations: string)
    requires !IsBlank(a.httpMethod) && HttpMethodValueOf(Trim(ToUpper(a.httpMethod.value))).None?
    ensures var r := Configured(s, a, tableId, escape, processUrl, possibleMethods, possibleOrientations);
      && r.1 == Some("'" + a.httpMethod.value + "' is not a valid HTTP method. Possible values are: "
                     + possibleMethods)
      && r.0 == CopyFirstAttributes(s, a, escape)
      && r.0.(hasCustomUrl := s.hasCustomUrl, fileName := s.fileName, fileExtension := s.fileExtension,
              labelText := s.labelText, cssClass := s.cssClass, cssStyle := s.cssStyle) == s
  {
  }

  lemma CopyFirstTwice(s: ConfState, a: ExportAttributes, escape: (bool, string) -> string)
    ensures CopyFirstAttributes(CopyFirstAttributes(s, a, escape), a, escape) == CopyFirstAttributes(s, a, escape)
  {
  }

  lemma CopyLastTwice(s: ConfState, a: ExportAttributes, url: string)
    ensures CopyLastAttributes(CopyLastAttributes(s, a, url), a, url) == CopyLastAttributes(s, a, url)
  {
  }

  /** Evaluating the same tag twice on a configuration leaves it as one evaluation does. */
  lemma ConfiguredIdempotent(s: ConfState, a: ExportAttributes, tableId: string,
                             escape: (bool, string) -> string, processUrl: ExportUrl -> string,
                             possibleMethods: string, possibleOrientations: string)
    ensures var r := Configured(s, a, tableId, escape, processUrl, possibleMethods, possibleOrientations);
      Configured(r.0, a, tableId, escape, processUrl, possibleMethods, possibleOrientations) == r
  {
    var s1 := CopyFirstAttributes(s, a, escape);
    var r := Configured(s, a, tableId, escape, processUrl, possibleMethods, possibleOrientations);
    CopyFirstTwice(s, a, escape);
    match ParseMethod(a, possibleMethods)
    case Err(_) =>
    case Ok(m) =>
      var s2 := if m.Some? then s1.(httpMethod := m) else s1;
      match ParseOrientation(a, possibleOrientations)
      case Err(_) =>
        assert CopyFirstAttributes(s2, a, escape) == s2;
      case Ok(o) =>
        var s3 := if o.Some? then s2.(orientation := o) else s2;
        var url := ProcessedUrl(a, tableId, processUrl);
        CopyLastTwice(s3, a, url);
        assert r.0 == CopyLastAttributes(s3, a, url);
        var t1 := CopyFirstAttributes(r.0, a, escape);
        var t2 := if m.Some? then t1.(httpMethod := m) else t1;
        var t3 := if o.Some? then t2.(orientation := o) else t2;
        assert CopyLastAttributes(t3, a, url) == r.0;
  }

  /**
   * Copies the tag's attributes into one configuration, in the source's order,
   * stopping at the first rejected enum value.
   */
  method Configure(conf: ExportConf, a: ExportAttributes, tableId: string, escape: (bool, string) -> string,
                   processUrl: ExportUrl -> string, possibleMethods: string, possibleOrientations: string)
    returns (error: Option<string>)
    modifies conf
    ensures (conf.State(), error)
      == Configured(old(conf.State()), a, tableId, escape, processUrl, possibleMethods, possibleOrientations)
  {
    conf.CopyFirst(a, escape);
    var m := ParseMethod(a, possibleMethods);
    if m.Err? {
      return Some(m.message);
    }
    if m.value.Some? {
      conf.httpMethod := m.value;
    }
    error := ConfigureFromOrientation(conf, a, tableId, processUrl, possibleOrientations);
  }

  method ConfigureFromOrientation(conf: ExportConf, a: ExportAttributes, tableId: string,
                                  processUrl: ExportUrl -> string, possibleOrientations: string)
    returns (error: Option<string>)
    modifies conf
    ensures (conf.State(), error)
      == ConfiguredFromOrientation(old(conf.State()), a, tableId, processUrl, possibleOrientations)
  {
    var o := ParseOrientation(a, possibleOrientations);
    if o.Err? {
      return Some(o.message);
    }
    if o.value.Some? {
      conf.orientation := o.value;
    }
    conf.CopyLast(a, ProcessedUrl(a, tableId, processUrl));
    error := None;
  }

  /** Gets or creates the configuration of the tag's format, then configures it; the other formats keep theirs. */
  method ConfigureFormat(a: ExportAttributes, tableId: string, exports: ExportConfiguration,
                         escape: (bool, string) -> string, processUrl: ExportUrl -> string,
                         possibleMethods: string, possibleOrientations: string)
    returns (error: Option<string>)
    requires exports.Valid()
    modifies exports, exports.confs.Values
    ensures exports.Valid()
    ensures var format := Format(a.exportType);
      var before := if format in old(exports.confs) then old(exports.confs[format].State()) else exports.initial(format);
      && exports.confs.Keys == old(exports.confs.Keys) + {format}
      && (format in old(exports.confs) ==> exports.confs[format] == old(exports.confs[format]))
      && (exports.confs[format].State(), error)
         == Configured(before, a, tableId, escape, processUrl, possibleMethods, possibleOrientations)
    ensures forall f | f in old(exports.confs) && f != Format(a.exportType) ::
      exports.confs[f] == old(exports.confs[f]) && exports.confs[f].State() == old(exports.confs[f].State())
  {
    var format := Format(a.exportType);
    var conf := exports.GetOrCreate(format);
    ghost var before := conf.State();
    assert before == if format in old(exports.confs) then old(exports.confs[format].State()) else exports.initial(format);
    error := Configure(conf, a, tableId, escape, processUrl, possibleMethods, possibleOrientations);
  }

  /** The tag's effect on the table's export configurations: only the first iteration configures anything. */
  method DoEndTag(firstIteration: bool, a: ExportAttributes, tableId: string, exports: ExportConfiguration,
                  escape: (bool, string) -> string, processUrl: ExportUrl -> string,
                  possibleMethods: string, possibleOrientations: string)
    returns (error: Option<string>)
    requires exports.Valid()
    modifies exports, exports.confs.Values
    ensures exports.Valid()
    ensures !firstIteration ==>
      && error.None? && exports.confs == old(exports.confs)
      && forall f | f in exports.confs :: exports.confs[f].State() == old(exports.confs[f].State())
    ensures firstIteration ==>
      var format := Format(a.exportType);
      var before := if format in old(exports.confs) then old(exports.confs[format].State()) else exports.initial(format);
      && exports.confs.Keys == old(exports.confs.Keys) + {format}
      && (format in old(exports.confs) ==> exports.confs[format] == old(exports.confs[format]))
      && (exports.confs[format].State(), error)
         == Configured(before, a, tableId, escape, processUrl, possibleMethods, possibleOrientations)
      && forall f | f in old(exports.confs) && f != format ::
           exports.confs[f] == old(exports.confs[f]) && exports.confs[f].State() == old(exports.confs[f].State())
  {
    error := None;
    if firstIteration {
      error := ConfigureFormat(a, tableId, exports, escape, processUrl, possibleMethods, possibleOrientations);
    }
  }
}
