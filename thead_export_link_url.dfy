/**
 * The Thymeleaf attributes `dt:<format>:url` on a table header: the format is
 * the second `:`-separated piece of the attribute's name, lower-cased and
 * trimmed; the format's export configuration is got or created as the JSP
 * export tag does, marked custom, and given the attribute's value as its URL.
 *
 * The evaluation of the attribute's value (Utils.parseElementAttribute) is
 * not part of this model: `attrValue` is its result.
 */
module TheadExportLinkUrl {
  import opened Common
  import opened ExportTag

  /** The format named by an attribute, or None when its name has no second piece (an index out of bounds). */
  function AttributeFormat(attributeName: string): (r: Option<string>)
    ensures r.None? <==> |JavaSplit(attributeName, ':')| < 2
    ensures r.Some? ==> r.value == Trim(ToLower(JavaSplit(attributeName, ':')[1]))
  {
    var parts := JavaSplit(attributeName, ':');
    if |parts| < 2 then None else Some(Trim(ToLower(parts[1])))
  }

  /** In a name `prefix:format:suffix` whose pieces hold no colon, the format is the middle piece. */
  lemma FormatOfAttributeName(prefix: string, format: string, suffix: string)
    requires ':' !in prefix && ':' !in format && ':' !in suffix && suffix != []
    ensures AttributeFormat(prefix + ":" + format + ":" + suffix) == Some(Trim(ToLower(format)))
  {
    var name := prefix + ":" + format + ":" + suffix;
    assert name == prefix + [':'] + (format + [':'] + suffix);
    SplitAllFirstPiece(prefix, format + [':'] + suffix, ':');
    SplitAllFirstPiece(format, suffix, ':');
    SplitAllNoSeparator(suffix, ':');
    assert SplitAll(name, ':') == [prefix, format, suffix];
    assert name[|prefix|] == ':';
  }

  /** Gets or creates the configuration of a format, then marks it custom with the given URL; the other formats keep theirs. */
  method MarkFormatCustom(format: string, attrValue: Option<string>, exports: ExportConfiguration)
    requires exports.Valid()
    modifies exports, exports.confs.Values
    ensures exports.Valid()
    ensures var before := if format in old(exports.confs) then old(exports.confs[format].State()) else exports.initial(format);
      && exports.confs.Keys == old(exports.confs.Keys) + {format}
      && (format in old(exports.confs) ==> exports.confs[format] == old(exports.confs[format]))
      && exports.confs[format].State() == before.(custom := true, url := attrValue)
    ensures forall f | f in old(exports.confs) && f != format ::
      exports.confs[f] == old(exports.confs[f]) && exports.confs[f].State() == old(exports.confs[f].State())
  {
    var conf := exports.GetOrCreate(format);
    ghost var before := conf.State();
    assert before == if format in old(exports.confs) then old(exports.confs[format].State()) else exports.initial(format);
    conf.MarkCustom(attrValue);
  }

  /**
   * doProcessAttribute. Returns false, changing nothing, when the attribute's
   * name has no second piece.
   */
  method DoProcessAttribute(attributeName: string, attrValue: Option<string>, exports: ExportConfiguration)
    returns (ok: bool)
    requires exports.Valid()
    modifies exports, exports.confs.Values
    ensures exports.Valid()
    ensures ok <==> AttributeFormat(attributeName).Some?
    ensures !ok ==>
      && exports.confs == old(exports.confs)
      && forall f | f in exports.confs :: exports.confs[f].State() == old(exports.confs[f].State())
    ensures ok ==>
      var format := AttributeFormat(attributeName).value;
      var before := if format in old(exports.confs) then old(exports.confs[format].State()) else exports.initial(format);
      && exports.confs.Keys == old(exports.confs.Keys) + {format}
      && (format in old(exports.confs) ==> exports.confs[format] == old(exports.confs[format]))
      && exports.confs[format].State() == before.(custom := true, url := attrValue)
      && forall f | f in old(exports.confs) && f != format ::
           exports.confs[f] == old(exports.confs[f]) && exports.confs[f].State() == old(exports.confs[f].State())
  {
    var format := AttributeFormat(attributeName);
    if format.None? {
      return false;
    }
    MarkFormatCustom(format.value, attrValue, exports);
    ok := true;
  }
}
