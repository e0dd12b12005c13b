/**
 * HtmlTableBuilder: a fluent builder that collects header columns (each with
 * an optional title and a list of column elements) and then builds an HTML
 * table from a list of beans: one header cell per column, and for each bean
 * one body row whose cells are folded from the column's elements.
 *
 * A header column is a value (its title and its element list, null being
 * None); the builder's LinkedList of columns is the field `headerColumns`.
 * Bean property lookup (PropertyUtils.getNestedProperty), MessageFormat,
 * String.valueOf and the bean's simple class name are oracles; a lookup or a
 * formatting that throws is None. ExportConf is not part of this model: the
 * configuration built from the request, its mergeWith and its getFormat are
 * parameters.
 */
module HtmlTableBuilder {
  import opened Common

  /** ColumnElement(propertyName, pattern, content, defaultValue); null is None. */
  datatype ColumnElement = ColumnElement(
    propertyName: Option<string>, pattern: Option<string>, content: Option<string>, defaultValue: Option<string>)

  /** A header column: the TITLE option of its configuration and its column elements. */
  datatype Column = Column(title: Option<string>, elements: Option<seq<ColumnElement>>)

  /** The oracles a cell is computed with: property lookup, MessageFormat and String.valueOf. */
  datatype Render<!T, !V> = Render(
    getProperty: (T, string) -> Option<V>, format: (string, V) -> Option<string>, valueOf: V -> string)

  datatype HtmlTable<C> = HtmlTable(
    id: string, exports: map<string, C>, objectType: string, headerRows: seq<seq<string>>,
    bodyRows: seq<seq<string>>)

  /** The element list of a column, an absent list counting as empty. */
  function ElementsOf(c: Column): seq<ColumnElement> {
    if c.elements.Some? then c.elements.value else []
  }

  /** The column after one more element is appended, the list being created first if it is absent. */
  function WithElement(c: Column, e: ColumnElement): (r: Column)
    ensures r.title == c.title && r.elements == Some(ElementsOf(c) + [e])
  {
    c.(elements := Some(ElementsOf(c) + [e]))
  }

  /** The element fillWithProperty(property, pattern, defaultContent) appends: its content is "". */
  function PropertyFillElement(property: Option<string>, pattern: Option<string>, defaultContent: Option<string>)
    : ColumnElement
  {
    ColumnElement(property, pattern, Some(""), defaultContent)
  }

  /** The element andProperty(property, pattern, defaultContent) appends: its content is null. */
  function PropertyElement(property: Option<string>, pattern: Option<string>, defaultContent: Option<string>)
    : ColumnElement
  {
    ColumnElement(property, pattern, None, defaultContent)
  }

  /** The element fillWith(content) and and(content) append: content only, null default. */
  function ContentElement(content: Option<string>): ColumnElement {
    ColumnElement(None, None, content, None)
  }

  /**
   * The text one element contributes to a cell for bean `o`: the property's
   * value, formatted when there is a pattern, or the default value when the
   * lookup or the formatting throws; otherwise the element's content; otherwise
   * its default value. A null default is appended as "null".
   */
  function Piece<T, V>(o: T, e: ColumnElement, render: Render<T, V>): string {
    if !IsBlank(e.propertyName) then
      match render.getProperty(o, Trim(e.propertyName.value))
      case None => JavaText(e.defaultValue)
      case Some(v) =>
        if !IsBlank(e.pattern) then
          match render.format(e.pattern.value, v)
          case None => JavaText(e.defaultValue)
          case Some(s) => s
        else render.valueOf(v)
    else if e.content.Some? then e.content.value
    else JavaText(e.defaultValue)
  }

  /** The piece of each element, in order. */
  function Pieces<T, V>(o: T, elements: seq<ColumnElement>, render: Render<T, V>): (r: seq<string>)
    ensures |r| == |elements| && forall i | 0 <= i < |elements| :: r[i] == Piece(o, elements[i], render)
  {
    seq(|elements|, i requires 0 <= i < |elements| => Piece(o, elements[i], render))
  }

  /** The content of a cell: the pieces of the elements, concatenated in order. */
  function CellText<T, V>(o: T, elements: seq<ColumnElement>, render: Render<T, V>): string {
    Concat(Pieces(o, elements, render))
  }

  /** The cell is a fold: the cell of concatenated element lists is the concatenation of their cells. */
  lemma CellTextAppend<T, V>(o: T, a: seq<ColumnElement>, b: seq<ColumnElement>, render: Render<T, V>)
    ensures CellText(o, a + b, render) == CellText(o, a, render) + CellText(o, b, render)
  {
    assert Pieces(o, a + b, render) == Pieces(o, a, render) + Pieces(o, b, render);
    ConcatAppend(Pieces(o, a, render), Pieces(o, b, render));
  }

  /** A cell with literal contents only is the concatenation of those contents, whatever the bean. */
  lemma CellOfContents<T, V>(o: T, contents: seq<string>, render: Render<T, V>)
    ensures CellText(o, seq(|contents|, i requires 0 <= i < |contents| => ContentElement(Some(contents[i]))), render)
      == Concat(contents)
  {
    var elements := seq(|contents|, i requires 0 <= i < |contents| => ContentElement(Some(contents[i])));
    assert Pieces(o, elements, render) == contents;
  }

  /** INTERNAL_OBJECTTYPE: the simple class name of the first bean, or "???" when there is none. */
  function ObjectType<T>(data: Option<seq<T>>, simpleName: T -> string): (r: string)
    ensures data.Some? && |data.value| > 0 ==> r == simpleName(data.value[0])
    ensures data.None? || |data.value| == 0 ==> r == "???"
  {
    if data.Some? && |data.value| > 0 then simpleName(data.value[0]) else "???"
  }

  /** A header cell: the column's title when it is not blank, otherwise "". */
  function HeaderCell(c: Column): string {
    if !IsBlank(c.title) then c.title.value else ""
  }

  function HeaderRow(columns: seq<Column>): (r: seq<string>)
    ensures |r| == |columns|
    ensures forall j | 0 <= j < |columns| :: r[j] == HeaderCell(columns[j])
  {
    seq(|columns|, j requires 0 <= j < |columns| => HeaderCell(columns[j]))
  }

  /** The body row of one bean: one cell per column, in column order. */
  function BodyRow<T, V>(o: T, columns: seq<Column>, render: Render<T, V>): (r: seq<string>)
    ensures |r| == |columns|
    ensures forall j | 0 <= j < |columns| :: r[j] == CellText(o, ElementsOf(columns[j]), render)
  {
    seq(|columns|, j requires 0 <= j < |columns| => CellText(o, ElementsOf(columns[j]), render))
  }

  /** The body rows: one per bean, in order; none when the data is null. */
  function BodyRows<T, V>(data: Option<seq<T>>, columns: seq<Column>, render: Render<T, V>)
    : (r: seq<seq<string>>)
    ensures data.None? ==> r == []
    ensures data.Some? ==>
      && |r| == |data.value|
      && forall i | 0 <= i < |data.value| :: r[i] == BodyRow(data.value[i], columns, render)
  {
    if data.None? then []
    else seq(|data.value|, i requires 0 <= i < |data.value| => BodyRow(data.value[i], columns, render))
  }

  /** build throws (a NullPointerException) when a bean is rendered through a column that never got an element. */
  predicate BuildFails<T>(data: Option<seq<T>>, columns: seq<Column>) {
    data.Some? && |data.value| > 0 && exists j | 0 <= j < |columns| :: columns[j].elements.None?
  }

  /** One call on the builder, as far as the header columns are concerned. */
  datatype Step = ColumnStep | TitleStep(title: Option<string>) | ElementStep(element: ColumnElement)

  /** The header columns a sequence of builder calls produces (a call on the last column needs one). */
  function Columns(steps: seq<Step>): seq<Column> {
    if steps == [] then []
    else
      var columns := Columns(steps[..|steps| - 1]);
      var n := |columns|;
      match steps[|steps| - 1]
      case ColumnStep => columns + [Column(None, None)]
      case TitleStep(t) => if n == 0 then columns else columns[n - 1 := columns[n - 1].(title := t)]
      case ElementStep(e) => if n == 0 then columns else columns[n - 1 := WithElement(columns[n - 1], e)]
  }

  /** The number of column() calls. */
  function ColumnCalls(steps: seq<Step>): nat {
    if steps == [] then 0
    else ColumnCalls(steps[..|steps| - 1]) + (if steps[|steps| - 1].ColumnStep? then 1 else 0)
  }

  /** There are as many header columns as column() calls: title and element calls never add or drop one. */
  lemma {:induction false} ColumnsPerColumnCall(steps: seq<Step>)
    ensures |Columns(steps)| == ColumnCalls(steps)
    decreases |steps|
  {
    if steps != [] {
      ColumnsPerColumnCall(steps[..|steps| - 1]);
    }
  }

  /** The element calls that append `elements`, in order. */
  function ElementSteps(elements: seq<ColumnElement>): (r: seq<Step>)
    ensures |r| == |elements|
  {
    if elements == [] then []
    else ElementSteps(elements[..|elements| - 1]) + [ElementStep(elements[|elements| - 1])]
  }

  /** A column's elements are the ones appended since its column() call, in call order. */
  lemma {:induction false} ElementsSinceColumnCall(steps: seq<Step>, elements: seq<ColumnElement>)
    ensures var s := steps + [ColumnStep] + ElementSteps(elements);
      && |Columns(s)| == |Columns(steps)| + 1
      && ElementsOf(Columns(s)[|Columns(s)| - 1]) == elements
    decreases |elements|
  {
    var s := steps + [ColumnStep] + ElementSteps(elements);
    if elements == [] {
      assert s == steps + [ColumnStep];
      assert s[..|s| - 1] == steps;
    } else {
      var init, e := elements[..|elements| - 1], elements[|elements| - 1];
      var s' := steps + [ColumnStep] + ElementSteps(init);
      ElementsSinceColumnCall(steps, init);
      assert s == s' + [ElementStep(e)];
      assert s[..|s| - 1] == s' && s[|s| - 1] == ElementStep(e);
      var columns := Columns(s');
      assert Columns(s) == columns[|columns| - 1 := WithElement(columns[|columns| - 1], e)];
      assert init + [e] == elements;
    }
  }

  /** The Steps builder: the table id, the beans, the export configuration and the header columns. */
  class Steps<T, C> {
    const id: string
    const data: Option<seq<T>>
    const exportConf: C
    var headerColumns: seq<Column>
    /** The builder calls made so far. */
    ghost var history: seq<Step>

    /** The header columns are the ones the calls made so far produce. */
    ghost predicate Valid()
      reads this
    {
      headerColumns == Columns(history)
    }

    /**
     * Steps(id, data, request, exportConf): the export configuration is a fresh
     * one built from the request, merged with the given one when there is one.
     */
    constructor (id: string, data: Option<seq<T>>, requestConf: C, given: Option<C>, mergeWith: (C, C) -> C)
      ensures this.id == id && this.data == data && headerColumns == [] && history == []
      ensures Valid()
      ensures exportConf == if given.Some? then mergeWith(requestConf, given.value) else requestConf
    {
      this.id := id;
      this.data := data;
      this.exportConf := if given.Some? then mergeWith(requestConf, given.value) else requestConf;
      headerColumns := [];
      history := [];
    }

    /** column(): one more header column, with no title and no element, at the end. */
    method AddColumn()
      modifies this
      requires Valid()
      ensures Valid() && history == old(history) + [ColumnStep]
      ensures headerColumns == old(headerColumns) + [Column(None, None)]
    {
      headerColumns := headerColumns + [Column(None, None)];
      history := history + [ColumnStep];
      assert history[..|history| - 1] == old(history);
    }

    /** title(title): the last column's TITLE option becomes `title`; the other columns are untouched. */
    method Title(title: Option<string>)
      requires Valid() && |headerColumns| > 0
      modifies this
      ensures Valid() && history == old(history) + [TitleStep(title)]
      ensures |headerColumns| == |old(headerColumns)|
      ensures headerColumns[..|headerColumns| - 1] == old(headerColumns)[..|headerColumns| - 1]
      ensures headerColumns[|headerColumns| - 1] == old(headerColumns)[|headerColumns| - 1].(title := title)
    {
      var last := |headerColumns| - 1;
      headerColumns := headerColumns[last := headerColumns[last].(title := title)];
      history := history + [TitleStep(title)];
      assert history[..|history| - 1] == old(history);
    }

    /** Appends one element to the last column, creating its list if it is absent; the other columns are untouched. */
    method AddElement(e: ColumnElement)
      requires Valid() && |headerColumns| > 0
      modifies this
      ensures Valid() && history == old(history) + [ElementStep(e)]
      ensures |headerColumns| == |old(headerColumns)|
      ensures headerColumns[..|headerColumns| - 1] == old(headerColumns)[..|headerColumns| - 1]
      ensures headerColumns[|headerColumns| - 1] == WithElement(old(headerColumns)[|headerColumns| - 1], e)
    {
      var last := |headerColumns| - 1;
      var column := headerColumns[last];
      if column.elements.None? {
        column := column.(elements := Some([]));
      }
      column := column.(elements := Some(column.elements.value + [e]));
      headerColumns := headerColumns[last := column];
      history := history + [ElementStep(e)];
      assert history[..|history| - 1] == old(history);
    }

    /** fillWithProperty(property, pattern, defaultContent). */
    method FillWithProperty(property: Option<string>, pattern: Option<string>, defaultContent: Option<string>)
      requires Valid() && |headerColumns| > 0
      modifies this
      ensures Valid() && history == old(history) + [ElementStep(PropertyFillElement(property, pattern, defaultContent))]
      ensures |headerColumns| == |old(headerColumns)|
      ensures headerColumns[..|headerColumns| - 1] == old(headerColumns)[..|headerColumns| - 1]
      ensures headerColumns[|headerColumns| - 1]
        == WithElement(old(headerColumns)[|headerColumns| - 1], PropertyFillElement(property, pattern, defaultContent))
    {
      AddElement(PropertyFillElement(property, pattern, defaultContent));
    }

    /** fillWith(content). */
    method FillWith(content: Option<string>)
      requires Valid() && |headerColumns| > 0
      modifies this
      ensures Valid() && history == old(history) + [ElementStep(ContentElement(content))]
      ensures |headerColumns| == |old(headerColumns)|
      ensures headerColumns[..|headerColumns| - 1] == old(headerColumns)[..|headerColumns| - 1]
      ensures headerColumns[|headerColumns| - 1]
        == WithElement(old(headerColumns)[|headerColumns| - 1], ContentElement(content))
    {
      AddElement(ContentElement(content));
    }

    /** andProperty(property, pattern, defaultContent). */
    method AndProperty(property: Option<string>, pattern: Option<string>, defaultContent: Option<string>)
      requires Valid() && |headerColumns| > 0
      modifies this
      ensures Valid() && history == old(history) + [ElementStep(PropertyElement(property, pattern, defaultContent))]
      ensures |headerColumns| == |old(headerColumns)|
      ensures headerColumns[..|headerColumns| - 1] == old(headerColumns)[..|headerColumns| - 1]
      ensures headerColumns[|headerColumns| - 1]
        == WithElement(old(headerColumns)[|headerColumns| - 1], PropertyElement(property, pattern, defaultContent))
    {
      AddElement(PropertyElement(property, pattern, defaultContent));
    }

    /** and(content). */
    method And(content: Option<string>)
      requires Valid() && |headerColumns| > 0
      modifies this
      ensures Valid() && history == old(history) + [ElementStep(ContentElement(content))]
      ensures |headerColumns| == |old(headerColumns)|
      ensures headerColumns[..|headerColumns| - 1] == old(headerColumns)[..|headerColumns| - 1]
      ensures headerColumns[|headerColumns| - 1]
        == WithElement(old(headerColumns)[|headerColumns| - 1], ContentElement(content))
    {
      AddElement(ContentElement(content));
    }

    /**
     * build(): the table holding the export configuration under its format,
     * the object type, the header row and one body row per bean; None when a
     * bean meets a column without elements. What `new HtmlTable(id, ...)`
     * already holds is `initial`, since HtmlTable's own code is not part of
     * this model: the configuration is put into its export map and the rows
     * are added after its rows.
     */
    method Build<V>(initial: HtmlTable<C>, formatOf: C -> string, simpleName: T -> string, render: Render<T, V>)
      returns (table: Option<HtmlTable<C>>)
      ensures table.None? <==> BuildFails(data, headerColumns)
      ensures table.Some? ==> table.value == HtmlTable(
        id, initial.exports[formatOf(exportConf) := exportConf], ObjectType(data, simpleName),
        initial.headerRows + [HeaderRow(headerColumns)], initial.bodyRows + BodyRows(data, headerColumns, render))
    {
      var exports := initial.exports[formatOf(exportConf) := exportConf];
      var objectType := ObjectType(data, simpleName);
      var header := BuildHeader();
      var rows: seq<seq<string>> := initial.bodyRows;
      if data.Some? {
        var beans := data.value;
        var i := 0;
        while i < |beans|
          invariant 0 <= i <= |beans|
          invariant rows == initial.bodyRows + BodyRows(data, headerColumns, render)[..i]
          invariant i > 0 ==> forall j | 0 <= j < |headerColumns| :: headerColumns[j].elements.Some?
        {
          var row := BuildRow(beans[i], render);
          if row.None? {
            return None;
          }
          assert BodyRows(data, headerColumns, render)[..i + 1] == BodyRows(data, headerColumns, render)[..i] + [row.value];
          rows := rows + [row.value];
          i := i + 1;
        }
        assert BodyRows(data, headerColumns, render)[..i] == BodyRows(data, headerColumns, render);
      } else {
        assert BodyRows(data, headerColumns, render) == [];
        assert rows == initial.bodyRows + [];
      }
      table := Some(HtmlTable(id, exports, objectType, initial.headerRows + [header], rows));
    }

    /** The header row: each column's content is its title when not blank, otherwise "". */
    method BuildHeader() returns (header: seq<string>)
      ensures header == HeaderRow(headerColumns)
    {
      header := [];
      for j := 0 to |headerColumns|
        invariant header == HeaderRow(headerColumns)[..j]
      {
        var title := headerColumns[j].title;
        if !IsBlank(title) {
          header := header + [title.value];
        } else {
          header := header + [""];
        }
      }
    }

    /** One body row: the cells of the bean, column by column; None at the first column without elements. */
    method BuildRow<V>(o: T, render: Render<T, V>) returns (row: Option<seq<string>>)
      ensures row.None? <==> exists j | 0 <= j < |headerColumns| :: headerColumns[j].elements.None?
      ensures row.Some? ==> row.value == BodyRow(o, headerColumns, render)
    {
      var columns := headerColumns;
      ghost var expected := BodyRow(o, columns, render);
      var cells: seq<string> := [];
      for j := 0 to |columns|
        invariant cells == expected[..j]
        invariant forall k | 0 <= k < j :: columns[k].elements.Some?
      {
        var elements := columns[j].elements;
        if elements.None? {
          return None;
        }
        var content := BuildCell(o, elements.value, render);
        assert expected[..j + 1] == expected[..j] + [content];
        cells := cells + [content];
      }
      assert expected[..|columns|] == expected;
      row := Some(cells);
    }
  }

  /** The content of one cell: `content +=` one piece per element, in order. */
  method BuildCell<T, V>(o: T, elements: seq<ColumnElement>, render: Render<T, V>) returns (content: string)
    ensures content == CellText(o, elements, render)
  {
    content := "";
    for k := 0 to |elements|
      invariant content == CellText(o, elements[..k], render)
    {
      var done, piece := Pieces(o, elements[..k], render), Piece(o, elements[k], render);
      assert Pieces(o, elements[..k + 1], render) == done + [piece];
      assert (done + [piece])[..k] == done;
      content := content + piece;
    }
    assert elements[..|elements|] == elements;
  }
}
