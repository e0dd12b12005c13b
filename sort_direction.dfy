/**
 * SortDirectionProcessor: the column option holding a comma-separated list of
 * sort directions. The whole value is upper-cased and split on ","; every
 * token must be exactly the name of a Direction constant (tokens are not
 * trimmed). The list is stored only when every token parses.
 */
module SortDirectionProcessor {
  import opened Common

  datatype Direction = ASC | DESC

  /** The configuration token the processor is bound to (identified by its name). */
  datatype ConfigToken = ConfigToken(name: string)

  function DirectionName(d: Direction): string {
    match d
    case ASC => "ASC"
    case DESC => "DESC"
  }

  /** Direction.valueOf: exact, case-sensitive match on the constant's name. */
  function DirectionValueOf(name: string): (r: Option<Direction>)
    ensures r.Some? ==> DirectionName(r.value) == name
    ensures r.None? ==> forall d: Direction :: DirectionName(d) != name
  {
    if name == "ASC" then Some(ASC)
    else if name == "DESC" then Some(DESC)
    else None
  }

  /** The tokens of a value: upper-cased, then String.split(","). */
  function Tokens(value: string): seq<string> {
    JavaSplit(ToUpper(value), ',')
  }

  predicate AllValid(tokens: seq<string>) {
    forall i | 0 <= i < |tokens| :: DirectionValueOf(tokens[i]).Some?
  }

  /** The directions a value denotes: one per token, in order, or None when a token is invalid. */
  function ParseValue(value: string): (r: Option<seq<Direction>>)
    ensures r.Some? <==> AllValid(Tokens(value))
    ensures r.Some? ==> (|r.value| == |Tokens(value)|
      && forall i | 0 <= i < |r.value| :: DirectionName(r.value[i]) == Tokens(value)[i])
  {
    var tokens := Tokens(value);
    if AllValid(tokens) then
      Some(seq(|tokens|, i requires 0 <= i < |tokens| && AllValid(tokens) => DirectionValueOf(tokens[i]).value))
    else None
  }

  /** The loop of doProcess: all tokens or nothing. */
  method ParseSortDirections(value: string) returns (r: Option<seq<Direction>>)
    ensures r == ParseValue(value)
  {
    var tokens := ToUpper(value);
    var sortDirectionArray := JavaSplit(tokens, ',');
    var sortDirections: seq<Direction> := [];
    var i := 0;
    while i < |sortDirectionArray|
      invariant 0 <= i <= |sortDirectionArray|
      invariant |sortDirections| == i
      invariant forall k | 0 <= k < i :: DirectionValueOf(sortDirectionArray[k]) == Some(sortDirections[k])
    {
      var direction := DirectionValueOf(sortDirectionArray[i]);
      if direction.None? {
        return None;
      }
      sortDirections := sortDirections + [direction.value];
      i := i + 1;
    }
    r := Some(sortDirections);
    assert r.value == ParseValue(value).value;
  }

  /** A value whose tokens are the names of some directions denotes exactly those directions. */
  lemma ParseOfNames(value: string, ds: seq<Direction>)
    requires Tokens(value) == Names(ds)
    ensures ParseValue(value) == Some(ds)
  {
    var tokens := Tokens(value);
    assert AllValid(tokens) by {
      forall i | 0 <= i < |tokens| ensures DirectionValueOf(tokens[i]).Some? {
        assert tokens[i] == DirectionName(ds[i]);
      }
    }
    var r := ParseValue(value);
    assert |r.value| == |ds|;
    forall i | 0 <= i < |ds| ensures r.value[i] == ds[i] {
      assert DirectionName(r.value[i]) == DirectionName(ds[i]);
    }
    assert r.value == ds;
  }

  /** Printing directions as a comma-separated list of their names and parsing it gives them back. */
  lemma ParseRendered(ds: seq<Direction>)
    requires ds != []
    ensures ParseValue(Join(Names(ds), ",")) == Some(ds)
  {
    TokensOfJoin(Names(ds));
    ParseOfNames(Join(Names(ds), ","), ds);
  }

  /** The tokens of upper-case, comma-free, non-empty names joined by "," are those names. */
  lemma TokensOfJoin(names: seq<string>)
    requires |names| >= 1
    requires forall i | 0 <= i < |names| :: names[i] != [] && ',' !in names[i] && ToUpper(names[i]) == names[i]
    ensures Tokens(Join(names, ",")) == names
  {
    var text := Join(names, [',']);
    JoinOfUpperCase(names, [',']);
    assert Tokens(text) == JavaSplit(text, ',');
    if |names| == 1 {
      assert text == names[0];
      assert JavaSplit(text, ',') == [text];
    } else {
      assert text == names[0] + [','] + Join(names[1..], [',']);
      assert text[|names[0]|] == ',';
      SplitAllJoin(names, ',');
      assert JavaSplit(text, ',') == DropTrailingEmpty(names);
    }
  }

  function Names(ds: seq<Direction>): (r: seq<string>)
    ensures |r| == |ds| && forall i | 0 <= i < |ds| :: r[i] == DirectionName(ds[i])
  {
    seq(|ds|, i requires 0 <= i < |ds| => DirectionName(ds[i]))
  }

  /** Joining upper-case text with an upper-case separator gives upper-case text. */
  lemma {:induction false} JoinOfUpperCase(parts: seq<string>, sep: string)
    requires forall i | 0 <= i < |parts| :: ToUpper(parts[i]) == parts[i]
    requires ToUpper(sep) == sep
    ensures ToUpper(Join(parts, sep)) == Join(parts, sep)
    decreases |parts|
  {
    if |parts| >= 2 {
      JoinOfUpperCase(parts[1..], sep);
      UpperOfConcat(parts[0] + sep, Join(parts[1..], sep));
      UpperOfConcat(parts[0], sep);
    }
  }

  lemma UpperOfConcat(a: string, b: string)
    ensures ToUpper(a + b) == ToUpper(a) + ToUpper(b)
  {
  }

  /** The case of the value does not matter. */
  lemma ParseIgnoresCase(a: string, b: string)
    requires ToUpper(a) == ToUpper(b)
    ensures ParseValue(a) == ParseValue(b)
  {
  }

  /** A value with one token that names no direction is rejected as a whole. */
  lemma InvalidTokenRejected(value: string, i: nat)
    requires i < |Tokens(value)| && DirectionValueOf(Tokens(value)[i]).None?
    ensures ParseValue(value) == None
  {
  }

  /** Splitting an upper-case `x,y` where `x` and `y` hold no comma and `y` is not empty. */
  lemma TwoTokens(x: string, y: string)
    requires ',' !in x && ',' !in y && y != []
    requires forall i | 0 <= i < |x + [','] + y| :: !('a' <= (x + [','] + y)[i] <= 'z')
    ensures Tokens(x + [','] + y) == [x, y]
  {
    ToUpperKeepsUpper(x + [','] + y);
    SplitAllNoSeparator(y, ',');
    SplitAllFirstPiece(x, y, ',');
  }

  /** Tokens are not trimmed: a space after the comma makes the whole value invalid. */
  lemma SpaceAfterCommaRejected()
    ensures ParseValue("ASC, DESC") == None
  {
    assert "ASC" + [','] + " DESC" == "ASC, DESC";
    TwoTokens("ASC", " DESC");
    InvalidTokenRejected("ASC, DESC", 1);
  }

  /** An upper-case, comma-free, non-empty token followed by a comma is that token alone. */
  lemma TrailingCommaToken(x: string)
    requires ',' !in x && x != []
    requires forall i | 0 <= i < |x + [',']| :: !('a' <= (x + [','])[i] <= 'z')
    ensures Tokens(x + [',']) == [x]
  {
    ToUpperKeepsUpper(x + [',']);
    SplitAllFirstPiece(x, "", ',');
    assert x + [','] + "" == x + [','];
    assert DropTrailingEmpty([x, ""]) == [x];
  }

  /** String.split drops trailing empty pieces, so a trailing comma is harmless. */
  lemma TrailingCommaAccepted()
    ensures ParseValue("DESC,") == Some([DESC])
  {
    assert "DESC" + [','] == "DESC,";
    TrailingCommaToken("DESC");
    assert Names([DESC]) == ["DESC"];
    ParseOfNames("DESC,", [DESC]);
  }

  /**
   * A column's ColumnConfiguration, seen only through the sort directions
   * this processor writes into it; ConfigUtils models its option maps.
   */
  class ColumnConfiguration {
    var settings: map<ConfigToken, seq<Direction>>

    constructor ()
      ensures settings == map[]
    {
      settings := map[];
    }
  }

  class SortDirectionProcessorHandler {
    const columnConfiguration: ColumnConfiguration

    constructor (columnConfiguration: ColumnConfiguration)
      ensures this.columnConfiguration == columnConfiguration
    {
      this.columnConfiguration := columnConfiguration;
    }

    /**
     * doProcess. A returned message is the ConfigurationProcessingException.
     * Its tail, `valuesArrayText`, is what string concatenation makes of the
     * `SortDirection.values()` array: the array's default `toString` (its
     * type, an array of `ColumnDef.SortDirection`, and an identity hash),
     * not a list of the valid directions.
     */
    method DoProcess(configToken: ConfigToken, value: Option<string>, valuesArrayText: string)
      returns (error: Option<string>)
      modifies columnConfiguration
      ensures IsBlank(value) ==> error.None? && unchanged(columnConfiguration)
      ensures !IsBlank(value) && ParseValue(value.value).None? ==>
        && error == Some(value.value + " is not a valid value among " + valuesArrayText)
        && unchanged(columnConfiguration)
      ensures !IsBlank(value) && ParseValue(value.value).Some? ==>
        && error.None?
        && columnConfiguration.settings == old(columnConfiguration.settings)[configToken := ParseValue(value.value).value]
    {
      error := None;
      if !IsBlank(value) {
        var sortDirections := ParseSortDirections(value.value);
        if sortDirections.None? {
          error := Some(value.value + " is not a valid value among " + valuesArrayText);
          return;
        }
        columnConfiguration.settings := columnConfiguration.settings[configToken := sortDirections.value];
      }
    }
  }
}
