/**
 * The staging -> process -> merge pipeline of ConfigUtils.
 *
 * The option maps of a table or a column are Java maps, modelled as ordered
 * association lists (module Entries) so that the order in which the
 * processors run is the map's iteration order. A processor is an oracle: from
 * the entry it is given (and whether a column configuration is in scope) it
 * yields the entry's new value and the entries it puts into the staging map of
 * that scope. Each invocation is recorded in `processorCalls`.
 */
module ConfigUtils {
  import opened Common
  import opened Entries

  /** Name of the request attribute holding the tables of the page. */
  const DDL_DT_REQUESTATTR_TABLES := "ddl-dt-tables"

  /** A configuration map: option -> value, in iteration order. */
  type Options = seq<(OptionKey, Value)>

  /** An extension registered on a column (only its identity matters here). */
  datatype Extension = Extension(name: string)

  /** What an OptionProcessingContext hands to a processor. */
  datatype ProcessorCall = ProcessorCall(option: OptionKey, value: Value, withColumn: bool)

  /** What a processor does: the entry's new value, and what it stages for later merging. */
  datatype ProcessorOutcome = ProcessorOutcome(value: Value, staged: Options)

  class TableConfiguration {
    var configurations: Option<Options>
    var stagingConfiguration: Options
    /** Every processor invocation, in order (the observable trace of `process`). */
    var processorCalls: seq<ProcessorCall>

    predicate Valid()
      reads this
    {
      (configurations.Some? ==> UniqueKeys(configurations.value)) && UniqueKeys(stagingConfiguration)
    }

    constructor (configurations: Option<Options>, stagingConfiguration: Options)
      requires configurations.Some? ==> UniqueKeys(configurations.value)
      requires UniqueKeys(stagingConfiguration)
      ensures Valid()
      ensures this.configurations == configurations && this.stagingConfiguration == stagingConfiguration
      ensures processorCalls == []
    {
      this.configurations := configurations;
      this.stagingConfiguration := stagingConfiguration;
      processorCalls := [];
    }
  }

  class ColumnConfiguration {
    var configurations: Option<Options>
    var stagingConfigurations: Options
    var stagingExtension: seq<(OptionKey, Extension)>

    predicate Valid()
      reads this
    {
      (configurations.Some? ==> UniqueKeys(configurations.value))
      && UniqueKeys(stagingConfigurations) && UniqueKeys(stagingExtension)
    }

    constructor (configurations: Option<Options>)
      requires configurations.Some? ==> UniqueKeys(configurations.value)
      ensures Valid()
      ensures this.configurations == configurations
      ensures stagingConfigurations == [] && stagingExtension == []
    {
      this.configurations := configurations;
      stagingConfigurations := [];
      stagingExtension := [];
    }
  }

  class HtmlTable {
    const id: string
    const tableConfiguration: TableConfiguration

    constructor (id: string, tableConfiguration: TableConfiguration)
      ensures this.id == id && this.tableConfiguration == tableConfiguration
    {
      this.id := id;
      this.tableConfiguration := tableConfiguration;
    }
  }

  /** The `ddl-dt-tables` attribute of the servlet request (None while it is unset). */
  class Request {
    var tables: Option<seq<HtmlTable>>

    constructor ()
      ensures tables.None?
    {
      tables := None;
    }
  }

  // -----------------------------------------------------------------------
  // Specification of the processing pass

  function CallFor(entry: (OptionKey, Value), withColumn: bool): ProcessorCall {
    ProcessorCall(entry.0, entry.1, withColumn)
  }

  /** One processor call per entry, in iteration order. */
  function Calls(entries: Options, withColumn: bool): (r: seq<ProcessorCall>)
    ensures |r| == |entries|
    ensures forall i | 0 <= i < |r| :: r[i].option == entries[i].0 && r[i].value == entries[i].1 && r[i].withColumn == withColumn
  {
    seq(|entries|, i requires 0 <= i < |entries| => CallFor(entries[i], withColumn))
  }

  /** The configuration map once every entry's value has been replaced by its processor. */
  function Processed(entries: Options, process: ProcessorCall -> ProcessorOutcome, withColumn: bool): (r: Options)
  {
    seq(|entries|, i requires 0 <= i < |entries| => (entries[i].0, process(CallFor(entries[i], withColumn)).value))
  }

  /** The staging map once every processor has staged its entries, in iteration order. */
  function Staged(staging: Options, entries: Options, process: ProcessorCall -> ProcessorOutcome, withColumn: bool): (r: Options)
    requires UniqueKeys(staging)
    ensures UniqueKeys(r)
    decreases |entries|
  {
    if entries == [] then staging
    else
      var n := |entries| - 1;
      PutAll(Staged(staging, entries[..n], process, withColumn), process(CallFor(entries[n], withColumn)).staged)
  }

  /** Processing rewrites values only: the keys, their order and their uniqueness stay. */
  lemma ProcessedKeepsKeys(entries: Options, process: ProcessorCall -> ProcessorOutcome, withColumn: bool)
    ensures |Processed(entries, process, withColumn)| == |entries|
    ensures forall i | 0 <= i < |entries| :: Processed(entries, process, withColumn)[i].0 == entries[i].0
    ensures UniqueKeys(entries) ==> UniqueKeys(Processed(entries, process, withColumn))
  {
  }

  /**
   * The outcome of processOptions: a staged key ends with its staged value,
   * overwriting what its processor produced; any other key of the
   * configuration ends with the value its processor produced.
   */
  lemma {:induction false} MergeAfterProcessing(entries: Options, staging: Options, process: ProcessorCall -> ProcessorOutcome, withColumn: bool)
    requires UniqueKeys(entries) && UniqueKeys(staging)
    ensures var s := Staged(staging, entries, process, withColumn);
      var r := PutAll(Processed(entries, process, withColumn), s);
      (forall i | 0 <= i < |s| :: Get(r, s[i].0) == Some(s[i].1))
      && (forall j | 0 <= j < |entries| && !HasKey(s, entries[j].0) ::
            Get(r, entries[j].0) == Some(process(CallFor(entries[j], withColumn)).value))
  {
    var s := Staged(staging, entries, process, withColumn);
    var p := Processed(entries, process, withColumn);
    ProcessedKeepsKeys(entries, process, withColumn);
    PutAllOverwrites(p, s);
    forall j | 0 <= j < |entries| && !HasKey(s, entries[j].0)
      ensures Get(PutAll(p, s), entries[j].0) == Some(process(CallFor(entries[j], withColumn)).value)
    {
      GetAt(p, j);
    }
  }

  /** One more iteration of the processing loop, stated on the specification functions. */
  lemma ProcessingStep(entries: Options, staging: Options, i: nat, process: ProcessorCall -> ProcessorOutcome, withColumn: bool)
    requires i < |entries| && UniqueKeys(staging)
    ensures Processed(entries[..i + 1], process, withColumn) + entries[i + 1..]
      == (Processed(entries[..i], process, withColumn) + entries[i..])[i := (entries[i].0, process(CallFor(entries[i], withColumn)).value)]
    ensures Staged(staging, entries[..i + 1], process, withColumn)
      == PutAll(Staged(staging, entries[..i], process, withColumn), process(CallFor(entries[i], withColumn)).staged)
    ensures Calls(entries[..i + 1], withColumn) == Calls(entries[..i], withColumn) + [CallFor(entries[i], withColumn)]
  {
    assert entries[..i + 1][..i] == entries[..i];
  }

  // -----------------------------------------------------------------------
  // The operations

  /**
   * Copies every staged option into the table's configuration map, overwriting
   * same keys. A null map is only dereferenced inside the loop, so it is fine
   * for an empty staging map and a NullPointerException (`npe`, nothing
   * changed) otherwise.
   */
  method ApplyStagingOptions(stagingConf: Options, table: HtmlTable) returns (npe: bool)
    requires table.tableConfiguration.Valid()
    modifies table.tableConfiguration
    ensures table.tableConfiguration.Valid()
    ensures npe <==> old(table.tableConfiguration.configurations).None? && stagingConf != []
    ensures old(table.tableConfiguration.configurations).None? ==> unchanged(table.tableConfiguration)
    ensures old(table.tableConfiguration.configurations).Some? ==>
      table.tableConfiguration.configurations
        == Some(PutAll(old(table.tableConfiguration.configurations.value), stagingConf))
    ensures table.tableConfiguration.stagingConfiguration == old(table.tableConfiguration.stagingConfiguration)
    ensures table.tableConfiguration.processorCalls == old(table.tableConfiguration.processorCalls)
  {
    var conf := table.tableConfiguration;
    if conf.configurations.None? {
      return stagingConf != [];
    }
    npe := false;
    var i := 0;
    while i < |stagingConf|
      invariant 0 <= i <= |stagingConf|
      invariant conf.Valid() && conf.configurations.Some?
      invariant conf.configurations.value == PutAll(old(conf.configurations.value), stagingConf[..i])
      invariant conf.stagingConfiguration == old(conf.stagingConfiguration)
      invariant conf.processorCalls == old(conf.processorCalls)
    {
      assert stagingConf[..i + 1][..i] == stagingConf[..i];
      conf.configurations := Some(Put(conf.configurations.value, stagingConf[i].0, stagingConf[i].1));
      i := i + 1;
    }
    assert stagingConf[..i] == stagingConf;
  }

  /**
   * The loop shared by both processOptions overloads: each entry, in iteration
   * order, is handed to its processor, which rewrites the entry's value and may
   * stage entries for the final merge.
   */
  method RunProcessors(entries: Options, staging: Options, process: ProcessorCall -> ProcessorOutcome, withColumn: bool)
    returns (processed: Options, staged: Options, calls: seq<ProcessorCall>)
    requires UniqueKeys(staging)
    ensures processed == Processed(entries, process, withColumn)
    ensures staged == Staged(staging, entries, process, withColumn)
    ensures calls == Calls(entries, withColumn)
  {
    processed, staged, calls := entries, staging, [];
    var i := 0;
    while i < |entries|
      invariant 0 <= i <= |entries|
      invariant processed == Processed(entries[..i], process, withColumn) + entries[i..]
      invariant UniqueKeys(staged) && staged == Staged(staging, entries[..i], process, withColumn)
      invariant calls == Calls(entries[..i], withColumn)
    {
      var outcome := process(ProcessorCall(entries[i].0, entries[i].1, withColumn));
      // entry.setValue(...) inside the processor
      processed := processed[i := (entries[i].0, outcome.value)];
      staged := PutAll(staged, outcome.staged);
      calls := calls + [CallFor(entries[i], withColumn)];
      ProcessingStep(entries, staging, i, process, withColumn);
      i := i + 1;
    }
    assert entries[..i] == entries && entries[i..] == [];
    assert processed == Processed(entries, process, withColumn) + [];
  }

  /**
   * Table-level processOptions: runs every entry's processor once, in
   * iteration order and without a column configuration, then merges the
   * staging configuration over the result. Nothing happens to a null map.
   */
  method ProcessTableOptions(table: HtmlTable, process: ProcessorCall -> ProcessorOutcome)
    requires table.tableConfiguration.Valid()
    modifies table.tableConfiguration
    ensures table.tableConfiguration.Valid()
    ensures old(table.tableConfiguration.configurations).None? ==> unchanged(table.tableConfiguration)
    ensures old(table.tableConfiguration.configurations).Some? ==>
      var entries := old(table.tableConfiguration.configurations.value);
      var staged := Staged(old(table.tableConfiguration.stagingConfiguration), entries, process, false);
      && table.tableConfiguration.stagingConfiguration == staged
      && table.tableConfiguration.configurations == Some(PutAll(Processed(entries, process, false), staged))
      && table.tableConfiguration.processorCalls == old(table.tableConfiguration.processorCalls) + Calls(entries, false)
  {
    var conf := table.tableConfiguration;
    if conf.configurations.Some? {
      var entries := conf.configurations.value;
      var processed, staged, calls := RunProcessors(entries, conf.stagingConfiguration, process, false);
      ProcessedKeepsKeys(entries, process, false);
      conf.stagingConfiguration := staged;
      conf.processorCalls := conf.processorCalls + calls;
      // Merging the staging configuration into the final configuration map
      conf.configurations := Some(PutAll(processed, staged));
    }
  }

  /**
   * Copies the staged options into the column's configuration map (overwriting
   * same keys) and merges the staged extensions into its staging-extension map.
   * A null configuration map raises a NullPointerException (`npe`, nothing
   * changed) at the first staged option; with no staged option the extensions
   * are still merged.
   */
  method ApplyStagingOptionsAndExtensions(stagingConf: Options, stagingExtensions: seq<(OptionKey, Extension)>,
                                          column: ColumnConfiguration)
    returns (npe: bool)
    requires column.Valid()
    modifies column
    ensures column.Valid()
    ensures npe <==> old(column.configurations).None? && stagingConf != []
    ensures npe ==> unchanged(column)
    ensures !npe ==>
      column.configurations
        == if old(column.configurations).None? then None else Some(PutAll(old(column.configurations.value), stagingConf))
    ensures !npe ==> column.stagingExtension == PutAll(old(column.stagingExtension), stagingExtensions)
    ensures column.stagingConfigurations == old(column.stagingConfigurations)
  {
    if column.configurations.None? && stagingConf != [] {
      return true;
    }
    npe := false;
    var i := 0;
    while i < |stagingConf|
      invariant 0 <= i <= |stagingConf|
      invariant column.Valid()
      invariant column.configurations.None? <==> old(column.configurations).None?
      invariant column.configurations.Some? ==>
        column.configurations.value == PutAll(old(column.configurations.value), stagingConf[..i])
      invariant column.stagingExtension == old(column.stagingExtension)
      invariant column.stagingConfigurations == old(column.stagingConfigurations)
    {
      assert stagingConf[..i + 1][..i] == stagingConf[..i];
      column.configurations := Some(Put(column.configurations.value, stagingConf[i].0, stagingConf[i].1));
      i := i + 1;
    }
    assert stagingConf[..i] == stagingConf;
    column.stagingExtension := PutAll(column.stagingExtension, stagingExtensions);
  }

  /**
   * Column-level processOptions: every processor sees both the table and the
   * column configuration; afterwards the column's staging configurations are
   * merged over the result. Nothing happens to a null map.
   */
  method ProcessColumnOptions(column: ColumnConfiguration, table: HtmlTable, process: ProcessorCall -> ProcessorOutcome)
    requires column.Valid()
    modifies column, table.tableConfiguration
    ensures column.Valid()
    ensures old(column.configurations).None? ==> unchanged(column) && unchanged(table.tableConfiguration)
    ensures old(column.configurations).Some? ==>
      var entries := old(column.configurations.value);
      var staged := Staged(old(column.stagingConfigurations), entries, process, true);
      && column.stagingConfigurations == staged
      && column.configurations == Some(PutAll(Processed(entries, process, true), staged))
      && column.stagingExtension == old(column.stagingExtension)
      && table.tableConfiguration.processorCalls
        == old(table.tableConfiguration.processorCalls) + Calls(entries, true)
    ensures table.tableConfiguration.configurations == old(table.tableConfiguration.configurations)
    ensures table.tableConfiguration.stagingConfiguration == old(table.tableConfiguration.stagingConfiguration)
  {
    if column.configurations.Some? {
      var entries := column.configurations.value;
      var processed, staged, calls := RunProcessors(entries, column.stagingConfigurations, process, true);
      ProcessedKeepsKeys(entries, process, true);
      column.stagingConfigurations := staged;
      table.tableConfiguration.processorCalls := table.tableConfiguration.processorCalls + calls;
      // Merging the staging configurations into the final configuration map
      column.configurations := Some(PutAll(processed, staged));
    }
  }

  // -----------------------------------------------------------------------
  // The request list of tables

  /** The list held by the request attribute after one more table is stored. */
  function AfterStoring(tables: Option<seq<HtmlTable>>, table: HtmlTable): (r: seq<HtmlTable>)
    ensures |r| == |tables.GetOr([])| + 1 && r[|r| - 1] == table
    ensures r[..|r| - 1] == tables.GetOr([])
  {
    if tables.None? then [table] else tables.value + [table]
  }

  /** The request attribute after storing `tables` one after the other, starting from `start`. */
  function StoreEach(start: Option<seq<HtmlTable>>, tables: seq<HtmlTable>): Option<seq<HtmlTable>>
    decreases |tables|
  {
    if tables == [] then start
    else Some(AfterStoring(StoreEach(start, tables[..|tables| - 1]), tables[|tables| - 1]))
  }

  /** Starting from an unset attribute, the stored list is the tables in call order. */
  lemma {:induction false} StoreEachInCallOrder(tables: seq<HtmlTable>)
    requires tables != []
    ensures StoreEach(None, tables) == Some(tables)
    decreases |tables|
  {
    var n := |tables| - 1;
    if n > 0 {
      StoreEachInCallOrder(tables[..n]);
      assert tables[..n] + [tables[n]] == tables;
    } else {
      assert tables == [tables[0]];
      assert StoreEach(None, tables[..0]) == None;
    }
  }

  /** Stores the table in the request, creating the list on the first call. */
  method StoreTableInRequest(request: Request, table: HtmlTable)
    modifies request
    ensures request.tables == Some(AfterStoring(old(request.tables), table))
  {
    if request.tables.None? {
      var htmlTables := [table];
      request.tables := Some(htmlTables);
    } else {
      request.tables := Some(request.tables.value + [table]);
    }
  }
}
