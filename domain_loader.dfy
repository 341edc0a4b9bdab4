/** `DomainDataLoader` (backend.py): the per-domain cache of loaders, the
    dataframe-loading preamble built from a schema, and the domain description
    handed to the prompts. The schema file is an input: `None` when
    `metadata/<domain>/_schema.json` does not exist. */
module DomainLoader {
  import opened Wrappers
  import opened Strings

  /** A table's `fk` entry: a JSON list of keys or a single value. */
  datatype ForeignKey = FkList(keys: seq<string>) | FkScalar(key: string)

  /** One entry of the schema's `tables`; `columns` in the file's order. */
  datatype Table = Table(name: string, description: string, pk: string, fk: Option<ForeignKey>,
                         columns: seq<(string, string)>)

  datatype Schema = Schema(domainName: string, domainDescription: string, tables: seq<Table>)

  const HeaderLineCount := 17

  /** Line `i` of the fixed start of the loading code: imports and plotting defaults. */
  function HeaderLine(i: nat): string
    requires i < HeaderLineCount
  {
    if i == 0 then ""
    else if i == 1 then "import pandas as pd"
    else if i == 2 then "import numpy as np"
    else if i == 3 then "import matplotlib.pyplot as plt"
    else if i == 4 then "import seaborn as sns"
    else if i == 5 then "import os"
    else if i == 6 then ""
    else if i == 7 then "# Configure matplotlib for file output"
    else if i == 8 then "plt.style.use('default')"
    else if i == 9 then "plt.rcParams['figure.figsize'] = [9, 5]  # Reduced from [10, 6]"
    else if i == 10 then "plt.rcParams['font.size'] = 9  # Reduced from 10"
    else if i == 11 then "plt.rcParams['savefig.bbox'] = 'tight'"
    else if i == 12 then "plt.rcParams['savefig.dpi'] = 100  # Reduced from 150 for smaller file size"
    else if i == 13 then ""
    else if i == 14 then "# Create output directory if it doesn't exist"
    else if i == 15 then "os.makedirs('output', exist_ok=True)"
    else ""
  }

  /** Each line followed by a line break. */
  function Lines(ls: seq<string>): string {
    if ls == [] then "" else ls[0] + "\n" + Lines(ls[1..])
  }

  function LoadingHeader(): string {
    Lines(seq(HeaderLineCount, i requires 0 <= i < HeaderLineCount => HeaderLine(i)))
  }

  const FooterLine := "print('All dataframes loaded successfully!')"
  const LoadingFooter := FooterLine + "\n"

  function SchemaNotFound(domain: string): string {
    "Schema file not found: metadata/" + domain + "/_schema.json"
  }

  // ----- the loading code -----

  function LoadingLine(t: string): string { "print('Loading " + t + "...')" }
  function ReadLine(domain: string, t: string): string { t + " = pd.read_csv('data/" + domain + "/" + t + ".csv')" }
  function LoadedLine(t: string): string { "print(f'" + t + " loaded: {len(" + t + ")} rows')" }

  /** `code` with the three lines for table `t` appended, one `+=` at a time. */
  function AppendTableLoading(code: string, domain: string, t: string): string {
    code + LoadingLine(t) + "\n" + ReadLine(domain, t) + "\n" + LoadedLine(t) + "\n"
  }

  /** The loop of `_build_dataframes_loading_code` from `code` on. */
  function AppendLoadings(code: string, domain: string, tables: seq<Table>): string
    decreases |tables|
  {
    if tables == [] then code
    else AppendLoadings(AppendTableLoading(code, domain, tables[0].name), domain, tables[1..])
  }

  /** What `_build_dataframes_loading_code` returns. */
  function LoadingCode(domain: string, tables: seq<Table>): string {
    AppendLoadings(LoadingHeader(), domain, tables) + LoadingFooter
  }

  /** `_build_dataframes_loading_code` */
  method BuildDataframesLoadingCode(domain: string, tables: seq<Table>) returns (loadingCode: string)
    ensures loadingCode == LoadingCode(domain, tables)
  {
    loadingCode := LoadingHeader();
    for i := 0 to |tables|
      invariant AppendLoadings(loadingCode, domain, tables[i..]) == AppendLoadings(LoadingHeader(), domain, tables)
    {
      var tableName := tables[i].name;
      assert tables[i..][1..] == tables[i + 1..];
      loadingCode := loadingCode + LoadingLine(tableName) + "\n";
      loadingCode := loadingCode + ReadLine(domain, tableName) + "\n";
      loadingCode := loadingCode + LoadedLine(tableName) + "\n";
    }
    loadingCode := loadingCode + LoadingFooter;
  }

  /** The three lines for one table, as a piece of text. */
  function TableLoading(domain: string, t: string): string {
    LoadingLine(t) + "\n" + ReadLine(domain, t) + "\n" + LoadedLine(t) + "\n"
  }

  /** The blocks of all tables, in schema order. */
  function LoadingBlocks(domain: string, tables: seq<Table>): string {
    if tables == [] then "" else TableLoading(domain, tables[0].name) + LoadingBlocks(domain, tables[1..])
  }

  lemma {:induction false} AppendTableLoadingIsConcat(code: string, domain: string, t: string)
    ensures AppendTableLoading(code, domain, t) == code + TableLoading(domain, t)
  {
  }

  /** The loop appends the tables' blocks in schema order and touches nothing before. */
  lemma {:induction false} AppendLoadingsIsConcat(code: string, domain: string, tables: seq<Table>)
    ensures AppendLoadings(code, domain, tables) == code + LoadingBlocks(domain, tables)
    decreases |tables|
  {
    if tables != [] {
      var next := AppendTableLoading(code, domain, tables[0].name);
      AppendTableLoadingIsConcat(code, domain, tables[0].name);
      AppendLoadingsIsConcat(next, domain, tables[1..]);
      assert next + LoadingBlocks(domain, tables[1..])
          == code + (TableLoading(domain, tables[0].name) + LoadingBlocks(domain, tables[1..]));
    }
  }

  /** The loading code is the fixed header, one block per table in schema
      order, and the closing line. */
  lemma {:induction false} LoadingCodeShape(domain: string, tables: seq<Table>)
    ensures LoadingCode(domain, tables) == LoadingHeader() + LoadingBlocks(domain, tables) + LoadingFooter
  {
    AppendLoadingsIsConcat(LoadingHeader(), domain, tables);
  }

  lemma {:induction false} ConcatAssoc(a: string, b: string, c: string)
    ensures (a + b) + c == a + (b + c)
  {
  }

  /** Occurrences of a character. */
  function CountChar(s: string, c: char): nat {
    if s == [] then 0 else (if s[0] == c then 1 else 0) + CountChar(s[1..], c)
  }

  lemma {:induction false} CountCharAppend(a: string, b: string, c: char)
    ensures CountChar(a + b, c) == CountChar(a, c) + CountChar(b, c)
  {
    if a == [] {
      assert a + b == b;
    } else {
      assert (a + b)[1..] == a[1..] + b;
      CountCharAppend(a[1..], b, c);
    }
  }

  lemma {:induction false} CountCharAbsent(s: string, c: char)
    requires c !in s
    ensures CountChar(s, c) == 0
  {
    if s != [] {
      assert s[0] in s;
      assert forall x :: x in s[1..] ==> x in s;
      CountCharAbsent(s[1..], c);
    }
  }

  lemma {:induction false} CountCharOne(c: char)
    ensures CountChar([c], c) == 1
  {
    assert [c][1..] == [];
  }

  /** A table whose name holds no newline contributes exactly three lines. */
  lemma {:induction false} TableLoadingLines(domain: string, t: string)
    requires '\n' !in domain && '\n' !in t
    ensures CountChar(TableLoading(domain, t), '\n') == 3
  {
    var l1, l2, l3 := LoadingLine(t), ReadLine(domain, t), LoadedLine(t);
    CountCharAbsent(l1, '\n');
    CountCharAbsent(l2, '\n');
    CountCharAbsent(l3, '\n');
    CountCharOne('\n');
    CountCharAppend(l1, "\n", '\n');
    CountCharAppend(l1 + "\n", l2, '\n');
    CountCharAppend(l1 + "\n" + l2, "\n", '\n');
    CountCharAppend(l1 + "\n" + l2 + "\n", l3, '\n');
    CountCharAppend(l1 + "\n" + l2 + "\n" + l3, "\n", '\n');
  }

  /** Three lines per table. */
  lemma {:induction false} LoadingBlocksLines(domain: string, tables: seq<Table>)
    requires '\n' !in domain
    requires forall i :: 0 <= i < |tables| ==> '\n' !in tables[i].name
    ensures CountChar(LoadingBlocks(domain, tables), '\n') == 3 * |tables|
  {
    if tables != [] {
      LoadingBlocksLines(domain, tables[1..]);
      TableLoadingLines(domain, tables[0].name);
      CountCharAppend(TableLoading(domain, tables[0].name), LoadingBlocks(domain, tables[1..]), '\n');
    }
  }

  /** The closing code is one line. */
  lemma {:induction false} FooterLines()
    ensures CountChar(LoadingFooter, '\n') == 1
  {
    CountCharAbsent(FooterLine, '\n');
    CountCharOne('\n');
    CountCharAppend(FooterLine, "\n", '\n');
  }

  /** Three lines per table, on top of the fixed header and the closing line. */
  lemma {:induction false} LoadingCodeLines(domain: string, tables: seq<Table>)
    requires '\n' !in domain
    requires forall i :: 0 <= i < |tables| ==> '\n' !in tables[i].name
    ensures CountChar(LoadingCode(domain, tables), '\n') == CountChar(LoadingHeader(), '\n') + 3 * |tables| + 1
  {
    var header, blocks := LoadingHeader(), LoadingBlocks(domain, tables);
    assert LoadingCode(domain, tables) == header + blocks + LoadingFooter by { LoadingCodeShape(domain, tables); }
    assert CountChar(blocks, '\n') == 3 * |tables| by { LoadingBlocksLines(domain, tables); }
    assert CountChar(LoadingFooter, '\n') == 1 by { FooterLines(); }
    CountCharAppend(header, blocks, '\n');
    CountCharAppend(header + blocks, LoadingFooter, '\n');
  }

  // ----- the domain context -----
  // The source writes "\\n", so the context holds the two characters `\` and
  // `n` where a line break was evidently meant; `Esc` is that pair.

  const Esc := "\\n"

  /** The foreign-key line, if the table has an `fk` entry. */
  function AppendForeignKey(context: string, fk: Option<ForeignKey>): string {
    match fk
    case None => context
    case Some(FkList(keys)) => context + "  Foreign Keys: " + Join(keys, ", ") + Esc
    case Some(FkScalar(key)) => context + "  Foreign Key: " + key + Esc
  }

  /** The column loop: one line per column, in the file's order. */
  function AppendColumns(context: string, columns: seq<(string, string)>): string
    decreases |columns|
  {
    if columns == [] then context
    else AppendColumns(context + "    - " + columns[0].0 + ": " + columns[0].1 + Esc, columns[1..])
  }

  /** One turn of the table loop. */
  function AppendTableContext(context: string, t: Table): string {
    var named := context + Esc + t.name + ":" + Esc;
    var described := named + "  Description: " + t.description + Esc;
    var keyed := described + "  Primary Key: " + t.pk + Esc;
    AppendColumns(AppendForeignKey(keyed, t.fk) + "  Columns:" + Esc, t.columns)
  }

  /** The table loop from `context` on. */
  function AppendTables(context: string, tables: seq<Table>): string
    decreases |tables|
  {
    if tables == [] then context
    else AppendTables(AppendTableContext(context, tables[0]), tables[1..])
  }

  function ContextHead(schema: Schema): string {
    var domainLine := "Domain: " + schema.domainName + Esc;
    var described := domainLine + "Description: " + schema.domainDescription + Esc + Esc;
    described + "Available Tables:" + Esc
  }

  /** What `get_domain_context` returns. */
  function DomainContext(schema: Schema): string {
    AppendTables(ContextHead(schema), schema.tables)
  }

  // An independent description of the same text, section by section.

  function ForeignKeyLine(fk: Option<ForeignKey>): string {
    match fk
    case None => ""
    case Some(FkList(keys)) => "  Foreign Keys: " + Join(keys, ", ") + Esc
    case Some(FkScalar(key)) => "  Foreign Key: " + key + Esc
  }

  function ColumnLines(columns: seq<(string, string)>): string {
    if columns == [] then "" else "    - " + columns[0].0 + ": " + columns[0].1 + Esc + ColumnLines(columns[1..])
  }

  /** The name, description and primary-key lines of a table's section. */
  function TableHead(t: Table): string {
    Esc + t.name + ":" + Esc
    + "  Description: " + t.description + Esc
    + "  Primary Key: " + t.pk + Esc
  }

  /** The section describing one table. */
  function TableSection(t: Table): string {
    TableHead(t) + ForeignKeyLine(t.fk) + "  Columns:" + Esc + ColumnLines(t.columns)
  }

  function Sections(tables: seq<Table>): string {
    if tables == [] then "" else TableSection(tables[0]) + Sections(tables[1..])
  }

  lemma {:induction false} AppendColumnsIsConcat(context: string, columns: seq<(string, string)>)
    ensures AppendColumns(context, columns) == context + ColumnLines(columns)
    decreases |columns|
  {
    if columns != [] {
      var line := "    - " + columns[0].0 + ": " + columns[0].1 + Esc;
      assert context + "    - " + columns[0].0 + ": " + columns[0].1 + Esc == context + line;
      AppendColumnsIsConcat(context + line, columns[1..]);
      assert (context + line) + ColumnLines(columns[1..]) == context + (line + ColumnLines(columns[1..]));
    }
  }

  lemma {:induction false} AppendForeignKeyIsConcat(context: string, fk: Option<ForeignKey>)
    ensures AppendForeignKey(context, fk) == context + ForeignKeyLine(fk)
  {
  }

  /** The first three lines of one turn of the table loop are the table's head. */
  lemma {:induction false} KeyedIsHead(context: string, t: Table)
    ensures context + Esc + t.name + ":" + Esc + "  Description: " + t.description + Esc + "  Primary Key: " + t.pk + Esc
            == context + TableHead(t)
  {
  }

  lemma {:induction false} AppendTableContextIsConcat(context: string, t: Table)
    ensures AppendTableContext(context, t) == context + TableSection(t)
  {
    var head := TableHead(t);
    var keyed := context + Esc + t.name + ":" + Esc + "  Description: " + t.description + Esc + "  Primary Key: " + t.pk + Esc;
    assert keyed == context + head by { KeyedIsHead(context, t); }
    var fkLine := ForeignKeyLine(t.fk);
    assert AppendForeignKey(keyed, t.fk) == context + head + fkLine by { AppendForeignKeyIsConcat(keyed, t.fk); }
    var opening := head + fkLine + "  Columns:" + Esc;
    var columnsOpen := AppendForeignKey(keyed, t.fk) + "  Columns:" + Esc;
    assert columnsOpen == context + opening;
    var lines := ColumnLines(t.columns);
    assert AppendColumns(columnsOpen, t.columns) == columnsOpen + lines by { AppendColumnsIsConcat(columnsOpen, t.columns); }
    ConcatAssoc(context, opening, lines);
  }

  lemma {:induction false} AppendTablesIsConcat(context: string, tables: seq<Table>)
    ensures AppendTables(context, tables) == context + Sections(tables)
    decreases |tables|
  {
    if tables != [] {
      var section, rest := TableSection(tables[0]), tables[1..];
      var next := AppendTableContext(context, tables[0]);
      assert next == context + section by { AppendTableContextIsConcat(context, tables[0]); }
      AppendTablesIsConcat(next, rest);
      ConcatAssoc(context, section, Sections(rest));
    }
  }

  /** The context is the domain header followed by one section per table, in
      schema order. */
  lemma {:induction false} DomainContextShape(schema: Schema)
    ensures DomainContext(schema) == ContextHead(schema) + Sections(schema.tables)
  {
    AppendTablesIsConcat(ContextHead(schema), schema.tables);
  }

  /** Every text the schema holds, for the single-line property. */
  predicate TableSingleLine(t: Table) {
    && '\n' !in t.name && '\n' !in t.description && '\n' !in t.pk
    && (match t.fk
        case None => true
        case Some(FkList(keys)) => forall k :: 0 <= k < |keys| ==> '\n' !in keys[k]
        case Some(FkScalar(key)) => '\n' !in key)
    && forall k :: 0 <= k < |t.columns| ==> '\n' !in t.columns[k].0 && '\n' !in t.columns[k].1
  }

  predicate SchemaSingleLine(schema: Schema) {
    && '\n' !in schema.domainName && '\n' !in schema.domainDescription
    && forall i :: 0 <= i < |schema.tables| ==> TableSingleLine(schema.tables[i])
  }

  lemma {:induction false} JoinNoChar(parts: seq<string>, sep: string, c: char)
    requires c !in sep
    requires forall k :: 0 <= k < |parts| ==> c !in parts[k]
    ensures c !in Join(parts, sep)
  {
    if |parts| > 1 {
      JoinNoChar(parts[1..], sep, c);
    }
  }

  lemma {:induction false} ColumnLinesSingleLine(columns: seq<(string, string)>)
    requires forall k :: 0 <= k < |columns| ==> '\n' !in columns[k].0 && '\n' !in columns[k].1
    ensures '\n' !in ColumnLines(columns)
  {
    if columns != [] {
      ColumnLinesSingleLine(columns[1..]);
    }
  }

  lemma {:induction false} TableSectionSingleLine(t: Table)
    requires TableSingleLine(t)
    ensures '\n' !in TableSection(t)
  {
    ColumnLinesSingleLine(t.columns);
    if t.fk.Some? && t.fk.value.FkList? {
      JoinNoChar(t.fk.value.keys, ", ", '\n');
    }
  }

  lemma {:induction false} SectionsSingleLine(tables: seq<Table>)
    requires forall i :: 0 <= i < |tables| ==> TableSingleLine(tables[i])
    ensures '\n' !in Sections(tables)
  {
    if tables != [] {
      SectionsSingleLine(tables[1..]);
      TableSectionSingleLine(tables[0]);
    }
  }

  /** With no line break in the schema, the whole context is a single line:
      every separator it writes is the escaped pair, never a newline. */
  lemma {:induction false} DomainContextSingleLine(schema: Schema)
    requires SchemaSingleLine(schema)
    ensures '\n' !in DomainContext(schema)
  {
    var head, sections := ContextHead(schema), Sections(schema.tables);
    assert DomainContext(schema) == head + sections by { DomainContextShape(schema); }
    assert '\n' !in sections by { SectionsSingleLine(schema.tables); }
    assert '\n' !in head by { ContextHeadSingleLine(schema); }
  }

  lemma {:induction false} ContextHeadSingleLine(schema: Schema)
    requires '\n' !in schema.domainName && '\n' !in schema.domainDescription
    ensures '\n' !in ContextHead(schema)
  {
  }

  // ----- the loaders and their cache -----

  class DomainDataLoader {
    var domain: string
    var initialized: bool
    var schemaData: Option<Schema>
    var dataframesLoadingCode: string

    /** `__new__`: a bare instance, not yet initialised. */
    constructor()
      ensures !initialized && schemaData == None
    {
      domain := "";
      initialized := false;
      schemaData := None;
      dataframesLoadingCode := "";
    }

    /** An initialised loader holds its schema and the loading code built from it. */
    predicate Valid()
      reads this
    {
      initialized ==> schemaData.Some? && dataframesLoadingCode == LoadingCode(domain, schemaData.value.tables)
    }

    /** The body of `__init__` on an instance not yet initialised: records the
        domain, then loads the schema (failing when the file is missing) and
        builds the loading code from it. */
    method Initialize(d: string, schemaFile: Option<Schema>) returns (error: Option<string>)
      requires !initialized
      modifies this
      ensures domain == d
      ensures schemaFile.None? ==> error == Some(SchemaNotFound(d)) && !initialized
      ensures schemaFile.Some? ==> error == None && initialized && schemaData == schemaFile
      ensures Valid()
    {
      domain := d;
      if schemaFile.None? {
        return Some(SchemaNotFound(d));
      }
      schemaData := schemaFile;
      dataframesLoadingCode := BuildDataframesLoadingCode(d, schemaFile.value.tables);
      initialized := true;
      return None;
    }

    /** `get_domain_context`, built piece by piece. */
    method GetDomainContext() returns (context: string)
      requires schemaData.Some?
      ensures context == DomainContext(schemaData.value)
    {
      var schema := schemaData.value;
      context := "Domain: " + schema.domainName + Esc;
      context := context + "Description: " + schema.domainDescription + Esc + Esc;
      context := context + "Available Tables:" + Esc;
      var tables := schema.tables;
      for i := 0 to |tables|
        invariant AppendTables(context, tables[i..]) == DomainContext(schema)
      {
        var table := tables[i];
        assert tables[i..][1..] == tables[i + 1..];
        context := AppendTable(context, table);
      }
    }
  }

  /** One turn of the table loop of `get_domain_context`. */
  method AppendTable(context: string, table: Table) returns (extended: string)
    ensures extended == AppendTableContext(context, table)
  {
    extended := context + Esc + table.name + ":" + Esc;
    extended := extended + "  Description: " + table.description + Esc;
    extended := extended + "  Primary Key: " + table.pk + Esc;
    match table.fk {
      case None =>
      case Some(FkList(keys)) => extended := extended + "  Foreign Keys: " + Join(keys, ", ") + Esc;
      case Some(FkScalar(key)) => extended := extended + "  Foreign Key: " + key + Esc;
    }
    extended := extended + "  Columns:" + Esc;
    var columns := table.columns;
    for k := 0 to |columns|
      invariant AppendColumns(extended, columns[k..]) == AppendTableContext(context, table)
    {
      var (col, desc) := columns[k];
      assert columns[k..][1..] == columns[k + 1..];
      extended := extended + "    - " + col + ": " + desc + Esc;
    }
  }

  /** The class-level `_instances` dictionary. */
  class LoaderCache {
    var instances: map<string, DomainDataLoader>

    /** Each cached loader belongs to its own domain, is valid, and no object
        is shared by two domains. */
    predicate Valid()
      reads this, instances.Values
    {
      && (forall d :: d in instances ==> instances[d].domain == d && instances[d].Valid())
      && (forall d, e :: d in instances && e in instances && d != e ==> instances[d] != instances[e])
    }

    constructor()
      ensures instances == map[] && Valid()
    {
      instances := map[];
    }

    /** `DomainDataLoader(domain)`: the cached instance for `domain` (created
        uninitialised if absent), initialised at most once. `schemaFile` is
        the parsed schema file, `None` if it does not exist, in which case the
        constructor raises and the uninitialised instance stays cached, so a
        later call tries again. */
    method Get(domain: string, schemaFile: Option<Schema>) returns (r: Result<DomainDataLoader>)
      requires Valid()
      modifies this, instances.Values
      ensures Valid()
      ensures instances.Keys == old(instances.Keys) + {domain}
      ensures forall d :: d in old(instances) ==> instances[d] == old(instances[d])
      ensures domain !in old(instances) ==> fresh(instances[domain])
      ensures forall d :: d in old(instances) && d != domain ==> unchanged(instances[d])
      ensures domain in old(instances) && old(instances[domain].initialized) ==>
                unchanged(instances[domain]) && r == Success(instances[domain])
      ensures !(domain in old(instances) && old(instances[domain].initialized)) ==>
                match schemaFile
                case None => r == Failure(SchemaNotFound(domain)) && !instances[domain].initialized
                case Some(s) => r == Success(instances[domain]) && instances[domain].initialized
                                && instances[domain].schemaData == Some(s)
      ensures r.Success? ==> r.value.initialized && r.value.domain == domain
    {
      if domain !in instances {
        var created := new DomainDataLoader();
        instances := instances[domain := created];
      }
      var loader := instances[domain];
      if loader.initialized {
        return Success(loader);
      }
      var error := loader.Initialize(domain, schemaFile);
      if error.Some? {
        return Failure(error.value);
      }
      return Success(loader);
    }

    /** `clear_instances` */
    method ClearInstances()
      modifies this
      ensures instances == map[] && Valid()
    {
      instances := map[];
    }
  }
}
