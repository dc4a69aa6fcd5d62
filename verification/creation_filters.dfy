/**
 * Hibernate schema-creation filters: which tables, foreign keys, indexes and
 * auxiliary database objects a schema creation or migration includes.
 */
module CreationFilters {

  /** The schema objects a filter is asked about; only a table's name is consulted. */
  datatype Table = Table(name: string)
  datatype ForeignKey = ForeignKey(name: string)
  datatype Index = Index(name: string)
  datatype AuxiliaryDatabaseObject = AuxiliaryDatabaseObject(name: string)

  /**
   * The two implementations of the creation filter interface: one limited to
   * a set of table names, and one that includes all data.
   */
  datatype CreationFilter =
    | TablesOnly(tables: set<string>)
    | AllData

  /**
   * The tables-only filter's constructor: the set of the given names. A table
   * name is kept exactly when it is one of the arguments.
   */
  function NewTablesOnlyFilter(names: seq<string>): (f: CreationFilter)
    ensures f.TablesOnly?
    ensures forall n :: n in f.tables <==> n in names
  {
    TablesOnly(set n | n in names)
  }

  /**
   * `includeTable`: with all data every table is created; otherwise exactly
   * the tables whose name is in the filter's set.
   */
  function IncludeTable(f: CreationFilter, t: Table): (included: bool)
    ensures f.AllData? ==> included
    ensures f.TablesOnly? ==> (included <==> t.name in f.tables)
  {
    match f
    case TablesOnly(tables) => t.name in tables
    case AllData => true
  }

  /** `includeForeignKey`: decided by the owning table alone, whatever the key. */
  function IncludeForeignKey(f: CreationFilter, t: Table, fk: ForeignKey): (included: bool)
    ensures included == IncludeTable(f, t)
  {
    match f
    case TablesOnly(_) => IncludeTable(f, t)
    case AllData => true
  }

  /** `includeIndex`: decided by the owning table alone, whatever the index. */
  function IncludeIndex(f: CreationFilter, t: Table, index: Index): (included: bool)
    ensures included == IncludeTable(f, t)
  {
    match f
    case TablesOnly(_) => IncludeTable(f, t)
    case AllData => true
  }

  /** `includeObject`: auxiliary objects come only with all data. */
  function IncludeObject(f: CreationFilter, o: AuxiliaryDatabaseObject): (included: bool)
    ensures included <==> f.AllData?
  {
    match f
    case TablesOnly(_) => false
    case AllData => true
  }

  /** A tables-only filter includes a table exactly when its name was passed to the constructor. */
  lemma TablesOnlyIncludesNamedTables(names: seq<string>, t: Table, fk: ForeignKey, index: Index)
    ensures IncludeTable(NewTablesOnlyFilter(names), t) <==> t.name in names
    ensures IncludeForeignKey(NewTablesOnlyFilter(names), t, fk) <==> t.name in names
    ensures IncludeIndex(NewTablesOnlyFilter(names), t, index) <==> t.name in names
  {
  }

  /** The order and repetition of the constructor's names do not matter: equal name sets give the same filter. */
  lemma NameOrderAndDuplicatesIrrelevant(a: seq<string>, b: seq<string>)
    requires forall n :: n in a <==> n in b
    ensures NewTablesOnlyFilter(a) == NewTablesOnlyFilter(b)
  {
    assert NewTablesOnlyFilter(a).tables == NewTablesOnlyFilter(b).tables;
  }

  /** With no names, a tables-only filter includes nothing. */
  lemma EmptyTablesOnlyIncludesNothing(t: Table, fk: ForeignKey, index: Index, o: AuxiliaryDatabaseObject)
    ensures !IncludeTable(NewTablesOnlyFilter([]), t)
    ensures !IncludeForeignKey(NewTablesOnlyFilter([]), t, fk)
    ensures !IncludeIndex(NewTablesOnlyFilter([]), t, index)
    ensures !IncludeObject(NewTablesOnlyFilter([]), o)
  {
  }

  /** The all-data filter includes every object, so it includes whatever any filter includes. */
  lemma AllDataIncludesEverything(f: CreationFilter, t: Table, fk: ForeignKey, index: Index, o: AuxiliaryDatabaseObject)
    ensures IncludeTable(AllData, t) && IncludeForeignKey(AllData, t, fk)
    ensures IncludeIndex(AllData, t, index) && IncludeObject(AllData, o)
    ensures IncludeTable(f, t) ==> IncludeTable(AllData, t)
    ensures IncludeForeignKey(f, t, fk) ==> IncludeForeignKey(AllData, t, fk)
    ensures IncludeIndex(f, t, index) ==> IncludeIndex(AllData, t, index)
    ensures IncludeObject(f, o) ==> IncludeObject(AllData, o)
  {
  }
}
