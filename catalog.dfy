// The database catalog the pipeline consults and changes: which tables exist in the public
// schema and their column names, as information_schema reports them. Unquoted identifiers are
// folded to lower case by PostgreSQL when a table or a column is created.

module Database {
  import opened Strings

  /** PostgreSQL's folding of an unquoted identifier (ASCII letters only). */
  function Fold(name: string): (r: string)
    ensures |r| == |name|
    ensures forall i :: 0 <= i < |r| ==> !IsAsciiUpper(r[i])
  {
    Lower(name)
  }

  function FoldAll(names: seq<string>): (r: seq<string>)
    ensures |r| == |names|
    ensures forall i :: 0 <= i < |names| ==> r[i] == Fold(names[i])
  {
    seq(|names|, i requires 0 <= i < |names| => Fold(names[i]))
  }

  /** A folded name folds to itself. */
  lemma FoldIdempotent(name: string)
    ensures Fold(Fold(name)) == Fold(name)
  {
  }

  /** A name without upper-case letters is its own folding. */
  lemma FoldOfFolded(name: string)
    requires forall i :: 0 <= i < |name| ==> !IsAsciiUpper(name[i])
    ensures Fold(name) == name
  {
  }

  /** The public schema: table name to its column names in ordinal order. */
  class Catalog {
    var tables: map<string, seq<string>>

    constructor (initial: map<string, seq<string>>)
      ensures tables == initial
    {
      tables := initial;
    }

    /** The information_schema existence test: an exact, case-sensitive name comparison. */
    predicate HasTable(t: string)
      reads this
    {
      t in tables
    }

    predicate HasColumn(t: string, c: string)
      reads this
    {
      t in tables && c in tables[t]
    }

    /** CREATE TABLE with unquoted names: the table and its columns are stored folded. */
    method CreateTable(t: string, columns: seq<string>)
      modifies this
      ensures tables == old(tables)[Fold(t) := FoldAll(columns)]
    {
      tables := tables[Fold(t) := FoldAll(columns)];
    }

    /** ALTER TABLE ... ADD COLUMN on an existing table. */
    method AddColumn(t: string, c: string)
      requires t in tables
      modifies this
      ensures tables == old(tables)[t := old(tables)[t] + [Fold(c)]]
    {
      tables := tables[t := tables[t] + [Fold(c)]];
    }

    /** DROP TABLE IF EXISTS ... CASCADE. */
    method DropTable(t: string)
      modifies this
      ensures tables == old(tables) - {Fold(t)}
    {
      tables := tables - {Fold(t)};
    }
  }
}
