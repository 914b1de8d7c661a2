// core/table_validator.py: the table-name check that guards every statement into which a name
// is spliced, and the class-level cache of names already accepted.

module TableValidation {
  import opened Wrappers

  predicate IsLetterOrUnderscore(c: char) {
    'a' <= c <= 'z' || 'A' <= c <= 'Z' || c == '_'
  }

  predicate IsNameChar(c: char) {
    IsLetterOrUnderscore(c) || '0' <= c <= '9'
  }

  /** The whole name is one identifier: a letter or '_' followed by letters, digits and '_'. */
  predicate IsIdentifier(s: string) {
    |s| > 0 && IsLetterOrUnderscore(s[0]) && forall i :: 1 <= i < |s| ==> IsNameChar(s[i])
  }

  /**
   * What re.match of ^[a-zA-Z_][a-zA-Z0-9_]*$ accepts: Python's '$' also matches just before a
   * newline that ends the string.
   */
  predicate PatternMatchAsWritten(s: string) {
    IsIdentifier(s) || (|s| > 1 && s[|s| - 1] == '\n' && IsIdentifier(s[..|s| - 1]))
  }

  /** The answer of the existence query when a connection is given. */
  datatype ExistenceCheck = TableFound | TableMissing | DatabaseFailure

  datatype ValidationError = EmptyName | BadFormat(name: string) | NoSuchTable(name: string)

  /**
   * validate_table_name over the cache, with the format verdict as a parameter. A database
   * failure during the existence query is only logged, and the name is accepted.
   */
  function ValidateWith(cache: set<string>, name: string, conn: Option<ExistenceCheck>, wellFormed: bool)
    : (set<string>, Result<string, ValidationError>)
  {
    if name == "" then (cache, Err(EmptyName))
    else if !wellFormed then (cache, Err(BadFormat(name)))
    else if name in cache then (cache, Ok(name))
    else if conn == Some(TableMissing) then (cache, Err(NoSuchTable(name)))
    else (cache + {name}, Ok(name))
  }

  /** validate_table_name as written, with Python's '$'. */
  function ValidateAsWritten(cache: set<string>, name: string, conn: Option<ExistenceCheck>)
    : (set<string>, Result<string, ValidationError>)
  {
    ValidateWith(cache, name, conn, PatternMatchAsWritten(name))
  }

  /** validate_table_name with the pattern anchored at the very end (\Z, or re.fullmatch). */
  function Validate(cache: set<string>, name: string, conn: Option<ExistenceCheck>)
    : (set<string>, Result<string, ValidationError>)
  {
    ValidateWith(cache, name, conn, IsIdentifier(name))
  }

  /** As written, a name with a trailing newline is accepted and cached. */
  lemma TrailingNewlineAccepted()
    ensures ValidateAsWritten({}, "t\n", None) == ({"t\n"}, Ok("t\n"))
    ensures Validate({}, "t\n", None) == ({}, Err(BadFormat("t\n")))
  {
    var s := "t\n";
    assert s[..1] == "t";
    assert IsIdentifier(s[..1]);
    assert PatternMatchAsWritten(s);
    assert ValidateAsWritten({}, s, None) == ({} + {s}, Ok(s));
    assert {} + {s} == {s};
    assert !IsIdentifier("t\n") by {
      assert !IsNameChar("t\n"[1]);
    }
  }

  /** Every name the corrected check accepts is a bare identifier, safe to splice into SQL. */
  lemma AcceptedNamesAreIdentifiers(cache: set<string>, name: string, conn: Option<ExistenceCheck>)
    requires forall n :: n in cache ==> IsIdentifier(n)
    ensures var (cache', r) := Validate(cache, name, conn);
      && (r.Ok? ==> IsIdentifier(r.value) && '\n' !in r.value && ' ' !in r.value && ';' !in r.value)
      && (forall n :: n in cache' ==> IsIdentifier(n))
  {
    var (cache', r) := Validate(cache, name, conn);
    if r.Ok? {
      assert r.value == name;
      forall c | c in name ensures IsNameChar(c) {
        var i :| 0 <= i < |name| && name[i] == c;
      }
    }
  }

  /**
   * validate_table_name, for either format check (`wellFormed` is PatternMatchAsWritten(name) as
   * written, IsIdentifier(name) corrected): the empty name and a malformed name are refused and
   * never cached; a cached name is returned whatever the connection would say; a missing table
   * is refused and not cached; otherwise, a database failure included, the name is returned
   * unchanged and cached.
   */
  lemma ValidateCases(cache: set<string>, name: string, conn: Option<ExistenceCheck>, wellFormed: bool)
    ensures var (cache', r) := ValidateWith(cache, name, conn, wellFormed);
      && (name == "" ==> r == Err(EmptyName) && cache' == cache)
      && (name != "" && !wellFormed ==> r == Err(BadFormat(name)) && cache' == cache)
      && (name != "" && wellFormed && name in cache ==> r == Ok(name) && cache' == cache)
      && (name != "" && wellFormed && name !in cache && conn == Some(TableMissing) ==>
            r == Err(NoSuchTable(name)) && name !in cache')
      && (name != "" && wellFormed && conn == Some(DatabaseFailure) ==> r == Ok(name))
      && (r.Ok? ==> r.value == name && cache' == cache + {name})
      && (r.Err? ==> cache' == cache)
  {
  }

  /** The class-level cache of names already validated. */
  class TableValidator {
    var validated: set<string>

    constructor()
      ensures validated == {}
    {
      validated := {};
    }

    /** validate_table_name, with the pattern anchored at the end of the name. */
    method ValidateTableName(name: string, conn: Option<ExistenceCheck>) returns (r: Result<string, ValidationError>)
      modifies this
      ensures (validated, r) == Validate(old(validated), name, conn)
    {
      if name == "" {
        return Err(EmptyName);
      }
      if !IsIdentifier(name) {
        return Err(BadFormat(name));
      }
      if name in validated {
        return Ok(name);
      }
      if conn.Some? {
        match conn.value
        case TableMissing => return Err(NoSuchTable(name));
        case TableFound =>
        case DatabaseFailure =>
      }
      validated := validated + {name};
      r := Ok(name);
    }

    /** clear_cache. */
    method ClearCache()
      modifies this
      ensures validated == {}
    {
      validated := {};
    }
  }
}
