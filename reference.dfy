/**
 * Resolution of transaction types and categories against the two read-only
 * reference tables (`transaction_types` and `categories`).
 */
module Reference {
  import opened Truthiness
  import opened Text
  import opened Aliases

  /** One row of a reference table: its id and its name (`type` or `name` column). */
  datatype RefRow = RefRow(id: int, name: string)

  predicate HasId(table: seq<RefRow>, id: int)
  {
    exists i :: 0 <= i < |table| && table[i].id == id
  }

  /** `UPPER(name) = key` for one row. */
  predicate Matches(row: RefRow, key: string)
  {
    Upper(row.name) == key
  }

  /**
   * `SELECT id FROM table WHERE UPPER(name) = key LIMIT 1`: the id of the
   * first row, in table order, whose folded name equals `key`.
   */
  function Lookup(table: seq<RefRow>, key: string): (r: Option<int>)
    ensures r.None? <==> forall i :: 0 <= i < |table| ==> !Matches(table[i], key)
    ensures r.Some? ==> exists i :: 0 <= i < |table| && table[i].id == r.value && Matches(table[i], key)
                                    && forall j :: 0 <= j < i ==> !Matches(table[j], key)
  {
    if table == [] then None
    else if Matches(table[0], key) then Some(table[0].id)
    else
      var r := Lookup(table[1..], key);
      assert r.Some? ==> exists i :: 1 <= i < |table| && table[i].id == r.value && Matches(table[i], key)
                                     && forall j :: 0 <= j < i ==> !Matches(table[j], key) by {
        if r.Some? {
          var i :| 0 <= i < |table[1..]| && table[1..][i].id == r.value && Matches(table[1..][i], key)
                   && forall j :: 0 <= j < i ==> !Matches(table[1..][j], key);
          assert forall j :: 1 <= j < i + 1 ==> table[j] == table[1..][j - 1];
        }
      }
      r
  }

  /** The default type id, `EXPENSES` in the standard `transaction_types` table. */
  const ExpensesId := 2

  /** The `transaction_types` table as the argument schema documents it. */
  const StandardTypes := [RefRow(1, Income), RefRow(2, Expenses), RefRow(3, Transfer)]

  /**
   * `_resolve_type_id`: a non-empty name decides (after alias normalisation);
   * otherwise a truthy id is passed through; otherwise the default.
   */
  function ResolveTypeId(types: seq<RefRow>, typeId: Option<int>, typeName: Option<string>): (r: Option<int>)
    ensures r.None? ==> TextGiven(typeName)
    ensures TextGiven(typeName) && r.Some? ==> HasId(types, r.value)
  {
    if TextGiven(typeName) then Lookup(types, NormalizeType(typeName.value))
    else if IdGiven(typeId) then Some(typeId.value)
    else Some(ExpensesId)
  }

  /**
   * `_get_category_id`: a truthy id is returned as it is; otherwise a
   * non-empty name is trimmed and matched case-insensitively; otherwise none.
   */
  function CategoryId(categories: seq<RefRow>, categoryId: Option<int>, categoryName: Option<string>): (r: Option<int>)
    ensures r.None? ==> !IdGiven(categoryId)
    ensures !IdGiven(categoryId) && r.Some? ==> HasId(categories, r.value)
  {
    if IdGiven(categoryId) then categoryId
    else if TextGiven(categoryName) then Lookup(categories, Upper(Strip(categoryName.value)))
    else None
  }

  /** With unique folded names, `LIMIT 1` has only one row to choose. */
  lemma LookupUnique(table: seq<RefRow>, key: string, i: int)
    requires 0 <= i < |table| && Matches(table[i], key)
    requires forall j :: 0 <= j < |table| && j != i ==> !Matches(table[j], key)
    ensures Lookup(table, key) == Some(table[i].id)
  {
  }

  /**
   * A non-empty type name decides alone: a given `type_id` is ignored; the
   * result is none exactly when no row's folded name equals the normalised
   * name, and otherwise the id of a row whose folded name does.
   */
  lemma TypeNameTakesPrecedence(types: seq<RefRow>, typeId: Option<int>, name: string)
    requires name != ""
    ensures ResolveTypeId(types, typeId, Some(name)) == ResolveTypeId(types, None, Some(name))
    ensures ResolveTypeId(types, typeId, Some(name)).None?
            <==> forall i :: 0 <= i < |types| ==> Upper(types[i].name) != NormalizeType(name)
    ensures var r := ResolveTypeId(types, typeId, Some(name));
            r.Some? ==> exists i :: 0 <= i < |types| && types[i].id == r.value
                                    && Upper(types[i].name) == NormalizeType(name)
  {
  }

  /** Without a usable name, a truthy id is passed through without being checked against the table. */
  lemma TypeIdPassesThrough(types: seq<RefRow>, id: int, typeName: Option<string>)
    requires id != 0 && !TextGiven(typeName)
    ensures ResolveTypeId(types, Some(id), typeName) == Some(id)
  {
  }

  /** A row that does not match is skipped. */
  lemma LookupSkips(table: seq<RefRow>, key: string)
    requires table != [] && !Matches(table[0], key)
    ensures Lookup(table, key) == Lookup(table[1..], key)
  {
  }

  /** "INCOME" selects row 1 and "EXPENSES" row 2 of the standard table. */
  lemma StandardTypeIds()
    ensures Lookup(StandardTypes, Income) == Some(1)
    ensures Lookup(StandardTypes, Expenses) == Some(2)
  {
    IncomeRowFirst();
    LookupSkips(StandardTypes, Expenses);
    ExpensesRowNext();
  }

  lemma IncomeRowFirst()
    ensures Matches(StandardTypes[0], Income) && !Matches(StandardTypes[0], Expenses)
  {
    UpperFixed(Income);
  }

  lemma ExpensesRowNext()
    ensures Lookup(StandardTypes[1..], Expenses) == Some(2)
  {
    assert StandardTypes[1..] == [RefRow(2, Expenses), RefRow(3, Transfer)];
    UpperFixed(Expenses);
  }

  /** With neither a usable name nor a truthy id, the type defaults to `EXPENSES`. */
  lemma TypeDefaultsToExpenses(types: seq<RefRow>, typeId: Option<int>, typeName: Option<string>)
    requires !IdGiven(typeId) && !TextGiven(typeName)
    ensures ResolveTypeId(types, typeId, typeName) == Some(ExpensesId)
    ensures ResolveTypeId(StandardTypes, typeId, typeName) == ResolveTypeId(StandardTypes, None, Some(Expenses))
  {
    CanonicalIsNormal(Expenses);
    StandardTypeIds();
  }

  /**
   * Any label whose trimmed, upper-cased form is an alias resolves to the
   * same id as the canonical name it stands for, in any table.
   */
  lemma AliasResolvesLikeCanonical(types: seq<RefRow>, typeId: Option<int>, otherId: Option<int>, tag: string)
    requires Upper(Strip(tag)) in TypeAliases
    ensures ResolveTypeId(types, typeId, Some(tag))
            == ResolveTypeId(types, otherId, Some(TypeAliases[Upper(Strip(tag))]))
  {
    var k := Upper(Strip(tag));
    var c := TypeAliases[k];
    assert k != "" by { AliasKeysNonEmpty(); }
    assert tag != "";
    assert NormalizeType(tag) == c;
    AliasTableClosed();
    CanonicalIsNormal(c);
    assert c != "" by { AliasKeysNonEmpty(); }
  }

  /**
   * Each key of the alias table ("ENTRADA", "RECEITA", "SALÁRIO", "SAÍDA",
   * ...) resolves to the same id as the canonical name it maps to.
   */
  lemma AliasKeysResolveLikeCanonical(types: seq<RefRow>, typeId: Option<int>, alias: string)
    requires alias in TypeAliases
    ensures ResolveTypeId(types, typeId, Some(alias)) == ResolveTypeId(types, None, Some(TypeAliases[alias]))
  {
    AliasKeysNormalize();
    AliasResolvesLikeCanonical(types, typeId, None, alias);
  }

  /** " salário ", padded and in lower case, resolves like "INCOME" in any table. */
  lemma PaddedSalarioLikeIncome(types: seq<RefRow>, typeId: Option<int>)
    ensures ResolveTypeId(types, typeId, Some(" sal\U{E1}rio ")) == ResolveTypeId(types, None, Some(Income))
  {
    SalarioEntry();
    SalarioNormal();
    AliasResolvesLikeCanonical(types, typeId, None, " sal\U{E1}rio ");
  }

  /** A padded, lower-case "salário" picks the `INCOME` row of the standard table. */
  lemma SalaryIsIncome(typeId: Option<int>)
    ensures ResolveTypeId(StandardTypes, typeId, Some(" sal\U{E1}rio ")) == Some(1)
  {
    PaddedSalarioLikeIncome(StandardTypes, typeId);
    CanonicalIsNormal(Income);
    StandardTypeIds();
  }

  /** Witness helper: row 1 is in the standard table. */
  lemma StandardHasIncome()
    ensures HasId(StandardTypes, 1)
  {
    assert StandardTypes[0].id == 1;
  }

  /** The folded names of the standard table are the three canonical type names. */
  lemma StandardNamesCanonical()
    ensures forall i :: 0 <= i < |StandardTypes| ==> Upper(StandardTypes[i].name) in CanonicalTypes
  {
    forall i | 0 <= i < |StandardTypes|
      ensures Upper(StandardTypes[i].name) in CanonicalTypes
    {
      if i == 0 {
        IncomeFolded();
      } else if i == 1 {
        ExpensesFolded();
      } else {
        TransferFolded();
      }
    }
  }

  lemma IncomeFolded()
    ensures Upper(Income) == Income
  {
    UpperFixed(Income);
  }

  lemma ExpensesFolded()
    ensures Upper(Expenses) == Expenses
  {
    UpperFixed(Expenses);
  }

  lemma TransferFolded()
    ensures Upper(Transfer) == Transfer
  {
    UpperFixed(Transfer);
  }

  /**
   * In the standard table, a non-empty name whose normal form is not one of
   * the three canonical type names does not resolve, whatever type id is given.
   */
  lemma UnknownTypeName(typeId: Option<int>, name: string)
    requires name != "" && NormalizeType(name) !in CanonicalTypes
    ensures ResolveTypeId(StandardTypes, typeId, Some(name)) == None
  {
    StandardNamesCanonical();
  }

  /** "FOO" is neither an alias nor a standard type, so it does not resolve. */
  lemma FooUnresolved(typeId: Option<int>)
    ensures ResolveTypeId(StandardTypes, typeId, Some("FOO")) == None
  {
    FooNormal();
    UnknownTypeName(typeId, "FOO");
  }

  lemma FooNormal()
    ensures NormalizeType("FOO") == "FOO" && "FOO" !in CanonicalTypes
  {
    NormalFormFixed("FOO");
    assert "FOO" !in TypeAliases;
  }

  lemma SalarioEntry()
    ensures TypeAliases["SAL\U{C1}RIO"] == Income
  {
  }

  lemma SalarioNormal()
    ensures Upper(Strip(" sal\U{E1}rio ")) == "SAL\U{C1}RIO"
  {
    SalarioStrip();
    SalarioUpper();
  }

  lemma SalarioUpper()
    ensures Upper("sal\U{E1}rio") == "SAL\U{C1}RIO"
  {
  }

  lemma SalarioStrip()
    ensures Strip(" sal\U{E1}rio ") == "sal\U{E1}rio"
  {
    var s := " sal\U{E1}rio ";
    assert TrimLeft(s[1..]) == s[1..];
    assert TrimLeft(s) == s[1..];
    assert TrimRight(s[1..|s| - 1]) == s[1..|s| - 1];
    assert TrimRight(s[1..]) == s[1..|s| - 1];
  }

  /** A truthy category id is returned unchanged, whatever the name says. */
  lemma CategoryIdTakesPrecedence(categories: seq<RefRow>, id: int, categoryName: Option<string>)
    requires id != 0
    ensures CategoryId(categories, Some(id), categoryName) == Some(id)
  {
  }

  /**
   * Without a truthy id, a non-empty name resolves to the first row whose
   * folded name equals the folded, trimmed name, or to none (never an error).
   */
  lemma CategoryByName(categories: seq<RefRow>, categoryId: Option<int>, name: string)
    requires !IdGiven(categoryId) && name != ""
    ensures var r := CategoryId(categories, categoryId, Some(name));
            && (r.None? <==> forall i :: 0 <= i < |categories| ==> Upper(categories[i].name) != Upper(Strip(name)))
            && (r.Some? ==> exists i :: 0 <= i < |categories| && categories[i].id == r.value
                                        && Upper(categories[i].name) == Upper(Strip(name)))
  {
  }

  /** Neither a truthy id nor a non-empty name: no category. */
  lemma CategoryAbsent(categories: seq<RefRow>, categoryId: Option<int>, categoryName: Option<string>)
    requires !IdGiven(categoryId) && !TextGiven(categoryName)
    ensures CategoryId(categories, categoryId, categoryName) == None
  {
  }
}
