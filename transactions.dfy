/**
 * `add_transaction`: resolve the type and the category, refuse an unresolved
 * type, then insert one row into the `transactions` table, all or nothing.
 */
module Transactions {
  import opened Truthiness
  import opened Reference

  /** An absolute point in time (`timestamptz`); its representation does not matter here. */
  type Instant = int

  /** The tool's argument record; `None` is an argument left out. */
  datatype AddTransactionArgs = AddTransactionArgs(
    amount: real,
    sourceText: string,
    occurredAt: Option<string>,
    typeId: Option<int>,
    typeName: Option<string>,
    categoryId: Option<int>,
    description: Option<string>,
    paymentMethod: Option<string>,
    categoryName: Option<string>)

  /** One row of the `transactions` table. */
  datatype Transaction = Transaction(
    id: int,
    amount: real,
    typeId: int,
    categoryId: Option<int>,
    description: Option<string>,
    paymentMethod: Option<string>,
    occurredAt: Instant,
    sourceText: string)

  /** Why a call reports `status: error`. */
  datatype Failure =
    | InvalidType          // the type did not resolve; no statement is issued
    | BadTimestamp         // the store cannot read `occurred_at` as a timestamp
    | UnknownType          // the resolved type id is not a `transaction_types` row
    | UnknownCategory      // the resolved category id is not a `categories` row

  /** The dictionary the tool returns: `status: ok` with `id` and `occurred_at`, or `status: error`. */
  datatype Outcome = Ok(id: int, occurredAt: Instant) | Error(failure: Failure)

  /** The row an insert would write, or why the call fails. */
  datatype Insert = Inserted(row: Transaction) | Refused(failure: Failure)

  /**
   * The `occurred_at` the store writes: the caller's text read by the store's
   * parser when it is non-empty, else the store's own clock.
   */
  function StoredTime(occurredAt: Option<string>, now: Instant, parse: string -> Option<Instant>): (r: Option<Instant>)
    ensures r.None? ==> TextGiven(occurredAt)
    ensures !TextGiven(occurredAt) ==> r == Some(now)
  {
    if TextGiven(occurredAt) then parse(occurredAt.value) else Some(now)
  }

  /** The foreign keys of a row point at existing reference rows. */
  predicate KeysExist(types: seq<RefRow>, categories: seq<RefRow>, t: Transaction)
  {
    HasId(types, t.typeId) && (t.categoryId.Some? ==> HasId(categories, t.categoryId.value))
  }

  /**
   * What one call does to a store whose next generated id is `newId`: the row
   * inserted, or the failure reported.
   */
  function Insertion(types: seq<RefRow>, categories: seq<RefRow>, args: AddTransactionArgs,
                     now: Instant, parse: string -> Option<Instant>, newId: int): (r: Insert)
    ensures r.Inserted? ==> r.row.id == newId && KeysExist(types, categories, r.row)
  {
    var typeId := ResolveTypeId(types, args.typeId, args.typeName);
    var categoryId := CategoryId(categories, args.categoryId, args.categoryName);
    if !IdGiven(typeId) then Refused(InvalidType)
    else
      var when := StoredTime(args.occurredAt, now, parse);
      if when.None? then Refused(BadTimestamp)
      else if !HasId(types, typeId.value) then Refused(UnknownType)
      else if categoryId.Some? && !HasId(categories, categoryId.value) then Refused(UnknownCategory)
      else Inserted(Transaction(newId, args.amount, typeId.value, categoryId, args.description,
                                args.paymentMethod, when.value, args.sourceText))
  }

  /** A type that resolves to none or to 0 is refused before anything is written. */
  lemma UnresolvedTypeRefused(types: seq<RefRow>, categories: seq<RefRow>, args: AddTransactionArgs,
                              now: Instant, parse: string -> Option<Instant>, newId: int)
    requires !IdGiven(ResolveTypeId(types, args.typeId, args.typeName))
    ensures Insertion(types, categories, args, now, parse, newId) == Refused(InvalidType)
  {
  }

  /**
   * The call succeeds exactly when the type resolves to a truthy id of an
   * existing type, the timestamp is readable and the category, if any, exists.
   */
  lemma InsertionSucceedsIff(types: seq<RefRow>, categories: seq<RefRow>, args: AddTransactionArgs,
                             now: Instant, parse: string -> Option<Instant>, newId: int)
    ensures var typeId := ResolveTypeId(types, args.typeId, args.typeName);
            var categoryId := CategoryId(categories, args.categoryId, args.categoryName);
            Insertion(types, categories, args, now, parse, newId).Inserted?
            <==> && IdGiven(typeId) && HasId(types, typeId.value)
                 && StoredTime(args.occurredAt, now, parse).Some?
                 && (categoryId.Some? ==> HasId(categories, categoryId.value))
  {
  }

  /**
   * The inserted row carries the caller's amount, description, payment method
   * and source text, the resolved type and category (none stays null), and
   * the caller's timestamp or else the clock.
   */
  lemma InsertedRowContents(types: seq<RefRow>, categories: seq<RefRow>, args: AddTransactionArgs,
                            now: Instant, parse: string -> Option<Instant>, newId: int)
    requires Insertion(types, categories, args, now, parse, newId).Inserted?
    ensures var t := Insertion(types, categories, args, now, parse, newId).row;
            && t.id == newId
            && t.amount == args.amount && t.description == args.description
            && t.paymentMethod == args.paymentMethod && t.sourceText == args.sourceText
            && Some(t.typeId) == ResolveTypeId(types, args.typeId, args.typeName)
            && t.categoryId == CategoryId(categories, args.categoryId, args.categoryName)
            && (TextGiven(args.occurredAt) ==> Some(t.occurredAt) == parse(args.occurredAt.value))
            && (!TextGiven(args.occurredAt) ==> t.occurredAt == now)
  {
  }

  /** With no type name and no truthy type id, a successful insert is an `EXPENSES` row. */
  lemma DefaultTypeInserted(types: seq<RefRow>, categories: seq<RefRow>, args: AddTransactionArgs,
                            now: Instant, parse: string -> Option<Instant>, newId: int)
    requires !TextGiven(args.typeName) && !IdGiven(args.typeId)
    requires Insertion(types, categories, args, now, parse, newId).Inserted?
    ensures Insertion(types, categories, args, now, parse, newId).row.typeId == ExpensesId
  {
  }

  /** A category name that matches no row is stored as null; it never makes the call fail. */
  lemma UnknownCategoryNameStoredAsNull(types: seq<RefRow>, categories: seq<RefRow>, args: AddTransactionArgs,
                                        now: Instant, parse: string -> Option<Instant>, newId: int)
    requires !IdGiven(args.categoryId)
    requires CategoryId(categories, args.categoryId, args.categoryName).None?
    ensures var typeId := ResolveTypeId(types, args.typeId, args.typeName);
            Insertion(types, categories, args, now, parse, newId).Inserted?
            <==> IdGiven(typeId) && HasId(types, typeId.value) && StoredTime(args.occurredAt, now, parse).Some?
    ensures Insertion(types, categories, args, now, parse, newId).Inserted? ==>
            Insertion(types, categories, args, now, parse, newId).row.categoryId == None
  {
  }

  /**
   * The `transactions` table together with the two read-only reference
   * tables and the id sequence.
   */
  class Ledger {
    const types: seq<RefRow>
    const categories: seq<RefRow>
    var rows: seq<Transaction>
    var nextId: int

    /** Every row's keys exist, ids increase in insertion order and stay below the next id. */
    ghost predicate Valid()
      reads this
    {
      && (forall i :: 0 <= i < |rows| ==> rows[i].id < nextId && KeysExist(types, categories, rows[i]))
      && (forall i, j :: 0 <= i < j < |rows| ==> rows[i].id < rows[j].id)
    }

    constructor (types: seq<RefRow>, categories: seq<RefRow>, firstId: int)
      ensures Valid()
      ensures this.types == types && this.categories == categories
      ensures rows == [] && nextId == firstId
    {
      this.types := types;
      this.categories := categories;
      rows := [];
      nextId := firstId;
    }

    /**
     * `INSERT ... RETURNING id, occurred_at` as one atomic statement: the
     * store rejects an unreadable timestamp or a missing foreign key and then
     * writes nothing.
     */
    method InsertRow(amount: real, typeId: int, categoryId: Option<int>, description: Option<string>,
                     paymentMethod: Option<string>, when: Option<Instant>, sourceText: string)
      returns (out: Insert)
      requires Valid()
      modifies this
      ensures Valid()
      ensures out.Inserted? <==> when.Some? && HasId(types, typeId)
                                 && (categoryId.Some? ==> HasId(categories, categoryId.value))
      ensures out.Inserted? ==>
                && out.row == Transaction(old(nextId), amount, typeId, categoryId, description,
                                          paymentMethod, when.value, sourceText)
                && rows == old(rows) + [out.row] && nextId == old(nextId) + 1
      ensures out.Refused? ==> rows == old(rows) && nextId == old(nextId)
      ensures out.Refused? ==> out.failure == if when.None? then BadTimestamp
                                              else if !HasId(types, typeId) then UnknownType
                                              else UnknownCategory
    {
      if when.None? {
        return Refused(BadTimestamp);
      }
      if !HasId(types, typeId) {
        return Refused(UnknownType);
      }
      if categoryId.Some? && !HasId(categories, categoryId.value) {
        return Refused(UnknownCategory);
      }
      var row := Transaction(nextId, amount, typeId, categoryId, description, paymentMethod, when.value, sourceText);
      rows := rows + [row];
      nextId := nextId + 1;
      out := Inserted(row);
    }

    /**
     * The `add_transaction` tool: on success exactly the row `Insertion`
     * describes is appended and its id and timestamp are reported; on any
     * failure the table and the id sequence are as before.
     */
    method AddTransaction(args: AddTransactionArgs, now: Instant, parse: string -> Option<Instant>)
      returns (out: Outcome)
      requires Valid()
      modifies this
      ensures Valid()
      ensures match Insertion(types, categories, args, now, parse, old(nextId))
              case Inserted(t) => out == Ok(t.id, t.occurredAt) && rows == old(rows) + [t] && nextId == old(nextId) + 1
              case Refused(f) => out == Error(f) && rows == old(rows) && nextId == old(nextId)
    {
      ghost var spec := Insertion(types, categories, args, now, parse, nextId);
      var typeId := ResolveTypeId(types, args.typeId, args.typeName);
      var categoryId := CategoryId(categories, args.categoryId, args.categoryName);
      if !IdGiven(typeId) {
        assert spec == Refused(InvalidType);
        return Error(InvalidType);
      }
      var when: Option<Instant>;
      if TextGiven(args.occurredAt) {
        when := parse(args.occurredAt.value);
      } else {
        when := Some(now);
      }
      assert when == StoredTime(args.occurredAt, now, parse);
      var inserted := InsertRow(args.amount, typeId.value, categoryId, args.description,
                                args.paymentMethod, when, args.sourceText);
      assert inserted == spec;
      match inserted
      case Inserted(t) => out := Ok(t.id, t.occurredAt);
      case Refused(f) => out := Error(f);
    }
  }

  /** A resolved, existing type with no category and no timestamp gives a row at the clock. */
  lemma InsertionWithoutCategoryOrTime(types: seq<RefRow>, categories: seq<RefRow>, args: AddTransactionArgs,
                                       now: Instant, parse: string -> Option<Instant>, newId: int, typeId: int)
    requires ResolveTypeId(types, args.typeId, args.typeName) == Some(typeId)
    requires typeId != 0 && HasId(types, typeId)
    requires CategoryId(categories, args.categoryId, args.categoryName) == None
    requires !TextGiven(args.occurredAt)
    ensures Insertion(types, categories, args, now, parse, newId)
            == Inserted(Transaction(newId, args.amount, typeId, None, args.description, args.paymentMethod,
                                    now, args.sourceText))
  {
  }

  /** The arguments of a salary entry with a padded, lower-case type name and no timestamp. */
  function SalaryArgs(): AddTransactionArgs
  {
    AddTransactionArgs(1000.0, "sal\U{E1}rio 1000", None, None, Some(" sal\U{E1}rio "), None, None, None, None)
  }

  /** The salary entry becomes an `INCOME` row at the store's clock. */
  lemma SalaryInserted(now: Instant, parse: string -> Option<Instant>, newId: int)
    ensures Insertion(StandardTypes, [], SalaryArgs(), now, parse, newId)
            == Inserted(Transaction(newId, 1000.0, 1, None, None, None, now, "sal\U{E1}rio 1000"))
  {
    SalaryIsIncome(None);
    StandardHasIncome();
    InsertionWithoutCategoryOrTime(StandardTypes, [], SalaryArgs(), now, parse, newId, 1);
  }

  /** The same entry under an unknown type name is refused. */
  lemma UnknownTypeRefused(now: Instant, parse: string -> Option<Instant>, newId: int)
    ensures Insertion(StandardTypes, [], SalaryArgs().(typeName := Some("FOO")), now, parse, newId)
            == Refused(InvalidType)
  {
    FooUnresolved(None);
  }

  /**
   * Two calls on a ledger with the standard types and no categories: the
   * salary entry is stored as row 1; an unknown type name then fails and
   * writes nothing.
   */
  method SalaryThenUnknownType(now: Instant, parse: string -> Option<Instant>)
  {
    var ledger := new Ledger(StandardTypes, [], 1);
    SalaryInserted(now, parse, 1);
    var out := ledger.AddTransaction(SalaryArgs(), now, parse);
    assert out == Ok(1, now);
    assert ledger.rows == [Transaction(1, 1000.0, 1, None, None, None, now, "sal\U{E1}rio 1000")];

    UnknownTypeRefused(now, parse, 2);
    var out2 := ledger.AddTransaction(SalaryArgs().(typeName := Some("FOO")), now, parse);
    assert out2 == Error(InvalidType);
    assert |ledger.rows| == 1;
  }
}
