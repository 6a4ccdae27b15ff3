# Transaction recording for a finance assistant

This project models the part of the finance assistant's Postgres tools that
records a transaction (`pg_tools.py`). The model has three parts:

- **Type-alias normalisation.** A free-text type label is trimmed and
  upper-cased. It is then sent through the fixed `TYPE_ALIASES` table to
  `INCOME`, `EXPENSES` or `TRANSFER`. A label the table does not know passes
  through unchanged (`Aliases`).
- **Identifier resolution.** `_resolve_type_id` and `_get_category_id` run
  against the read-only `transaction_types` and `categories` tables
  (`Reference`). Python's truthiness is kept: an id of `0` and an empty
  string count as absent (`Truthiness`).
- **`add_transaction`** (`Transactions`). The function `Insertion` states
  the row one call writes, or why the call fails. The class `Ledger` holds
  the `transactions` table as a sequence and the id sequence as a counter.
  Its method `AddTransaction` does what the tool does, step by step, and is
  proved to append exactly the row `Insertion` describes or to leave the
  table and counter as they were.

The store is modelled in memory:

- A reference table is a sequence of `(id, name)` rows.
- `SELECT id ... LIMIT 1` returns the first matching row in table order
  (`Lookup`).
- `UPPER` (both Python's and SQL's) is the case fold `Upper`.
- `strip()` removes the characters Python's `str.isspace` accepts.
- Timestamps are opaque `Instant` values. The store's parser of
  `occurred_at` text and the store's clock (`NOW()`) are parameters of the
  call.
- The store refuses an insert whose timestamp text does not parse, or whose
  type or category id is not a row of its reference table. Those foreign keys
  come from the data model of the `transactions` table; the schema itself is
  not part of this model.

The default type id 2 applies not only when both `type_id` and `type_name`
are absent: an explicit `type_id` of `0`, or an empty `type_name`, also gives
2 (`TypeDefaultsToExpenses`).

## Model

| member | source | states |
|---|---|---|
| `Text.UpperChar` | pg_tools.py:52 | folding one character gives a character with no lower-case letter; it keeps spaces as spaces and non-spaces as non-spaces; characters that are not lower case are unchanged |
| `Text.Upper` | pg_tools.py:52 | the fold keeps the length and folds each character in place |
| `Text.TrimLeft` | pg_tools.py:52 | the result is the suffix left after dropping only whitespace, and it does not start with whitespace |
| `Text.TrimRight` | pg_tools.py:52 | the result is the prefix left after dropping only whitespace, and it does not end with whitespace |
| `Text.Strip` | pg_tools.py:45 | the result is a slice of the input with only whitespace dropped before and after it; it neither starts nor ends with whitespace, and it is empty exactly when the input is all whitespace |
| `Text.UpperIdempotent` | pg_tools.py:52 | upper-casing twice is upper-casing once |
| `Text.StripUpper` | pg_tools.py:52 | trimming and upper-casing commute |
| `Text.StripIdempotent` | pg_tools.py:52 | stripping twice is stripping once |
| `Text.UpperFixed` | pg_tools.py:36-38 | a string with no lower-case letter is its own fold |
| `Text.NormalFormFixed` | pg_tools.py:36-38 | an already trimmed and upper-cased label is unchanged by trim and upper-case |
| `Aliases.NormalizeType` | pg_tools.py:52-53 | a label whose trimmed, upper-cased form is an alias gives a canonical type name; any other label comes back trimmed and upper-cased, unchanged by the table |
| `Aliases.AliasTableClosed` | pg_tools.py:35-39 | the table's values are exactly INCOME, EXPENSES and TRANSFER, and each is a key that maps to itself |
| `Aliases.AliasKeysNonEmpty` | pg_tools.py:35-39 | the empty label is not an alias |
| `Aliases.CanonicalIsNormal` | pg_tools.py:35-39 | a canonical type name normalises to itself |
| `Aliases.AliasKeysNormalize` | pg_tools.py:35-39 | every key is already trimmed and upper-cased, so it normalises to its own table entry |
| `Aliases.NormalizeIdempotent` | pg_tools.py:52-53 | normalising twice equals normalising once, for every label |
| `Reference.Lookup` | pg_tools.py:54-56 | the lookup finds none exactly when no row's folded name equals the key; otherwise it returns the id of the first row that matches |
| `Reference.ResolveTypeId` | pg_tools.py:50-59 | only a non-empty type name can make the type unresolved; an id resolved from a name is always a row of the types table |
| `Reference.CategoryId` | pg_tools.py:41-48 | only a falsy category id can give none; an id found by name is always a row of the categories table |
| `Reference.LookupUnique` | pg_tools.py:54-56 | when exactly one row matches, LIMIT 1 returns that row's id |
| `Reference.TypeNameTakesPrecedence` | pg_tools.py:51-56 | with a non-empty name, the given type_id is ignored; the result is none exactly when no row's folded name equals the normalised name, and otherwise the id of a row whose folded name does |
| `Reference.TypeIdPassesThrough` | pg_tools.py:57-58 | with no usable name, a truthy type_id is returned without being checked against the table |
| `Reference.TypeDefaultsToExpenses` | pg_tools.py:57-59 | with no usable name and no truthy id, the result is 2; in the standard table this is the same id as the name EXPENSES |
| `Reference.StandardTypeIds` | pg_tools.py:27 | in the documented standard table (1=INCOME, 2=EXPENSES, 3=TRANSFER), INCOME resolves to 1 and EXPENSES to 2 |
| `Reference.AliasResolvesLikeCanonical` | pg_tools.py:50-56 | any label whose trimmed, upper-cased form is an alias resolves to the same result as its canonical name, in any table and whatever type_id is given |
| `Reference.AliasKeysResolveLikeCanonical` | pg_tools.py:36-38 | each alias key (ENTRADA, RECEITA, SALÁRIO, SAÍDA, ...) resolves to the same result as the canonical name it maps to |
| `Reference.PaddedSalarioLikeIncome` | pg_tools.py:36 | " salário ", padded and in lower case, resolves like INCOME |
| `Reference.SalaryIsIncome` | pg_tools.py:27 | in the standard table, " salário " resolves to 1 (INCOME) |
| `Reference.StandardNamesCanonical` | pg_tools.py:27 | every row of the standard table has one of the three canonical type names as its folded name |
| `Reference.UnknownTypeName` | pg_tools.py:51-56 | in the standard table, every non-empty name whose normal form is not INCOME, EXPENSES or TRANSFER does not resolve, whatever type_id is given |
| `Reference.FooUnresolved` | pg_tools.py:51-56 | the name FOO, neither an alias nor a standard type, does not resolve |
| `Reference.CategoryIdTakesPrecedence` | pg_tools.py:42-43 | a truthy category_id is returned unchanged, whatever the name |
| `Reference.CategoryByName` | pg_tools.py:44-47 | with no truthy id, a non-empty name gives none exactly when no row's folded name equals the folded, trimmed name; otherwise it gives the id of a matching row; it never fails |
| `Reference.CategoryAbsent` | pg_tools.py:48 | with neither a truthy id nor a non-empty name, the category is none |
| `Truthiness.IdGiven` | pg_tools.py:57 | `if x:` on an optional id: None and 0 both read as absent (also lines 42 and 80) |
| `Truthiness.TextGiven` | pg_tools.py:51 | `if s:` on an optional string: None and the empty string both read as absent (also lines 44 and 83) |
| `Transactions.StoredTime` | pg_tools.py:83-104 | without a non-empty occurred_at the store's clock is used, so only a caller's text can fail to give a time |
| `Transactions.KeysExist` | pg_tools.py:92 | the foreign-key rule the store enforces on an inserted row: its type id and any category id are rows of their tables |
| `Transactions.Insertion` | pg_tools.py:77-104 | an inserted row carries the next id, and its type and category ids exist in their tables |
| `Transactions.UnresolvedTypeRefused` | pg_tools.py:80-81 | a type resolving to none or 0 is refused as an invalid type, before any insert |
| `Transactions.InsertionSucceedsIff` | pg_tools.py:77-112 | a call succeeds exactly when the type resolves to a truthy id that exists, the timestamp parses, and the category, if any, exists |
| `Transactions.InsertedRowContents` | pg_tools.py:83-104 | the inserted row has the caller's amount, description, payment method and source text, the resolved type and category, and the caller's parsed timestamp if one was given, else the store's clock |
| `Transactions.DefaultTypeInserted` | pg_tools.py:59 | with no type name and no truthy type id, a successful insert is an EXPENSES (id 2) row |
| `Transactions.UnknownCategoryNameStoredAsNull` | pg_tools.py:78 | an unmatched category name never makes the call fail, and the row stores a null category |
| `Transactions.InsertionWithoutCategoryOrTime` | pg_tools.py:94-104 | a resolved, existing type with no category and no timestamp gives a row stamped with the clock |
| `Transactions.SalaryInserted` | pg_tools.py:94-104 | the salary entry (" salário ", amount 1000, no timestamp) becomes an INCOME row at the store's clock |
| `Transactions.UnknownTypeRefused` | pg_tools.py:80-81 | the same entry under an unknown type name is refused |
| `Transactions.SalaryThenUnknownType` | pg_tools.py:77-112 | two calls on one ledger: the salary entry is stored as row 1 with the clock's time, then the same entry under the name FOO fails and leaves one row |
| `Transactions.Ledger.InsertRow` | pg_tools.py:83-107 | the atomic INSERT: it appends exactly one row with the next id when the timestamp parses and the keys exist; otherwise it writes nothing and says which check failed |
| `Transactions.Ledger.AddTransaction` | pg_tools.py:62-112 | on success it appends exactly the row Insertion describes and returns its id and timestamp; on any failure it returns the error and leaves the table and the id sequence unchanged; the ledger invariant (keys exist, ids increase) is kept |

## Left out

- `faq_tool.py`: PDF loading, text splitting, embeddings and vector search are foreign library calls with no logic of their own here.
- Connection handling (`get_conn`, environment loading, cursor and connection close), the tool registration, the pydantic field metadata and the `TOOLS` list: I/O and framework plumbing.
- The query, balance and update tools are not in `pg_tools.py`, so they are not part of this model.
- The SQL text, the `::timestamptz` parser and the `NOW()` clock are not modelled. The parser and the clock are parameters. `str(occurred)` is returned as the stored `Instant`, not as its text.
- Error message texts are not modelled. Each error is reported by its kind (`Failure`): an invalid type, an unreadable timestamp, or a missing type or category row.
- Other store failures (a lost connection, a failing lookup query) and concurrent callers: I/O and concurrency.
- `Ledger.AddTransaction`: a rejected insert leaves the id counter unchanged. A Postgres sequence can consume a value on a failed insert; the model promises only that ids are fresh and increasing.
- `amount` is a `real`. The float is only stored, never computed with, so NaN, infinities and rounding to the column type are left out.
- `Text.UpperChar` folds ASCII and Latin-1 lower-case letters only. Other Unicode case mappings (`ß` to `SS`, `ÿ`, non-Latin scripts) and locale-dependent SQL `UPPER` are left out.
- `LIMIT 1` without `ORDER BY` may return any matching row. The model returns the first in table order; `LookupUnique` shows the choice does not matter when folded names are unique.
