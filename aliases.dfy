/**
 * The fixed alias table that turns a free-text transaction-type tag into
 * one of the three canonical type names, and the normalisation built on it.
 */
module Aliases {
  import opened Text

  const Income := "INCOME"
  const Expenses := "EXPENSES"
  const Transfer := "TRANSFER"

  /** The canonical type names of the `transaction_types` table. */
  const CanonicalTypes: set<string> := {Income, Expenses, Transfer}

  /** Upper-cased tag -> canonical type name. */
  const TypeAliases: map<string, string> := map[
    "INCOME" := Income, "ENTRADA" := Income, "RECEITA" := Income, "SAL\U{C1}RIO" := Income,
    "EXPENSE" := Expenses, "EXPENSES" := Expenses, "SA\U{CD}DA" := Expenses, "DESPESA" := Expenses,
    "TRANSFER" := Transfer, "TRANSFER\U{CA}NCIA" := Transfer
  ]

  /**
   * A type tag trimmed, upper-cased and sent through the alias table; a
   * tag the table does not know comes back trimmed and upper-cased.
   */
  function NormalizeType(tag: string): (t: string)
    ensures Upper(Strip(tag)) in TypeAliases ==> t in CanonicalTypes
    ensures Upper(Strip(tag)) !in TypeAliases ==> t == Upper(Strip(tag))
  {
    var k := Upper(Strip(tag));
    if k in TypeAliases then TypeAliases[k] else k
  }

  /** Every value of the alias table is itself a key that maps to itself. */
  lemma AliasTableClosed()
    ensures TypeAliases.Values == CanonicalTypes
    ensures forall c :: c in CanonicalTypes ==> c in TypeAliases && TypeAliases[c] == c
  {
    forall v | v in TypeAliases.Values
      ensures v in CanonicalTypes
    {
      var k :| k in TypeAliases && TypeAliases[k] == v;
    }
    assert TypeAliases[Income] == Income && TypeAliases[Expenses] == Expenses && TypeAliases[Transfer] == Transfer;
  }

  /** No key of the table is empty. */
  lemma AliasKeysNonEmpty()
    ensures "" !in TypeAliases
  {
  }

  /** A canonical name is its own normal form. */
  lemma CanonicalIsNormal(c: string)
    requires c in CanonicalTypes
    ensures NormalizeType(c) == c
  {
    AliasTableClosed();
    if c == Income {
      NormalFormFixed(Income);
    } else if c == Expenses {
      NormalFormFixed(Expenses);
    } else {
      NormalFormFixed(Transfer);
    }
  }

  /** Each key of the table is already trimmed and upper-cased, so it normalises to its own entry. */
  lemma AliasKeysNormalize()
    ensures forall a :: a in TypeAliases ==> Upper(Strip(a)) == a && NormalizeType(a) == TypeAliases[a]
  {
    forall a | a in TypeAliases
      ensures Upper(Strip(a)) == a
    {
      NormalFormFixed(a);
    }
  }

  /** Normalising is idempotent: its result is a fixed point. */
  lemma NormalizeIdempotent(tag: string)
    ensures NormalizeType(NormalizeType(tag)) == NormalizeType(tag)
  {
    var k := Upper(Strip(tag));
    if k in TypeAliases {
      CanonicalIsNormal(TypeAliases[k]);
    } else {
      StripUpper(Strip(tag));
      StripIdempotent(tag);
      UpperIdempotent(Strip(tag));
    }
  }
}
