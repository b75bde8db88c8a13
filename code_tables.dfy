/**
  Code-to-name tables: the `switch` statements that turn an enumerant into
  its printable name, with a fallback string for every other value.
 */
module CodeTables {

  type Table = seq<(int, string)>

  /** The name of the first entry with this code, or the fallback. */
  function NameOf(table: Table, code: int, fallback: string): (name: string)
    ensures (forall i :: 0 <= i < |table| ==> table[i].0 != code) ==> name == fallback
    ensures forall i ::
      (0 <= i < |table| && table[i].0 == code && forall j :: 0 <= j < i ==> table[j].0 != code) ==>
      name == table[i].1
  {
    if table == [] then fallback
    else if table[0].0 == code then table[0].1
    else NameOf(table[1..], code, fallback)
  }

  predicate DistinctCodes(table: Table)
  {
    forall i, j :: 0 <= i < j < |table| ==> table[i].0 != table[j].0
  }

  /** The names are pairwise distinct and none equals the fallback. */
  predicate DistinctNames(table: Table, fallback: string)
  {
    (forall i :: 0 <= i < |table| ==> table[i].1 != fallback)
    && forall i, j :: 0 <= i < j < |table| ==> table[i].1 != table[j].1
  }

  lemma NameOfEntry(table: Table, i: int, fallback: string)
    requires DistinctCodes(table) && 0 <= i < |table|
    ensures NameOf(table, table[i].0, fallback) == table[i].1
  {
  }

  /** A name other than the fallback identifies its code. */
  lemma NameOfInjective(table: Table, a: int, b: int, fallback: string)
    requires DistinctCodes(table) && DistinctNames(table, fallback)
    requires NameOf(table, a, fallback) == NameOf(table, b, fallback) != fallback
    ensures a == b
  {
    var i :| 0 <= i < |table| && table[i].0 == a;
    var j :| 0 <= j < |table| && table[j].0 == b;
    NameOfEntry(table, i, fallback);
    NameOfEntry(table, j, fallback);
  }

  /** A name that is not the fallback is the name of an entry for the code. */
  lemma {:induction false} NameOfFromTable(table: Table, code: int, fallback: string)
    ensures NameOf(table, code, fallback) == fallback
      || exists i :: 0 <= i < |table| && table[i] == (code, NameOf(table, code, fallback))
    decreases |table|
  {
    if table != [] && table[0].0 != code {
      NameOfFromTable(table[1..], code, fallback);
      if NameOf(table, code, fallback) != fallback {
        var i :| 0 <= i < |table[1..]| && table[1..][i] == (code, NameOf(table, code, fallback));
        assert table[i + 1] == table[1..][i];
      }
    }
  }

  predicate Increasing(table: Table)
  {
    forall i :: 0 <= i < |table| - 1 ==> table[i].0 < table[i + 1].0
  }

  lemma {:induction false} IncreasingDistinct(table: Table)
    requires Increasing(table)
    ensures DistinctCodes(table)
    ensures forall i :: 0 <= i < |table| ==> table[0].0 <= table[i].0 <= table[|table| - 1].0
  {
    if |table| > 1 {
      IncreasingDistinct(table[1..]);
      assert forall i :: 1 <= i < |table| ==> table[i] == table[1..][i - 1];
    }
  }

  /** A code below the first or above the last entry of an increasing table gets the fallback. */
  lemma NameOfOutside(table: Table, code: int, fallback: string)
    requires Increasing(table) && table != []
    requires code < table[0].0 || code > table[|table| - 1].0
    ensures NameOf(table, code, fallback) == fallback
  {
    IncreasingDistinct(table);
  }

  /** In an increasing table every code gets its own entry's name. */
  lemma NameOfIncreasing(table: Table, fallback: string)
    requires Increasing(table)
    ensures forall i :: 0 <= i < |table| ==> NameOf(table, table[i].0, fallback) == table[i].1
  {
    IncreasingDistinct(table);
    forall i | 0 <= i < |table| ensures NameOf(table, table[i].0, fallback) == table[i].1 {
      NameOfEntry(table, i, fallback);
    }
  }
}
