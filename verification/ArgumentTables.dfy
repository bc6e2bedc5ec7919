/** Arguments as a table from flags to values, and back. */
module ArgumentTables {
  import opened Ordering
  import opened ApiServerFlags

  /** What follows the first '='. */
  function Value(arg: string): string {
    if arg == [] then [] else if arg[0] == '=' then arg[1..] else Value(arg[1..])
  }

  /** Of several arguments with one flag the last one counts. */
  function TableOf(args: seq<string>): Table {
    if args == [] then map[] else TableOf(args[..|args| - 1])[Flag(args[|args| - 1]) := Value(args[|args| - 1])]
  }

  method FromSlice(args: seq<string>) returns (m: Table)
    ensures m == TableOf(args)
  {
    m := map[];
    for i := 0 to |args|
      invariant m == TableOf(args[..i])
    {
      assert args[..i + 1][..i] == args[..i];
      m := m[Flag(args[i]) := Value(args[i])];
    }
    assert args[..|args|] == args;
  }

  /** Whatever the order of iteration, the result is the sorted listing of the rendered flags. */
  method ToSlice(table: Table, order: seq<string>) returns (args: seq<string>)
    requires Named(table) && Enumerates(order, table)
    ensures args == Listing(multiset(Rendered(table)))
  {
    assert Without(table, {}) == table;
    var raw := AppendTable([], table, order, {});
    ListingOf(raw);
    args := Sort(raw);
    assert multiset(raw) == multiset(Rendered(table));
  }

  lemma {:induction false} ValueOfFormat(flag: string, value: string)
    requires '=' !in flag
    ensures Value(Format(flag, value)) == value
  {
    if flag != [] {
      assert Format(flag, value)[1..] == Format(flag[1..], value);
      ValueOfFormat(flag[1..], value);
    } else if value != [] {
      assert Format(flag, value) == ['='] + value;
    }
  }

  predicate Agrees(args: seq<string>, table: Table) {
    forall i :: 0 <= i < |args| ==> Flag(args[i]) in table && Value(args[i]) == table[Flag(args[i])]
  }

  lemma {:induction false} TableOfAgreeing(args: seq<string>, table: Table)
    requires Agrees(args, table)
    ensures forall k :: k in TableOf(args) <==> k in FlagsOf(args)
    ensures forall k :: k in TableOf(args) ==> k in table && TableOf(args)[k] == table[k]
  {
    if args != [] {
      var init, last := args[..|args| - 1], args[|args| - 1];
      TableOfAgreeing(init, table);
      assert args == init + [last];
      FlagsOfAppend(init, last);
    }
  }

  lemma RenderedAgrees(table: Table, args: seq<string>)
    requires Named(table) && multiset(args) == multiset(Rendered(table))
    ensures Agrees(args, table)
  {
    forall i | 0 <= i < |args| ensures Flag(args[i]) in table && Value(args[i]) == table[Flag(args[i])] {
      assert args[i] in multiset(args);
      RenderedFlag(table, args[i]);
      ValueOfFormat(Flag(args[i]), table[Flag(args[i])]);
    }
  }

  /** In whatever order a table was rendered, reading it back gives the same table. */
  lemma TableRoundTrip(table: Table, args: seq<string>)
    requires Named(table) && multiset(args) == multiset(Rendered(table))
    ensures TableOf(args) == table
  {
    RenderedAgrees(table, args);
    TableOfAgreeing(args, table);
    forall k | k in table ensures k in TableOf(args) { ListedFlag(table, args, k); }
  }

  lemma ListedFlag(table: Table, args: seq<string>, k: string)
    requires Named(table) && multiset(args) == multiset(Rendered(table)) && k in table
    ensures k in FlagsOf(args)
  {
    assert Format(k, table[k]) in multiset(args);
    FlagInFlagsOf(args, Format(k, table[k]));
    FlagOfFormat(k, table[k]);
  }

  /** Reading keeps the last value of every flag. */
  lemma {:induction false} LastOneCounts(args: seq<string>, i: nat)
    requires i < |args| && forall j :: i < j < |args| ==> Flag(args[j]) != Flag(args[i])
    ensures Flag(args[i]) in TableOf(args) && TableOf(args)[Flag(args[i])] == Value(args[i])
  {
    if i < |args| - 1 { LastOneCounts(args[..|args| - 1], i); }
  }
}
