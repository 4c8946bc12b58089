/** The unit table of the converter: the categories, the unit records, the
    constant table the converter is built with, case-insensitive lookup by
    name, and the two listing queries (filter by category, project names). */
module Units {

  datatype Option<T> = None | Some(value: T)

  /** The five categories a unit can belong to. */
  datatype Category = Length | Weight | Temperature | Volume | Speed

  /** A unit: its name, the factor that takes a value in this unit to the
      base unit of its category, and its category. For temperature units the
      factor is a placeholder (1) that no conversion uses. */
  datatype Unit = Unit(name: string, toBase: real, category: Category)

  /** The table the converter is constructed with, in definition order. */
  const Table: seq<Unit> := [
    Unit("meter", 1.0, Length),
    Unit("kilometer", 1000.0, Length),
    Unit("centimeter", 0.01, Length),
    Unit("mile", 1609.34, Length),
    Unit("foot", 0.3048, Length),
    Unit("inch", 0.0254, Length),

    Unit("kilogram", 1.0, Weight),
    Unit("gram", 0.001, Weight),
    Unit("pound", 0.453592, Weight),
    Unit("ounce", 0.0283495, Weight),
    Unit("ton", 1000.0, Weight),

    Unit("celsius", 1.0, Temperature),
    Unit("fahrenheit", 1.0, Temperature),
    Unit("kelvin", 1.0, Temperature),

    Unit("liter", 1.0, Volume),
    Unit("milliliter", 0.001, Volume),
    Unit("gallon", 3.78541, Volume),
    Unit("cup", 0.236588, Volume),

    Unit("mps", 1.0, Speed),
    Unit("kph", 0.277778, Speed),
    Unit("mph", 0.44704, Speed)
  ]

  // ---------------------------------------------------------------------
  // Case folding (ASCII only)
  // ---------------------------------------------------------------------

  function LowerChar(ch: char): char {
    if 'A' <= ch <= 'Z' then (ch as int + 32) as char else ch
  }

  /** ASCII lower-casing: upper-case Latin letters become lower case,
      every other character is kept. */
  function Lower(s: string): (r: string)
    ensures |r| == |s|
  {
    seq(|s|, i requires 0 <= i < |s| => LowerChar(s[i]))
  }

  /** A name made of lower-case letters only is its own lower case. */
  lemma LowerCaseName(s: string)
    requires forall k :: 0 <= k < |s| ==> 'a' <= s[k] <= 'z'
    ensures Lower(s) == s
  {
  }

  /** Two names are the same unit name when they agree after folding case. */
  predicate EqualsIgnoreCase(a: string, b: string) {
    Lower(a) == Lower(b)
  }

  // ---------------------------------------------------------------------
  // Lookup
  // ---------------------------------------------------------------------

  /** The first unit of `us` whose name matches `name` without regard to
      case (see FindFirst), or None when no unit matches. */
  function Find(us: seq<Unit>, name: string): (r: Option<Unit>)
    ensures r.None? <==> forall i :: 0 <= i < |us| ==> !EqualsIgnoreCase(us[i].name, name)
    ensures r.Some? ==> r.value in us && EqualsIgnoreCase(r.value.name, name)
  {
    if us == [] then None
    else if EqualsIgnoreCase(us[0].name, name) then Some(us[0])
    else Find(us[1..], name)
  }

  /** The unit Find returns is the first match in `us`. */
  lemma {:induction false} FindFirst(us: seq<Unit>, name: string, k: int)
    requires 0 <= k < |us| && EqualsIgnoreCase(us[k].name, name)
    requires forall j :: 0 <= j < k ==> !EqualsIgnoreCase(us[j].name, name)
    ensures Find(us, name) == Some(us[k])
  {
    if k > 0 {
      FindFirst(us[1..], name, k - 1);
    }
  }

  /** Lookup only looks at the case-folded name. */
  lemma {:induction false} FindIgnoresCase(us: seq<Unit>, a: string, b: string)
    requires Lower(a) == Lower(b)
    ensures Find(us, a) == Find(us, b)
  {
    if us != [] {
      FindIgnoresCase(us[1..], a, b);
    }
  }

  // ---------------------------------------------------------------------
  // Listings
  // ---------------------------------------------------------------------

  /** The names of `us`, in order. */
  function Names(us: seq<Unit>): (r: seq<string>)
    ensures |r| == |us|
  {
    seq(|us|, i requires 0 <= i < |us| => us[i].name)
  }

  /** The names of `us` are `names` when they agree position by position. */
  lemma NamesAre(us: seq<Unit>, names: seq<string>)
    requires |us| == |names| && forall i :: 0 <= i < |us| ==> us[i].name == names[i]
    ensures Names(us) == names
  {
  }

  /** Listing a concatenation lists each part in turn. */
  lemma NamesAppend(a: seq<Unit>, b: seq<Unit>)
    ensures Names(a + b) == Names(a) + Names(b)
  {
  }

  /** A name is listed exactly when some unit carries it. */
  lemma NamesMembers(us: seq<Unit>)
    ensures forall n :: n in Names(us) <==> exists u :: u in us && u.name == n
  {
    forall n | n in Names(us) ensures exists u :: u in us && u.name == n {
      var i :| 0 <= i < |us| && Names(us)[i] == n;
      assert us[i] in us;
    }
    forall u | u in us ensures u.name in Names(us) {
      var i :| 0 <= i < |us| && us[i] == u;
      assert Names(us)[i] == u.name;
    }
  }

  /** The units of `us` that belong to category `c`, in order. */
  function InCategory(us: seq<Unit>, c: Category): (r: seq<Unit>)
    ensures |r| <= |us|
  {
    if us == [] then []
    else if us[0].category == c then [us[0]] + InCategory(us[1..], c)
    else InCategory(us[1..], c)
  }

  /** The filter keeps exactly the units of category `c`. */
  lemma {:induction false} InCategoryMembers(us: seq<Unit>, c: Category)
    ensures forall u :: u in InCategory(us, c) <==> u in us && u.category == c
  {
    if us != [] {
      InCategoryMembers(us[1..], c);
      assert us == [us[0]] + us[1..];
    }
  }

  /** Filtering a concatenation filters each part and keeps them in order:
      the filter never reorders units. */
  lemma {:induction false} InCategoryAppend(a: seq<Unit>, b: seq<Unit>, c: Category)
    ensures InCategory(a + b, c) == InCategory(a, c) + InCategory(b, c)
  {
    if a != [] {
      assert (a + b)[0] == a[0] && (a + b)[1..] == a[1..] + b;
      InCategoryAppend(a[1..], b, c);
      if a[0].category == c {
        assert InCategory(a + b, c) == [a[0]] + (InCategory(a[1..], c) + InCategory(b, c));
      }
    } else {
      assert a + b == b;
    }
  }

  /** A run of units all of category `c` is kept whole. */
  lemma {:induction false} InCategoryAll(us: seq<Unit>, c: Category)
    requires forall i :: 0 <= i < |us| ==> us[i].category == c
    ensures InCategory(us, c) == us
  {
    if us != [] {
      InCategoryAll(us[1..], c);
    }
  }

  /** A run of units none of category `c` is dropped whole. */
  lemma {:induction false} InCategoryNone(us: seq<Unit>, c: Category)
    requires forall i :: 0 <= i < |us| ==> us[i].category != c
    ensures InCategory(us, c) == []
  {
    if us != [] {
      InCategoryNone(us[1..], c);
    }
  }

  /** When the units of category `c` form the block `us[lo..hi]`, the
      filter returns that block. */
  lemma InCategoryBlock(us: seq<Unit>, c: Category, lo: int, hi: int)
    requires 0 <= lo <= hi <= |us|
    requires forall i :: lo <= i < hi ==> us[i].category == c
    requires forall i :: 0 <= i < |us| && !(lo <= i < hi) ==> us[i].category != c
    ensures InCategory(us, c) == us[lo..hi]
  {
    assert us == us[..lo] + us[lo..hi] + us[hi..];
    InCategoryNone(us[..lo], c);
    InCategoryAll(us[lo..hi], c);
    InCategoryNone(us[hi..], c);
    InCategoryAppend(us[..lo], us[lo..hi], c);
    InCategoryAppend(us[..lo] + us[lo..hi], us[hi..], c);
  }

  // ---------------------------------------------------------------------
  // Facts about the table
  // ---------------------------------------------------------------------

  /** Every name in the table is already lower case. */
  lemma TableNamesLowerCase()
    ensures forall i :: 0 <= i < |Table| ==> Lower(Table[i].name) == Table[i].name
  {
    forall i | 0 <= i < |Table| ensures Lower(Table[i].name) == Table[i].name {
      LowerCaseName(Table[i].name);
    }
  }

  /** No two units of `us` have names that coincide without regard to case. */
  ghost predicate DistinctNames(us: seq<Unit>) {
    forall i, j :: 0 <= i < j < |us| ==> !EqualsIgnoreCase(us[i].name, us[j].name)
  }

  /** With distinct names, a name matching unit `i` finds unit `i`: which
      of several matches comes first never matters. */
  lemma FindUnique(us: seq<Unit>, name: string, i: int)
    requires DistinctNames(us) && 0 <= i < |us| && EqualsIgnoreCase(name, us[i].name)
    ensures Find(us, name) == Some(us[i])
  {
    FindFirst(us, name, i);
  }

  /** No two entries of the table have names that coincide without regard
      to case. */
  lemma TableNamesDistinct()
    ensures DistinctNames(Table)
  {
    TableNamesLowerCase();
    TableNamesDiffer();
  }

  /** No two entries of the table share a name. */
  lemma TableNamesDiffer()
    ensures forall i, j :: 0 <= i < j < |Table| ==> Table[i].name != Table[j].name
  {
  }

  /** Every factor in the table is positive, so dividing by one is defined. */
  lemma TableFactorsPositive()
    ensures forall i :: 0 <= i < |Table| ==> Table[i].toBase > 0.0
  {
  }

  /** A name that, lower-cased, differs from every name of the table is
      not found. */
  lemma NotInTable(name: string)
    requires forall i :: 0 <= i < |Table| ==> Table[i].name != Lower(name)
    ensures Find(Table, name).None?
  {
    TableNamesLowerCase();
  }

  /** A name that matches entry `i` of the table without regard to case
      finds entry `i`. */
  lemma FindInTable(name: string, i: int)
    requires 0 <= i < |Table| && EqualsIgnoreCase(name, Table[i].name)
    ensures Find(Table, name) == Some(Table[i])
  {
    TableNamesDistinct();
    FindUnique(Table, name, i);
  }
}
