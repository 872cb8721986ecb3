/** The fixed category tables of the browser and the lookups over them. */
module Categories {
  import opened Wrappers

  datatype Category = Category(id: string, name: string, color: string)

  const FALLBACK_COLOR := "#757575"

  const INCOME_CATEGORIES: seq<Category> := [
    Category("salary", "Salary", "#4CAF50"),
    Category("freelance", "Freelance", "#8BC34A"),
    Category("business", "Business", "#CDDC39"),
    Category("investments", "Investments", "#FFC107"),
    Category("rental", "Rental Income", "#FF9800"),
    Category("gifts", "Gifts", "#FF5722"),
    Category("other-income", "Other Income", "#795548")
  ]

  const EXPENSE_CATEGORIES: seq<Category> := [
    Category("food", "Food & Dining", "#F44336"),
    Category("transportation", "Transportation", "#E91E63"),
    Category("shopping", "Shopping", "#9C27B0"),
    Category("entertainment", "Entertainment", "#673AB7"),
    Category("bills", "Bills & Utilities", "#3F51B5"),
    Category("healthcare", "Healthcare", "#2196F3"),
    Category("education", "Education", "#03A9F4"),
    Category("travel", "Travel", "#00BCD4"),
    Category("home", "Home & Garden", "#009688"),
    Category("insurance", "Insurance", "#4CAF50"),
    Category("taxes", "Taxes", "#8BC34A"),
    Category("other-expense", "Other Expenses", "#607D8B")
  ]

  /** `getAllCategories`: income first, then expense. */
  function GetAllCategories(): (r: seq<Category>)
    ensures |r| == |INCOME_CATEGORIES| + |EXPENSE_CATEGORIES| == 19
    ensures r[..|INCOME_CATEGORIES|] == INCOME_CATEGORIES && r[|INCOME_CATEGORIES|..] == EXPENSE_CATEGORIES
  {
    INCOME_CATEGORIES + EXPENSE_CATEGORIES
  }

  /** `getCategoriesByType` */
  function GetCategoriesByType(txType: string): (r: seq<Category>)
    ensures txType == "income" ==> r == INCOME_CATEGORIES && |r| == 7
    ensures txType == "expense" ==> r == EXPENSE_CATEGORIES && |r| == 12
    ensures txType != "income" && txType != "expense" ==> r == []
  {
    if txType == "income" then INCOME_CATEGORIES
    else if txType == "expense" then EXPENSE_CATEGORIES
    else []
  }

  /** `Array.prototype.find` by id: the first entry with this id. */
  function FindById(cs: seq<Category>, id: string): (r: Option<Category>)
    ensures r.None? <==> forall c :: c in cs ==> c.id != id
    ensures r.Some? ==> r.value in cs && r.value.id == id
  {
    if cs == [] then None
    else if cs[0].id == id then Some(cs[0])
    else
      var r := FindById(cs[1..], id);
      assert forall c :: c in cs ==> c == cs[0] || c in cs[1..];
      r
  }

  /** `getCategoryById` */
  function GetCategoryById(id: string): (r: Option<Category>)
    ensures r.None? <==> forall c :: c in GetAllCategories() ==> c.id != id
    ensures r.Some? ==> r.value in GetAllCategories() && r.value.id == id
  {
    FindById(GetAllCategories(), id)
  }

  /** `getCategoryName`: the name of a known id, the id itself otherwise. */
  function GetCategoryName(id: string): (r: string)
    ensures GetCategoryById(id).Some? ==> r == GetCategoryById(id).value.name
    ensures GetCategoryById(id).None? ==> r == id
  {
    var c := GetCategoryById(id);
    if c.Some? then c.value.name else id
  }

  /** `getCategoryColor`: the color of a known id, grey otherwise. */
  function GetCategoryColor(id: string): (r: string)
    ensures GetCategoryById(id).Some? ==> r == GetCategoryById(id).value.color
    ensures GetCategoryById(id).None? ==> r == FALLBACK_COLOR
  {
    var c := GetCategoryById(id);
    if c.Some? then c.value.color else FALLBACK_COLOR
  }

  predicate UniqueIds(cs: seq<Category>) {
    forall i, j :: 0 <= i < j < |cs| ==> cs[i].id != cs[j].id
  }

  function Ids(cs: seq<Category>): (r: seq<string>)
    ensures |r| == |cs|
    ensures forall i :: 0 <= i < |cs| ==> r[i] == cs[i].id
  {
    seq(|cs|, i requires 0 <= i < |cs| => cs[i].id)
  }

  /** No id of `a` is an id of `b`. */
  predicate IdsDisjoint(a: seq<Category>, b: seq<Category>) {
    forall i, j :: 0 <= i < |a| && 0 <= j < |b| ==> a[i].id != b[j].id
  }

  /** Two tables with unique ids and no id in common join into one with unique ids. */
  lemma JoinUnique(a: seq<Category>, b: seq<Category>)
    requires UniqueIds(a) && UniqueIds(b) && IdsDisjoint(a, b)
    ensures UniqueIds(a + b)
  {
    var all := a + b;
    forall i, j | 0 <= i < j < |all|
      ensures all[i].id != all[j].id
    {
      if j >= |a| {
        assert all[j] == b[j - |a|];
        if i >= |a| {
          assert all[i] == b[i - |a|];
        }
      }
    }
  }

  lemma IncomeIdsUnique()
    ensures UniqueIds(INCOME_CATEGORIES)
  {
    var ids := Ids(INCOME_CATEGORIES);
    assert ids == ["salary", "freelance", "business", "investments", "rental", "gifts", "other-income"];
  }

  lemma ExpenseFrontUnique()
    ensures UniqueIds(EXPENSE_CATEGORIES[..6])
  {
    assert Ids(EXPENSE_CATEGORIES[..6]) == ["food", "transportation", "shopping", "entertainment", "bills", "healthcare"];
  }

  lemma ExpenseBackUnique()
    ensures UniqueIds(EXPENSE_CATEGORIES[6..])
  {
    assert Ids(EXPENSE_CATEGORIES[6..]) == ["education", "travel", "home", "insurance", "taxes", "other-expense"];
  }

  lemma ExpenseHalvesDisjoint()
    ensures IdsDisjoint(EXPENSE_CATEGORIES[..6], EXPENSE_CATEGORIES[6..])
  {
    assert Ids(EXPENSE_CATEGORIES[..6]) == ["food", "transportation", "shopping", "entertainment", "bills", "healthcare"];
    assert Ids(EXPENSE_CATEGORIES[6..]) == ["education", "travel", "home", "insurance", "taxes", "other-expense"];
  }

  lemma ExpenseIdsUnique()
    ensures UniqueIds(EXPENSE_CATEGORIES)
  {
    ExpenseFrontUnique();
    ExpenseBackUnique();
    ExpenseHalvesDisjoint();
    JoinUnique(EXPENSE_CATEGORIES[..6], EXPENSE_CATEGORIES[6..]);
    assert EXPENSE_CATEGORIES[..6] + EXPENSE_CATEGORIES[6..] == EXPENSE_CATEGORIES;
  }

  lemma TablesDisjoint()
    ensures IdsDisjoint(INCOME_CATEGORIES, EXPENSE_CATEGORIES)
  {
    var a := Ids(INCOME_CATEGORIES);
    var b := Ids(EXPENSE_CATEGORIES);
    assert a == ["salary", "freelance", "business", "investments", "rental", "gifts", "other-income"];
    assert b == ["food", "transportation", "shopping", "entertainment", "bills", "healthcare", "education", "travel",
      "home", "insurance", "taxes", "other-expense"];
  }

  /** No id appears twice across both tables. */
  lemma AllIdsUnique()
    ensures UniqueIds(GetAllCategories())
  {
    IncomeIdsUnique();
    ExpenseIdsUnique();
    TablesDisjoint();
    JoinUnique(INCOME_CATEGORIES, EXPENSE_CATEGORIES);
  }

  /** With unique ids, looking an entry up by its id finds that very entry. */
  lemma {:induction false} FindEntry(cs: seq<Category>, c: Category)
    requires UniqueIds(cs) && c in cs
    ensures FindById(cs, c.id) == Some(c)
  {
    if cs[0] != c {
      assert c in cs[1..];
      assert UniqueIds(cs[1..]) by {
        forall i, j | 0 <= i < j < |cs| - 1
          ensures cs[1..][i].id != cs[1..][j].id
        {
          assert cs[1..][i] == cs[i + 1] && cs[1..][j] == cs[j + 1];
        }
      }
      FindEntry(cs[1..], c);
      var k :| 0 <= k < |cs| && cs[k] == c;
      assert k != 0;
    }
  }

  /** Every entry offered for a type is found again by its id, with its own name and color. */
  lemma ByTypeFoundById(txType: string, c: Category)
    requires c in GetCategoriesByType(txType)
    ensures GetCategoryById(c.id) == Some(c)
    ensures GetCategoryName(c.id) == c.name && GetCategoryColor(c.id) == c.color
  {
    AllIdsUnique();
    assert c in GetAllCategories();
    FindEntry(GetAllCategories(), c);
  }
}
