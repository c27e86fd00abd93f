/** The rule-based labelling of a cluster in run_clustering.php: the three
    category words, the cluster name built from them, and the first-match
    decision list of business recommendations. All inputs are the cluster's
    average age, income and purchase amount. */
module Segments {

  // ---------------------------------------------------------------------------
  // Category words (half-open thresholds, first test that holds wins)
  // ---------------------------------------------------------------------------

  /** getAgeCategory. Each word is returned exactly on its half-open band. */
  function AgeCategory(age: real): (r: string)
    ensures r == "Young" <==> age < 30.0
    ensures r == "Middle-Aged" <==> 30.0 <= age < 45.0
    ensures r == "Mature" <==> 45.0 <= age < 60.0
    ensures r == "Senior" <==> 60.0 <= age
  {
    if age < 30.0 then "Young"
    else if age < 45.0 then "Middle-Aged"
    else if age < 60.0 then "Mature"
    else "Senior"
  }

  /** getIncomeCategory. */
  function IncomeCategory(income: real): (r: string)
    ensures r == "Budget" <==> income < 30000.0
    ensures r == "Mid-Tier" <==> 30000.0 <= income < 50000.0
    ensures r == "Affluent" <==> 50000.0 <= income < 70000.0
    ensures r == "High-Income" <==> 70000.0 <= income
  {
    if income < 30000.0 then "Budget"
    else if income < 50000.0 then "Mid-Tier"
    else if income < 70000.0 then "Affluent"
    else "High-Income"
  }

  /** getSpendingCategory. */
  function SpendingCategory(purchase: real): (r: string)
    ensures r == "Conservative" <==> purchase < 1500.0
    ensures r == "Moderate" <==> 1500.0 <= purchase < 2500.0
    ensures r == "Active" <==> 2500.0 <= purchase < 3500.0
    ensures r == "Premium" <==> 3500.0 <= purchase
  {
    if purchase < 1500.0 then "Conservative"
    else if purchase < 2500.0 then "Moderate"
    else if purchase < 3500.0 then "Active"
    else "Premium"
  }

  const AgeWords: seq<string> := ["Young", "Middle-Aged", "Mature", "Senior"]
  const IncomeWords: seq<string> := ["Budget", "Mid-Tier", "Affluent", "High-Income"]
  const SpendingWords: seq<string> := ["Conservative", "Moderate", "Active", "Premium"]

  /** Position of a word in its ordered list of four (4 when absent). */
  function Rank(words: seq<string>, w: string): (n: nat)
    ensures n <= |words|
    ensures n < |words| ==> words[n] == w
    ensures forall i :: 0 <= i < n ==> words[i] != w
  {
    if |words| == 0 then 0
    else if words[0] == w then 0
    else 1 + Rank(words[1..], w)
  }

  /** Every category is one of its four words, and a larger input never
      gets an earlier word. */
  lemma AgeCategoryMonotone(a: real, b: real)
    requires a <= b
    ensures AgeCategory(a) in AgeWords && AgeCategory(b) in AgeWords
    ensures Rank(AgeWords, AgeCategory(a)) <= Rank(AgeWords, AgeCategory(b))
  {
  }

  lemma IncomeCategoryMonotone(a: real, b: real)
    requires a <= b
    ensures IncomeCategory(a) in IncomeWords && IncomeCategory(b) in IncomeWords
    ensures Rank(IncomeWords, IncomeCategory(a)) <= Rank(IncomeWords, IncomeCategory(b))
  {
  }

  lemma SpendingCategoryMonotone(a: real, b: real)
    requires a <= b
    ensures SpendingCategory(a) in SpendingWords && SpendingCategory(b) in SpendingWords
    ensures Rank(SpendingWords, SpendingCategory(a)) <= Rank(SpendingWords, SpendingCategory(b))
  {
  }

  // ---------------------------------------------------------------------------
  // Cluster name
  // ---------------------------------------------------------------------------

  /** generateClusterName: income word, age word, spending word, separated
      by single spaces. */
  function ClusterName(age: real, income: real, purchase: real): (r: string)
    ensures Occurrences(' ', r) == 2
  {
    var i, a, s := IncomeCategory(income), AgeCategory(age), SpendingCategory(purchase);
    CategoryWordsHaveNoSpace(age, income, purchase);
    OccurrencesAppend(' ', i, " ");
    OccurrencesAppend(' ', i + " ", a);
    OccurrencesAppend(' ', i + " " + a, " ");
    OccurrencesAppend(' ', i + " " + a + " ", s);
    i + " " + a + " " + s
  }

  predicate NoSpace(w: string)
  {
    ' ' !in w
  }

  /** Two space-free words followed by a space and anything: the words agree. */
  lemma {:induction false} FirstWordDetermined(a: string, x: string, b: string, y: string)
    requires NoSpace(a) && NoSpace(b)
    requires a + " " + x == b + " " + y
    ensures a == b && x == y
  {
    var s := a + " " + x;
    assert |a| == |b| by {
      assert s[|a|] == ' ';
      assert s[|b|] == ' ';
    }
    assert a == s[..|a|] == b;
    assert x == s[|a| + 1..] == y;
  }

  /** Three space-free words joined by single spaces can be read back. */
  lemma ThreeWordsDetermined(a: string, b: string, c: string, a': string, b': string, c': string)
    requires NoSpace(a) && NoSpace(b) && NoSpace(c) && NoSpace(a') && NoSpace(b') && NoSpace(c')
    requires a + " " + b + " " + c == a' + " " + b' + " " + c'
    ensures a == a' && b == b' && c == c'
  {
    assert a + " " + b + " " + c == a + " " + (b + " " + c);
    assert a' + " " + b' + " " + c' == a' + " " + (b' + " " + c');
    FirstWordDetermined(a, b + " " + c, a', b' + " " + c');
    FirstWordDetermined(b, c, b', c');
  }

  lemma CategoryWordsHaveNoSpace(age: real, income: real, purchase: real)
    ensures NoSpace(AgeCategory(age))
    ensures NoSpace(IncomeCategory(income))
    ensures NoSpace(SpendingCategory(purchase))
  {
  }

  /** The name determines all three categories: equal names mean equal
      income, age and spending words. */
  lemma ClusterNameDeterminesCategories(age: real, income: real, purchase: real,
                                        age': real, income': real, purchase': real)
    requires ClusterName(age, income, purchase) == ClusterName(age', income', purchase')
    ensures IncomeCategory(income) == IncomeCategory(income')
    ensures AgeCategory(age) == AgeCategory(age')
    ensures SpendingCategory(purchase) == SpendingCategory(purchase')
  {
    CategoryWordsHaveNoSpace(age, income, purchase);
    CategoryWordsHaveNoSpace(age', income', purchase');
    ThreeWordsDetermined(IncomeCategory(income), AgeCategory(age), SpendingCategory(purchase),
                         IncomeCategory(income'), AgeCategory(age'), SpendingCategory(purchase'));
  }

  // ---------------------------------------------------------------------------
  // Business recommendations
  // ---------------------------------------------------------------------------

  /** The seven branches of generateBusinessRecommendations, in source order. */
  datatype Strategy =
    | HighValue          // income > 70000 and purchase > 3000
    | UntappedPotential  // income > 70000 and purchase < 2000
    | YoungCustomers     // age < 30
    | MiddleAged         // 30 <= age < 55
    | SeniorCustomers    // age >= 55
    | BudgetConscious    // income < 40000
    | General            // everything else

  /** The branch that fires: tests taken top to bottom, first match wins. */
  function Branch(income: real, purchase: real, age: real): (r: Strategy)
    ensures r == HighValue <==> income > 70000.0 && purchase > 3000.0
    ensures r == UntappedPotential <==> income > 70000.0 && purchase < 2000.0
    ensures r == YoungCustomers <==> !HighIncomeTest(income, purchase) && age < 30.0
    ensures r == MiddleAged <==> !HighIncomeTest(income, purchase) && 30.0 <= age < 55.0
    ensures r == SeniorCustomers <==> !HighIncomeTest(income, purchase) && 55.0 <= age
  {
    if income > 70000.0 && purchase > 3000.0 then HighValue
    else if income > 70000.0 && purchase < 2000.0 then UntappedPotential
    else if age < 30.0 then YoungCustomers
    else if age >= 30.0 && age < 55.0 then MiddleAged
    else if age >= 55.0 then SeniorCustomers
    else if income < 40000.0 then BudgetConscious
    else General
  }

  /** The n-th recommendation (n = 0..3) that a branch adds. */
  function Entry(s: Strategy, n: nat): string
  {
    match s
    case HighValue =>
      if n == 0 then "Target with premium product offerings and exclusive services"
      else if n == 1 then "Implement VIP loyalty program with personalized benefits"
      else if n == 2 then "Focus on high-touch customer service and relationship building"
      else "Offer premium financing options and extended warranties"
    case UntappedPotential =>
      if n == 0 then "Identify barriers to purchase and address them through targeted campaigns"
      else if n == 1 then "Introduce mid-tier to premium product lines to match income level"
      else if n == 2 then "Provide educational content about product value propositions"
      else "Test promotional offers to convert high-income browsers to buyers"
    case YoungCustomers =>
      if n == 0 then "Leverage social media marketing and influencer partnerships"
      else if n == 1 then "Offer entry-level product bundles and flexible payment plans"
      else if n == 2 then "Create referral programs with incentives for word-of-mouth marketing"
      else "Develop mobile-first shopping experiences and apps"
    case MiddleAged =>
      if n == 0 then "Focus on value proposition and quality messaging"
      else if n == 1 then "Offer family-oriented products and bundled solutions"
      else if n == 2 then "Implement email marketing with personalized recommendations"
      else "Provide loyalty rewards that accumulate over time"
    case SeniorCustomers =>
      if n == 0 then "Emphasize ease of use, reliability, and customer support"
      else if n == 1 then "Provide clear documentation and instructional content"
      else if n == 2 then "Offer phone-based customer service and personal assistance"
      else "Focus on products that enhance comfort and convenience"
    case BudgetConscious =>
      if n == 0 then "Highlight value pricing and cost-saving benefits"
      else if n == 1 then "Offer payment plans and budget-friendly options"
      else if n == 2 then "Create promotional campaigns around seasonal sales"
      else "Develop entry-level product lines with strong quality-to-price ratio"
    case General =>
      if n == 0 then "Implement cross-selling strategies based on purchase history"
      else if n == 1 then "Create targeted email campaigns with personalized offers"
      else if n == 2 then "Develop customer retention programs with periodic incentives"
      else "Test upselling opportunities with complementary products"
  }

  /** The list a branch builds before imploding it: its four entries in order. */
  function Advice(s: Strategy): seq<string>
  {
    [Entry(s, 0), Entry(s, 1), Entry(s, 2), Entry(s, 3)]
  }

  /** implode(sep, entries). */
  function Implode(sep: string, entries: seq<string>): string
  {
    if |entries| == 0 then ""
    else if |entries| == 1 then entries[0]
    else entries[0] + sep + Implode(sep, entries[1..])
  }

  /** generateBusinessRecommendations. */
  function Recommendations(income: real, purchase: real, age: real): (r: string)
    ensures var s := Branch(income, purchase, age);
            r == Entry(s, 0) + "; " + Entry(s, 1) + "; " + Entry(s, 2) + "; " + Entry(s, 3)
  {
    var s := Branch(income, purchase, age);
    ImplodeFour("; ", Entry(s, 0), Entry(s, 1), Entry(s, 2), Entry(s, 3));
    Implode("; ", Advice(s))
  }

  /** Number of occurrences of c in s. */
  function Occurrences(c: char, s: string): (n: nat)
    ensures n <= |s|
    ensures n == 0 <==> c !in s
  {
    if |s| == 0 then 0
    else (if s[0] == c then 1 else 0) + Occurrences(c, s[1..])
  }

  lemma {:induction false} OccurrencesAppend(c: char, s: string, t: string)
    ensures Occurrences(c, s + t) == Occurrences(c, s) + Occurrences(c, t)
  {
    if |s| > 0 {
      assert (s + t)[1..] == s[1..] + t;
      OccurrencesAppend(c, s[1..], t);
    } else {
      assert s + t == t;
    }
  }

  /** Joining n semicolon-free entries with "; " leaves exactly n - 1
      semicolons, so the joined text splits back into n entries. */
  lemma {:induction false} ImplodeSeparators(entries: seq<string>)
    requires |entries| > 0
    requires forall e :: e in entries ==> ';' !in e
    ensures Occurrences(';', Implode("; ", entries)) == |entries| - 1
  {
    if |entries| > 1 {
      var rest := entries[1..];
      assert forall e :: e in rest ==> e in entries;
      ImplodeSeparators(rest);
      OccurrencesAppend(';', entries[0], "; ");
      OccurrencesAppend(';', entries[0] + "; ", Implode("; ", rest));
      assert Occurrences(';', "; ") == 1 by {
        assert "; "[1..] == " ";
        assert " "[1..] == "";
      }
    }
  }

  /** implode of four entries: the entries in order with a separator
      between each adjacent pair. */
  lemma {:induction false} ImplodeFour(sep: string, a: string, b: string, c: string, d: string)
    ensures Implode(sep, [a, b, c, d]) == a + sep + b + sep + c + sep + d
  {
    var entries := [a, b, c, d];
    assert entries[1..] == [b, c, d];
    assert entries[1..][1..] == [c, d];
    assert entries[1..][1..][1..] == [d];
    assert Implode(sep, [d]) == d;
    assert Implode(sep, [c, d]) == c + sep + d;
  }

  /** The three age tests cover every age, so the budget branch and the
      general branch never fire. */
  lemma {:induction false} AgeBranchesCover(income: real, purchase: real, age: real)
    ensures Branch(income, purchase, age) != BudgetConscious
    ensures Branch(income, purchase, age) != General
  {
    if age < 30.0 {
    } else if age < 55.0 {
      assert age >= 30.0;
    } else {
      assert age >= 55.0;
    }
  }

  /** An income of exactly 70000 is named "High-Income" but, the branch
      tests being strict, never gets a high-income recommendation. */
  lemma HighIncomeBoundary(purchase: real, age: real)
    ensures IncomeCategory(70000.0) == "High-Income"
    ensures Branch(70000.0, purchase, age) != HighValue
    ensures Branch(70000.0, purchase, age) != UntappedPotential
  {
  }

  /** One of the two high-income branch tests holds. */
  predicate HighIncomeTest(income: real, purchase: real)
  {
    income > 70000.0 && (purchase > 3000.0 || purchase < 2000.0)
  }

  /** The high-value branches depend on income and purchase alone. */
  lemma HighIncomeIgnoresAge(income: real, purchase: real, age: real, age': real)
    requires HighIncomeTest(income, purchase)
    ensures Branch(income, purchase, age) == Branch(income, purchase, age')
  {
  }
}
