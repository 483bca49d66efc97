/**
 * The reference catalog: a constant, ordered table from category name to the
 * checks offered in that category. Lookups scan the categories in order and
 * take the first check with the requested name.
 */
module IdChecks {
  import opened Types

  type Catalog = seq<(string, seq<Check>)>

  const IdentityChecks: seq<Check> := [
    Check("Aadhaar", 30, "Instant", "5 Data Partners", "Digi-locker / OCR", ""),
    Check("PAN Basic", 30, "Instant", "5 Data Partners", "Digital Fetch", ""),
    Check("PAN Advanced (Aadhaar <> PAN Linkage)", 45, "Instant", "5 Data Partners", "Digital Fetch", "Equal will provide name mismatch check with Aadhaar"),
    Check("Bank Account Validation", 30, "Instant", "5 Data Partners", "Digital Fetch", "Equal will provide name mismatch check with Aadhaar"),
    Check("Voter ID", 30, "Instant", "5 Data Partners", "Digital Fetch", ""),
    Check("Driving License", 30, "Instant", "5 Data Partners", "Digital Fetch", ""),
    Check("Vehicle RC", 30, "Instant", "5 Data Partners", "Digital Fetch", ""),
    Check("ESIC", 30, "Instant", "5 Data Partners", "Digital Fetch", "")
  ]

  const SocialMediaChecks: seq<Check> := [
    Check("Social Media", 150, "Instant", "3 Data Partners", "Digital Fetch", "")
  ]

  const CriminalChecks: seq<Check> := [
    Check("Criminal Court (CCRV)", 200, "T + 48 hours", "2 Data Partners", "Digital Fetch", "Equal shall provide legal case history with Name of petitioner, respondant, & case status insights"),
    Check("Police verification through Law firm", 500, "T + 14 days", "2 Data Partners", "Physical verification", ""),
    Check("Global database check", 250, "Instant", "2 Partners", "Digital Fetch", "")
  ]

  const SalaryValidation: seq<Check> := [
    Check("Payslip (Tampering + POO + MCA)", 150, "4 Hours", "3 Data Partners", "User Upload", "Equal shall provide income insights based on Payslip & Bank Statement - POI & POO, Document tampering, Salary mismatch insights & Company existance insights"),
    Check("Bank Statement (Match against Payslip)", 150, "4 Hours", "3 Data Partners", "User Upload", "")
  ]

  const CreditChecks: seq<Check> := [
    Check("Credit check (CIBIL / CRIF / Experian / Equifax)", 200, "Instant", "4 Data Partners", "Digital Fetch", ""),
    Check("India Credit Default Database Check", 50, "Instant", "Unknown", "Digital Fetch", "")
  ]

  const AddressChecks: seq<Check> := [
    Check("Permanent Address check (Physical - PAN India Coverage)", 400, "T + 14 days", "4 Partners", "BGV Partner", ""),
    Check("Current Address check (Physical - PAN India Coverage)", 400, "T + 14 days", "Unknown", "BGV Partner", ""),
    Check("Digital Address check", 200, "Instant", "Unknown", "Digital Address check", "Equal will provide Address insights with google lat+long capture coordinates and uploaded utility bill information")
  ]

  const EducationChecks: seq<Check> := [
    Check("Highest Education*", 500, "T + 14 days", "3 Partners", "User Upload", "")
  ]

  const EmploymentChecks: seq<Check> := [
    Check("Employment & Conduct (Per check) - Last 7 years", 2000, "T + 14 days", "3 Partners", "User Upload", "Equal shall provide insights based on EPFO data on Alternate employment, Business, Employment history gaps"),
    Check("Self-Employment Check (Via Business PAN)", 100, "Instant", "5 Data Partners", "Fetch by PAN", ""),
    Check("PF UAN Advanced", 100, "Instant", "4 Partners", "Fetch by Phone number", "Equal will provide name mismatch check with Aadhaar"),
    Check("CV Validation", 250, "T + 7 days", "5 BGV Partners", "User Upload", ""),
    Check("Directorship Check", 50, "Instant", "5 Data Partners", "Fetch by PAN", ""),
    Check("Right to Work (Govt ID)", 60, "Instant", "6 Data Partners", "Fetch by Valid India Govt. ID", "")
  ]

  const ProfessionalChecks: seq<Check> := [
    Check("Professional Reference Check", 300, "T + 14 days", "5 BGV Partners", "User Upload", "")
  ]

  /** `idChecks`, in declaration order. */
  const IdCatalog: Catalog := [
    ("Identity Checks", IdentityChecks),
    ("Social Media Checks", SocialMediaChecks),
    ("Criminal Checks", CriminalChecks),
    ("Salary Validation", SalaryValidation),
    ("Credit Checks", CreditChecks),
    ("Address Checks", AddressChecks),
    ("Education Checks", EducationChecks),
    ("Employment Checks", EmploymentChecks),
    ("Professional Checks", ProfessionalChecks)
  ]

  /** Every check of a catalog, category by category. */
  function AllChecks(cat: Catalog): (cs: seq<Check>)
  {
    if cat == [] then [] else cat[0].1 + AllChecks(cat[1..])
  }

  /** A check is in the flattened catalog exactly when some category
      holds it. */
  lemma {:induction false} AllChecksMembers(cat: Catalog)
    ensures forall c :: c in AllChecks(cat) <==> exists k :: 0 <= k < |cat| && c in cat[k].1
  {
    if cat != [] {
      AllChecksMembers(cat[1..]);
      forall c | c in AllChecks(cat[1..]) ensures exists k :: 0 <= k < |cat| && c in cat[k].1 {
        var k :| 0 <= k < |cat[1..]| && c in cat[1..][k].1;
        assert c in cat[k + 1].1;
      }
      forall c | exists k :: 0 <= k < |cat| && c in cat[k].1 ensures c in AllChecks(cat) {
        var k :| 0 <= k < |cat| && c in cat[k].1;
        if k > 0 {
          assert c in cat[1..][k - 1].1;
        }
      }
    }
  }

  /** The category names of a catalog, in order. */
  function Categories(cat: Catalog): (ks: seq<string>)
    ensures |ks| == |cat|
    ensures forall k :: 0 <= k < |cat| ==> ks[k] == cat[k].0
  {
    if cat == [] then [] else [cat[0].0] + Categories(cat[1..])
  }

  function Names(cs: seq<Check>): (ns: seq<string>)
    ensures |ns| == |cs|
    ensures forall i :: 0 <= i < |cs| ==> ns[i] == cs[i].name
  {
    if cs == [] then [] else [cs[0].name] + Names(cs[1..])
  }

  ghost predicate UniqueNames(cs: seq<Check>) {
    forall i, j :: 0 <= i < j < |cs| ==> cs[i].name != cs[j].name
  }

  /** `checks.find(c => c.name === name)`: the first check with that name. */
  function Find(cs: seq<Check>, name: string): (r: Option<Check>)
    ensures r.None? <==> name !in Names(cs)
    ensures r.Some? ==> r.value in cs && r.value.name == name
  {
    if cs == [] then None
    else if cs[0].name == name then Some(cs[0])
    else Find(cs[1..], name)
  }

  /** `find` stops at the first check with the name: when no earlier check
      has it, the check at position i is the one returned. */
  lemma {:induction false} FindFirst(cs: seq<Check>, name: string, i: nat)
    requires i < |cs| && cs[i].name == name
    requires forall j :: 0 <= j < i ==> cs[j].name != name
    ensures Find(cs, name) == Some(cs[i])
  {
    if i > 0 {
      FindFirst(cs[1..], name, i - 1);
    }
  }

  /** The catalog scan of the price rule: categories in order, and within
      a category the first check with the requested name. */
  function Lookup(cat: Catalog, name: string): (r: Option<Check>)
  {
    if cat == [] then None
    else
      match Find(cat[0].1, name)
      case Some(c) => Some(c)
      case None => Lookup(cat[1..], name)
  }

  lemma {:induction false} FindAppend(a: seq<Check>, b: seq<Check>, name: string)
    ensures Find(a + b, name) == if Find(a, name).Some? then Find(a, name) else Find(b, name)
  {
    if a == [] {
      assert a + b == b;
    } else {
      assert (a + b)[0] == a[0] && (a + b)[1..] == a[1..] + b;
      FindAppend(a[1..], b, name);
    }
  }

  /** Scanning category by category finds the first check with the name in
      the flattened catalog. */
  lemma {:induction false} LookupIsFirstMatch(cat: Catalog, name: string)
    ensures Lookup(cat, name) == Find(AllChecks(cat), name)
  {
    if cat != [] {
      LookupIsFirstMatch(cat[1..], name);
      FindAppend(cat[0].1, AllChecks(cat[1..]), name);
    }
  }

  /** With globally unique names, a lookup returns the one check that has
      the name, and nothing for a name the catalog does not list. */
  lemma LookupUnique(cat: Catalog, c: Check)
    requires UniqueNames(AllChecks(cat))
    requires c in AllChecks(cat)
    ensures Lookup(cat, c.name) == Some(c)
  {
    LookupIsFirstMatch(cat, c.name);
    var cs := AllChecks(cat);
    var k :| 0 <= k < |cs| && cs[k] == c;
    assert Names(cs)[k] == c.name;
  }

  lemma LookupMissing(cat: Catalog, name: string)
    ensures Lookup(cat, name).None? <==> name !in Names(AllChecks(cat))
  {
    LookupIsFirstMatch(cat, name);
  }

  lemma {:induction false} NamesAppend(a: seq<Check>, b: seq<Check>)
    ensures Names(a + b) == Names(a) + Names(b)
  {
  }

  /** Flattening puts a category's checks before those of the categories
      after it. */
  lemma {:induction false} AllChecksSnoc(cat: Catalog)
    requires |cat| > 0
    ensures AllChecks(cat) == AllChecks(cat[..|cat| - 1]) + cat[|cat| - 1].1
  {
    if |cat| > 1 {
      var init := cat[..|cat| - 1];
      assert init[1..] == cat[1..][..|cat[1..]| - 1];
      AllChecksSnoc(cat[1..]);
      assert AllChecks(init) == init[0].1 + AllChecks(init[1..]);
    } else {
      assert cat[1..] == [];
    }
  }

  lemma AllChecksPrefix(cat: Catalog, k: nat)
    requires k < |cat|
    ensures AllChecks(cat[..k + 1]) == AllChecks(cat[..k]) + cat[k].1
  {
    AllChecksSnoc(cat[..k + 1]);
    assert cat[..k + 1][..k] == cat[..k];
  }

  /** The first five categories of a catalog, flattened. */
  lemma AllChecks5(cat: Catalog)
    requires |cat| >= 5
    ensures AllChecks(cat[..5]) == cat[0].1 + cat[1].1 + cat[2].1 + cat[3].1 + cat[4].1
  {
    AllChecksPrefix(cat, 0);
    assert AllChecks(cat[..1]) == cat[0].1;
    AllChecksPrefix(cat, 1);
    AllChecksPrefix(cat, 2);
    AllChecksPrefix(cat, 3);
    AllChecksPrefix(cat, 4);
  }

  /** A nine-category catalog flattened. */
  lemma AllChecks9(cat: Catalog)
    requires |cat| == 9
    ensures AllChecks(cat) == cat[0].1 + cat[1].1 + cat[2].1 + cat[3].1 + cat[4].1 + cat[5].1 + cat[6].1 + cat[7].1 + cat[8].1
  {
    AllChecks5(cat);
    AllChecksPrefix(cat, 5);
    AllChecksPrefix(cat, 6);
    AllChecksPrefix(cat, 7);
    AllChecksPrefix(cat, 8);
    assert cat[..9] == cat;
  }

  /** The catalog's checks as one flat sequence. */
  lemma IdCatalogFlat()
    ensures AllChecks(IdCatalog) == IdentityChecks + SocialMediaChecks + CriminalChecks + SalaryValidation + CreditChecks + AddressChecks + EducationChecks + EmploymentChecks + ProfessionalChecks
  {
    AllChecks9(IdCatalog);
  }

  /** Nine categories, in declaration order. */
  lemma IdCatalogCategories()
    ensures Categories(IdCatalog) == ["Identity Checks", "Social Media Checks", "Criminal Checks", "Salary Validation", "Credit Checks", "Address Checks", "Education Checks", "Employment Checks", "Professional Checks"]
  {
  }

  /** The catalog's check names, in catalog order. */
  const CheckNames: seq<string> := [
    "Aadhaar",
    "PAN Basic",
    "PAN Advanced (Aadhaar <> PAN Linkage)",
    "Bank Account Validation",
    "Voter ID",
    "Driving License",
    "Vehicle RC",
    "ESIC",
    "Social Media",
    "Criminal Court (CCRV)",
    "Police verification through Law firm",
    "Global database check",
    "Payslip (Tampering + POO + MCA)",
    "Bank Statement (Match against Payslip)",
    "Credit check (CIBIL / CRIF / Experian / Equifax)",
    "India Credit Default Database Check",
    "Permanent Address check (Physical - PAN India Coverage)",
    "Current Address check (Physical - PAN India Coverage)",
    "Digital Address check",
    "Highest Education*",
    "Employment & Conduct (Per check) - Last 7 years",
    "Self-Employment Check (Via Business PAN)",
    "PF UAN Advanced",
    "CV Validation",
    "Directorship Check",
    "Right to Work (Govt ID)",
    "Professional Reference Check"
  ]

  lemma {:induction false} NamesConcat9(a: seq<Check>, b: seq<Check>, c: seq<Check>, d: seq<Check>, e: seq<Check>,
                                         f: seq<Check>, g: seq<Check>, h: seq<Check>, k: seq<Check>)
    ensures Names(a + b + c + d + e + f + g + h + k)
         == Names(a) + Names(b) + Names(c) + Names(d) + Names(e) + Names(f) + Names(g) + Names(h) + Names(k)
  {
    NamesAppend(a, b);
    NamesAppend(a + b, c);
    NamesAppend(a + b + c, d);
    NamesAppend(a + b + c + d, e);
    NamesAppend(a + b + c + d + e, f);
    NamesAppend(a + b + c + d + e + f, g);
    NamesAppend(a + b + c + d + e + f + g, h);
    NamesAppend(a + b + c + d + e + f + g + h, k);
  }

  lemma IdentityChecksNames()
    ensures Names(IdentityChecks) == ["Aadhaar", "PAN Basic", "PAN Advanced (Aadhaar <> PAN Linkage)", "Bank Account Validation", "Voter ID", "Driving License", "Vehicle RC", "ESIC"]
  {
  }

  lemma SocialMediaChecksNames()
    ensures Names(SocialMediaChecks) == ["Social Media"]
  {
  }

  lemma CriminalChecksNames()
    ensures Names(CriminalChecks) == ["Criminal Court (CCRV)", "Police verification through Law firm", "Global database check"]
  {
  }

  lemma SalaryValidationNames()
    ensures Names(SalaryValidation) == ["Payslip (Tampering + POO + MCA)", "Bank Statement (Match against Payslip)"]
  {
  }

  lemma CreditChecksNames()
    ensures Names(CreditChecks) == ["Credit check (CIBIL / CRIF / Experian / Equifax)", "India Credit Default Database Check"]
  {
  }

  lemma AddressChecksNames()
    ensures Names(AddressChecks) == ["Permanent Address check (Physical - PAN India Coverage)", "Current Address check (Physical - PAN India Coverage)", "Digital Address check"]
  {
  }

  lemma EducationChecksNames()
    ensures Names(EducationChecks) == ["Highest Education*"]
  {
  }

  lemma EmploymentChecksNames()
    ensures Names(EmploymentChecks) == ["Employment & Conduct (Per check) - Last 7 years", "Self-Employment Check (Via Business PAN)", "PF UAN Advanced", "CV Validation", "Directorship Check", "Right to Work (Govt ID)"]
  {
  }

  lemma ProfessionalChecksNames()
    ensures Names(ProfessionalChecks) == ["Professional Reference Check"]
  {
  }


  lemma CheckNamesByCategory()
    ensures ["Aadhaar", "PAN Basic", "PAN Advanced (Aadhaar <> PAN Linkage)", "Bank Account Validation", "Voter ID", "Driving License", "Vehicle RC", "ESIC"] + ["Social Media"] + ["Criminal Court (CCRV)", "Police verification through Law firm", "Global database check"] + ["Payslip (Tampering + POO + MCA)", "Bank Statement (Match against Payslip)"] + ["Credit check (CIBIL / CRIF / Experian / Equifax)", "India Credit Default Database Check"] + ["Permanent Address check (Physical - PAN India Coverage)", "Current Address check (Physical - PAN India Coverage)", "Digital Address check"] + ["Highest Education*"] + ["Employment & Conduct (Per check) - Last 7 years", "Self-Employment Check (Via Business PAN)", "PF UAN Advanced", "CV Validation", "Directorship Check", "Right to Work (Govt ID)"] + ["Professional Reference Check"] == CheckNames
  {
  }

  lemma CheckNamesDistinct()
    ensures forall i, j :: 0 <= i < j < |CheckNames| ==> CheckNames[i] != CheckNames[j]
  {
  }

  lemma IdCatalogNames()
    ensures Names(AllChecks(IdCatalog)) == CheckNames
  {
    IdCatalogFlat();
    IdentityChecksNames();
    SocialMediaChecksNames();
    CriminalChecksNames();
    SalaryValidationNames();
    CreditChecksNames();
    AddressChecksNames();
    EducationChecksNames();
    EmploymentChecksNames();
    ProfessionalChecksNames();
    NamesConcat9(IdentityChecks, SocialMediaChecks, CriminalChecks, SalaryValidation, CreditChecks, AddressChecks, EducationChecks, EmploymentChecks, ProfessionalChecks);
    CheckNamesByCategory();
  }

  /** No check name occurs twice anywhere in the catalog, so the first-match
      lookup is unambiguous. */
  lemma IdCatalogNamesUnique()
    ensures UniqueNames(AllChecks(IdCatalog))
  {
    IdCatalogNames();
    CheckNamesDistinct();
    var cs := AllChecks(IdCatalog);
    forall i, j | 0 <= i < j < |cs| ensures cs[i].name != cs[j].name {
      assert cs[i].name == Names(cs)[i] && cs[j].name == Names(cs)[j];
    }
  }

  ghost predicate PositivePrices(cs: seq<Check>) {
    forall i :: 0 <= i < |cs| ==> cs[i].price > 0
  }

  lemma PositivePricesAppend(a: seq<Check>, b: seq<Check>)
    requires PositivePrices(a) && PositivePrices(b)
    ensures PositivePrices(a + b)
  {
    forall i | 0 <= i < |a + b| ensures (a + b)[i].price > 0 {
      if i >= |a| {
        assert (a + b)[i] == b[i - |a|];
      }
    }
  }

  lemma PositivePricesMembers(cs: seq<Check>)
    requires PositivePrices(cs)
    ensures forall c :: c in cs ==> c.price > 0
  {
  }

  lemma FirstCategoriesPricesPositive()
    ensures PositivePrices(IdentityChecks) && PositivePrices(SocialMediaChecks) && PositivePrices(CriminalChecks)
  {
  }

  lemma MiddleCategoriesPricesPositive()
    ensures PositivePrices(SalaryValidation) && PositivePrices(CreditChecks) && PositivePrices(AddressChecks)
  {
  }

  lemma LastCategoriesPricesPositive()
    ensures PositivePrices(EducationChecks) && PositivePrices(EmploymentChecks) && PositivePrices(ProfessionalChecks)
  {
  }

  /** Every catalog price is a positive whole number of rupees. */
  lemma IdCatalogPricesPositive()
    ensures forall c :: c in AllChecks(IdCatalog) ==> c.price > 0
  {
    IdCatalogFlat();
    FirstCategoriesPricesPositive();
    MiddleCategoriesPricesPositive();
    LastCategoriesPricesPositive();
    var cs := IdentityChecks;
    PositivePricesAppend(cs, SocialMediaChecks);
    cs := cs + SocialMediaChecks;
    PositivePricesAppend(cs, CriminalChecks);
    cs := cs + CriminalChecks;
    PositivePricesAppend(cs, SalaryValidation);
    cs := cs + SalaryValidation;
    PositivePricesAppend(cs, CreditChecks);
    cs := cs + CreditChecks;
    PositivePricesAppend(cs, AddressChecks);
    cs := cs + AddressChecks;
    PositivePricesAppend(cs, EducationChecks);
    cs := cs + EducationChecks;
    PositivePricesAppend(cs, EmploymentChecks);
    cs := cs + EmploymentChecks;
    PositivePricesAppend(cs, ProfessionalChecks);
    cs := cs + ProfessionalChecks;
    PositivePricesMembers(cs);
  }

  /** The checks that carry an insight text, in order. */
  function InsightChecks(cs: seq<Check>): (r: seq<Check>)
    ensures |r| <= |cs|
  {
    if cs == [] then []
    else if cs[0].insights != "" then [cs[0]] + InsightChecks(cs[1..])
    else InsightChecks(cs[1..])
  }

  /** The filter keeps exactly the checks with an insight text. */
  lemma {:induction false} InsightChecksMembers(cs: seq<Check>)
    ensures forall c :: c in InsightChecks(cs) <==> c in cs && c.insights != ""
  {
    if cs != [] {
      InsightChecksMembers(cs[1..]);
      assert cs == [cs[0]] + cs[1..];
    }
  }

  lemma {:induction false} InsightChecksAppend(a: seq<Check>, b: seq<Check>)
    ensures InsightChecks(a + b) == InsightChecks(a) + InsightChecks(b)
  {
    if a == [] {
      assert a + b == b;
    } else {
      assert (a + b)[0] == a[0] && (a + b)[1..] == a[1..] + b;
      InsightChecksAppend(a[1..], b);
    }
  }

  lemma IdentityChecksInsights()
    ensures Names(InsightChecks(IdentityChecks)) == ["PAN Advanced (Aadhaar <> PAN Linkage)", "Bank Account Validation"]
  {
    var cs := IdentityChecks;
    assert InsightChecks(cs[7..]) == InsightChecks(cs[8..]);
    assert InsightChecks(cs[6..]) == InsightChecks(cs[7..]);
    assert InsightChecks(cs[5..]) == InsightChecks(cs[6..]);
    assert InsightChecks(cs[4..]) == InsightChecks(cs[5..]);
    assert InsightChecks(cs[3..]) == [cs[3]] + InsightChecks(cs[4..]);
    assert InsightChecks(cs[2..]) == [cs[2]] + InsightChecks(cs[3..]);
    assert InsightChecks(cs[1..]) == InsightChecks(cs[2..]);
    assert InsightChecks(cs[0..]) == InsightChecks(cs[1..]);
    assert cs[0..] == cs;
  }

  lemma SocialMediaChecksInsights()
    ensures Names(InsightChecks(SocialMediaChecks)) == []
  {
    var cs := SocialMediaChecks;
    assert InsightChecks(cs[0..]) == InsightChecks(cs[1..]);
    assert cs[0..] == cs;
  }

  lemma CriminalChecksInsights()
    ensures Names(InsightChecks(CriminalChecks)) == ["Criminal Court (CCRV)"]
  {
    var cs := CriminalChecks;
    assert InsightChecks(cs[2..]) == InsightChecks(cs[3..]);
    assert InsightChecks(cs[1..]) == InsightChecks(cs[2..]);
    assert InsightChecks(cs[0..]) == [cs[0]] + InsightChecks(cs[1..]);
    assert cs[0..] == cs;
  }

  lemma SalaryValidationInsights()
    ensures Names(InsightChecks(SalaryValidation)) == ["Payslip (Tampering + POO + MCA)"]
  {
    var cs := SalaryValidation;
    assert InsightChecks(cs[1..]) == InsightChecks(cs[2..]);
    assert InsightChecks(cs[0..]) == [cs[0]] + InsightChecks(cs[1..]);
    assert cs[0..] == cs;
  }

  lemma CreditChecksInsights()
    ensures Names(InsightChecks(CreditChecks)) == []
  {
    var cs := CreditChecks;
    assert InsightChecks(cs[1..]) == InsightChecks(cs[2..]);
    assert InsightChecks(cs[0..]) == InsightChecks(cs[1..]);
    assert cs[0..] == cs;
  }

  lemma AddressChecksInsights()
    ensures Names(InsightChecks(AddressChecks)) == ["Digital Address check"]
  {
    var cs := AddressChecks;
    assert InsightChecks(cs[2..]) == [cs[2]] + InsightChecks(cs[3..]);
    assert InsightChecks(cs[1..]) == InsightChecks(cs[2..]);
    assert InsightChecks(cs[0..]) == InsightChecks(cs[1..]);
    assert cs[0..] == cs;
  }

  lemma EducationChecksInsights()
    ensures Names(InsightChecks(EducationChecks)) == []
  {
    var cs := EducationChecks;
    assert InsightChecks(cs[0..]) == InsightChecks(cs[1..]);
    assert cs[0..] == cs;
  }

  lemma EmploymentChecksInsights()
    ensures Names(InsightChecks(EmploymentChecks)) == ["Employment & Conduct (Per check) - Last 7 years", "PF UAN Advanced"]
  {
    var cs := EmploymentChecks;
    assert InsightChecks(cs[5..]) == InsightChecks(cs[6..]);
    assert InsightChecks(cs[4..]) == InsightChecks(cs[5..]);
    assert InsightChecks(cs[3..]) == InsightChecks(cs[4..]);
    assert InsightChecks(cs[2..]) == [cs[2]] + InsightChecks(cs[3..]);
    assert InsightChecks(cs[1..]) == InsightChecks(cs[2..]);
    assert InsightChecks(cs[0..]) == [cs[0]] + InsightChecks(cs[1..]);
    assert cs[0..] == cs;
  }

  lemma ProfessionalChecksInsights()
    ensures Names(InsightChecks(ProfessionalChecks)) == []
  {
    var cs := ProfessionalChecks;
    assert InsightChecks(cs[0..]) == InsightChecks(cs[1..]);
    assert cs[0..] == cs;
  }

  lemma InsightNamesByCategory()
    ensures ["PAN Advanced (Aadhaar <> PAN Linkage)", "Bank Account Validation"] + [] + ["Criminal Court (CCRV)"] + ["Payslip (Tampering + POO + MCA)"] + [] + ["Digital Address check"] + [] + ["Employment & Conduct (Per check) - Last 7 years", "PF UAN Advanced"] + [] == ["PAN Advanced (Aadhaar <> PAN Linkage)", "Bank Account Validation", "Criminal Court (CCRV)", "Payslip (Tampering + POO + MCA)", "Digital Address check", "Employment & Conduct (Per check) - Last 7 years", "PF UAN Advanced"]
  {
  }

  /** Exactly seven catalog checks carry an insight, namely these. */
  lemma IdCatalogInsights()
    ensures Names(InsightChecks(AllChecks(IdCatalog))) == ["PAN Advanced (Aadhaar <> PAN Linkage)", "Bank Account Validation", "Criminal Court (CCRV)", "Payslip (Tampering + POO + MCA)", "Digital Address check", "Employment & Conduct (Per check) - Last 7 years", "PF UAN Advanced"]
    ensures |InsightChecks(AllChecks(IdCatalog))| == 7
  {
    IdCatalogFlat();
    InsightChecksAppend(IdentityChecks, SocialMediaChecks);
    InsightChecksAppend(IdentityChecks + SocialMediaChecks, CriminalChecks);
    InsightChecksAppend(IdentityChecks + SocialMediaChecks + CriminalChecks, SalaryValidation);
    InsightChecksAppend(IdentityChecks + SocialMediaChecks + CriminalChecks + SalaryValidation, CreditChecks);
    InsightChecksAppend(IdentityChecks + SocialMediaChecks + CriminalChecks + SalaryValidation + CreditChecks, AddressChecks);
    InsightChecksAppend(IdentityChecks + SocialMediaChecks + CriminalChecks + SalaryValidation + CreditChecks + AddressChecks, EducationChecks);
    InsightChecksAppend(IdentityChecks + SocialMediaChecks + CriminalChecks + SalaryValidation + CreditChecks + AddressChecks + EducationChecks, EmploymentChecks);
    InsightChecksAppend(IdentityChecks + SocialMediaChecks + CriminalChecks + SalaryValidation + CreditChecks + AddressChecks + EducationChecks + EmploymentChecks, ProfessionalChecks);
    IdentityChecksInsights();
    SocialMediaChecksInsights();
    CriminalChecksInsights();
    SalaryValidationInsights();
    CreditChecksInsights();
    AddressChecksInsights();
    EducationChecksInsights();
    EmploymentChecksInsights();
    ProfessionalChecksInsights();
    InsightNamesByCategory();
    NamesConcat9(InsightChecks(IdentityChecks), InsightChecks(SocialMediaChecks), InsightChecks(CriminalChecks), InsightChecks(SalaryValidation), InsightChecks(CreditChecks), InsightChecks(AddressChecks), InsightChecks(EducationChecks), InsightChecks(EmploymentChecks), InsightChecks(ProfessionalChecks));
  }

  /** The prices the scenarios rely on. */
  lemma IdCatalogKnownPrices()
    ensures Lookup(IdCatalog, "Aadhaar") == Some(IdentityChecks[0]) && IdentityChecks[0].price == 30
    ensures Lookup(IdCatalog, "Highest Education*") == Some(EducationChecks[0]) && EducationChecks[0].price == 500
    ensures Lookup(IdCatalog, "Employment & Conduct (Per check) - Last 7 years") == Some(EmploymentChecks[0])
    ensures EmploymentChecks[0].price == 2000
  {
    IdCatalogFlat();
    IdCatalogNamesUnique();
    LookupUnique(IdCatalog, IdentityChecks[0]);
    LookupUnique(IdCatalog, EducationChecks[0]);
    LookupUnique(IdCatalog, EmploymentChecks[0]);
  }
}
