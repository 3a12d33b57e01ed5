/**
 * The catalog import script: the keyword rules that classify a medicine, the
 * product record built for each medicine, and the loops that give categories
 * and products slugs that do not collide, by appending `-1`, `-2`, ... to a
 * slug already taken.
 */
module ImportData {
  import opened Common
  import Slug

  // ---------------------------------------------------------------- classification

  datatype DosageForm =
    Tablet | Capsule | Liquid | Cream | Ointment | Injection | Inhaler | Drops
    | Suppository | Patch | Other

  /** `keys.some(k => t.includes(k))`. */
  function AnyContains(t: string, keys: seq<string>): (r: bool)
    ensures r <==> exists i :: 0 <= i < |keys| && Contains(t, keys[i])
  {
    if |keys| == 0 then false
    else
      var rest := AnyContains(t, keys[1..]);
      assert rest <==> exists i :: 1 <= i < |keys| && Contains(t, keys[i]) by {
        if rest {
          var i :| 0 <= i < |keys[1..]| && Contains(t, keys[1..][i]);
          assert Contains(t, keys[i + 1]);
        }
        if exists i :: 1 <= i < |keys| && Contains(t, keys[i]) {
          var i :| 1 <= i < |keys| && Contains(t, keys[i]);
          assert Contains(t, keys[1..][i - 1]);
        }
      }
      Contains(t, keys[0]) || rest
  }

  /** None of the keywords the dosage-form rules test occurs in `t`. */
  predicate NoDosageKeyword(t: string)
  {
    !Contains(t, "oral") && !Contains(t, "tablet") && !Contains(t, "capsule")
    && !Contains(t, "liquid") && !Contains(t, "juice") && !Contains(t, "cream")
    && !Contains(t, "ointment") && !Contains(t, "injection") && !Contains(t, "inhaler")
    && !Contains(t, "inhalation") && !Contains(t, "drops") && !Contains(t, "suppository")
    && !Contains(t, "patch") && !Contains(t, "topical")
  }

  /** One rule of the classifier: the keywords it looks for and the form it gives. */
  datatype DosageRule = DosageRule(keys: seq<string>, form: DosageForm)

  /** The classifier's rules, in the order the script tests them. */
  const DosageRules: seq<DosageRule> := [
    DosageRule(["oral", "tablet"], Tablet),
    DosageRule(["capsule"], Capsule),
    DosageRule(["liquid", "juice"], Liquid),
    DosageRule(["cream"], Cream),
    DosageRule(["ointment"], Ointment),
    DosageRule(["injection"], Injection),
    DosageRule(["inhaler", "inhalation"], Inhaler),
    DosageRule(["drops"], Drops),
    DosageRule(["suppository"], Suppository),
    DosageRule(["patch"], Patch),
    DosageRule(["topical"], Cream)
  ]

  /** The index of the first rule, from `from` on, one of whose keywords occurs in `t`. */
  function FirstRule(rules: seq<DosageRule>, t: string, from: nat): (r: Option<nat>)
    requires from <= |rules|
    ensures r.None? <==> forall i :: from <= i < |rules| ==> !AnyContains(t, rules[i].keys)
    ensures r.Some? ==> from <= r.value < |rules| && AnyContains(t, rules[r.value].keys)
                        && forall i :: from <= i < r.value ==> !AnyContains(t, rules[i].keys)
    decreases |rules| - from
  {
    if from == |rules| then None
    else if AnyContains(t, rules[from].keys) then Some(from)
    else FirstRule(rules, t, from + 1)
  }

  /** Classification by the rule table: the form of the first rule that matches, else `Other`. */
  function ByRules(t: string): DosageForm
  {
    match FirstRule(DosageRules, t, 0)
    case None => Other
    case Some(i) => DosageRules[i].form
  }

  /** Each rule of the table matches exactly when one of its keywords occurs. */
  lemma RuleTests(t: string)
    ensures AnyContains(t, DosageRules[0].keys) <==> Contains(t, "oral") || Contains(t, "tablet")
    ensures AnyContains(t, DosageRules[1].keys) <==> Contains(t, "capsule")
    ensures AnyContains(t, DosageRules[2].keys) <==> Contains(t, "liquid") || Contains(t, "juice")
    ensures AnyContains(t, DosageRules[3].keys) <==> Contains(t, "cream")
    ensures AnyContains(t, DosageRules[4].keys) <==> Contains(t, "ointment")
    ensures AnyContains(t, DosageRules[5].keys) <==> Contains(t, "injection")
    ensures AnyContains(t, DosageRules[6].keys) <==> Contains(t, "inhaler") || Contains(t, "inhalation")
    ensures AnyContains(t, DosageRules[7].keys) <==> Contains(t, "drops")
    ensures AnyContains(t, DosageRules[8].keys) <==> Contains(t, "suppository")
    ensures AnyContains(t, DosageRules[9].keys) <==> Contains(t, "patch")
    ensures AnyContains(t, DosageRules[10].keys) <==> Contains(t, "topical")
  {
  }

  /**
   * The dosage form of a medicine's consumption type: a missing or empty type is
   * `Other`; otherwise the lower-cased type is tested against the keywords in
   * order, first match wins.
   */
  function GetDosageForm(consumeType: Option<string>): (r: DosageForm)
    ensures consumeType.None? || consumeType.value == "" ==> r == Other
    ensures consumeType.Some? && consumeType.value != "" ==> r == ByRules(Lower(consumeType.value))
    ensures consumeType.Some? && consumeType.value != "" ==>
              (r == Other <==> NoDosageKeyword(Lower(consumeType.value)))
  {
    if consumeType.None? || consumeType.value == "" then Other
    else DosageKeyword(Lower(consumeType.value))
  }

  /** The keyword tests on a lower-cased type, in order, first match wins. */
  function DosageKeyword(t: string): (r: DosageForm)
    ensures r == ByRules(t)
    ensures r == Other <==> NoDosageKeyword(t)
  {
    RuleTests(t);
    if Contains(t, "oral") || Contains(t, "tablet") then Tablet
    else if Contains(t, "capsule") then Capsule
    else if Contains(t, "liquid") || Contains(t, "juice") then Liquid
    else if Contains(t, "cream") then Cream
    else if Contains(t, "ointment") then Ointment
    else if Contains(t, "injection") then Injection
    else if Contains(t, "inhaler") || Contains(t, "inhalation") then Inhaler
    else if Contains(t, "drops") then Drops
    else if Contains(t, "suppository") then Suppository
    else if Contains(t, "patch") then Patch
    else if Contains(t, "topical") then Cream
    else Other
  }

  /** A type that mentions "oral" or "tablet" is a tablet, whatever else it mentions. */
  lemma TabletWins(consumeType: string)
    requires Contains(Lower(consumeType), "oral") || Contains(Lower(consumeType), "tablet")
    ensures GetDosageForm(Some(consumeType)) == Tablet
  {
  }

  /**
   * "topical" is the last rule: it decides only when none of the ten earlier
   * rules matches, and any earlier keyword that occurs beats it.
   */
  lemma TopicalIsLastResort(t: string)
    requires Contains(t, "topical")
    ensures (forall i :: 0 <= i < 10 ==> !AnyContains(t, DosageRules[i].keys)) ==> DosageKeyword(t) == Cream
    ensures (exists i :: 0 <= i < 10 && AnyContains(t, DosageRules[i].keys))
              ==> exists j :: 0 <= j < 10 && AnyContains(t, DosageRules[j].keys)
                              && DosageKeyword(t) == DosageRules[j].form
                              && forall i :: 0 <= i < j ==> !AnyContains(t, DosageRules[i].keys)
  {
    var f := FirstRule(DosageRules, t, 0);
    assert AnyContains(t, DosageRules[10].keys) by {
      assert DosageRules[10].keys[0] == "topical";
    }
    assert f.Some?;
  }

  lemma LowerIdempotent(s: string)
    ensures Lower(Lower(s)) == Lower(s)
  {
    assert forall i :: 0 <= i < |s| ==> Lower(Lower(s))[i] == Lower(s)[i];
  }

  /** The classification ignores letter case. */
  lemma DosageFormIgnoresCase(consumeType: string)
    ensures GetDosageForm(Some(consumeType)) == GetDosageForm(Some(Lower(consumeType)))
  {
    LowerIdempotent(consumeType);
    assert Lower(consumeType) == "" <==> consumeType == "";
  }

  const PrescriptionCategories: seq<string> := [
    "antibiotics", "blood pressure", "diabetes", "depression", "pain killer",
    "anticonvulsants", "antihistamine", "corticosteroid", "antiplatelet",
    "dermatology", "dental", "fracture", "women care"
  ]

  const ControlledDrugs: seq<string> := [
    "alprazolam", "clonazepam", "zolpidem", "tramadol", "oxycodone",
    "hydrocodone", "trazodone", "sertraline", "fluoxetine", "duloxetine"
  ]

  /** A category needs a prescription when its lower-cased name mentions a listed category. */
  function IsPrescriptionRequired(category: string): (r: bool)
    ensures r <==> exists i :: 0 <= i < |PrescriptionCategories|
                               && Contains(Lower(category), PrescriptionCategories[i])
  {
    AnyContains(Lower(category), PrescriptionCategories)
  }

  /**
   * A drug is controlled when its lower-cased name mentions a listed drug; the
   * category argument the script passes plays no part.
   */
  function IsControlledSubstance(drugName: string, category: string): (r: bool)
    ensures r <==> exists i :: 0 <= i < |ControlledDrugs| && Contains(Lower(drugName), ControlledDrugs[i])
  {
    AnyContains(Lower(drugName), ControlledDrugs)
  }

  // ---------------------------------------------------------------- imported records

  /** A row of the import data; `countInStock` is `None` when missing or not a number. */
  datatype Medicine = Medicine(
    drugName: string,
    manufacturer: string,
    consumeType: Option<string>,
    price: int,
    sideEffects: string,
    category: string,
    countInStock: Option<int>)

  /** The random numbers, each in [0, 1), one product's flags are drawn from. */
  datatype Draws = Draws(featured: real, onSale: real, saleGate: real, salePct: real)

  predicate DrawsValid(d: Draws)
  {
    0.0 <= d.featured < 1.0 && 0.0 <= d.onSale < 1.0
    && 0.0 <= d.saleGate < 1.0 && 0.0 <= d.salePct < 1.0
  }

  datatype ImportedCategory = ImportedCategory(name: string, slug: string)

  datatype ImportedProduct = ImportedProduct(
    name: string,
    slug: string,
    brand: string,
    category: string,            // the trimmed category name, key of the category map
    price: int,
    stockQuantity: int,
    lowStockThreshold: int,
    dosageForm: DosageForm,
    prescriptionRequired: bool,
    controlledSubstance: bool,
    sideEffects: seq<string>,
    tags: seq<string>,
    isActive: bool,
    isFeatured: bool,
    isOnSale: bool,
    salePercentage: Option<int>,
    requiresColdStorage: bool)

  /** `countInStock || 100`: a missing or zero count becomes 100. */
  function ImportedStock(countInStock: Option<int>): (r: int)
    ensures r != 0
    ensures countInStock.Some? && countInStock.value != 0 ==> r == countInStock.value
  {
    if countInStock.None? || countInStock.value == 0 then 100 else countInStock.value
  }

  /** The product record the script saves for one medicine. */
  function ImportMedicine(m: Medicine, slug: string, d: Draws): (r: ImportedProduct)
    requires DrawsValid(d)
    ensures r.slug == slug && r.name == m.drugName && r.category == Trim(m.category)
    ensures r.brand == (if m.manufacturer == "" then "Generic" else m.manufacturer)
    ensures r.stockQuantity == ImportedStock(m.countInStock) && r.stockQuantity != 0
    ensures r.isActive && r.lowStockThreshold == 10
    ensures r.dosageForm == GetDosageForm(m.consumeType)
    ensures r.prescriptionRequired == IsPrescriptionRequired(m.category)
    ensures r.controlledSubstance == IsControlledSubstance(m.drugName, m.category)
    ensures r.tags == [Lower(m.category), Lower(m.drugName)]
    ensures |r.sideEffects| <= 1
    ensures r.salePercentage.Some? ==> 10 <= r.salePercentage.value <= 39
  {
    ImportedProduct(
      m.drugName,
      slug,
      if m.manufacturer == "" then "Generic" else m.manufacturer,
      Trim(m.category),
      m.price,
      ImportedStock(m.countInStock),
      10,
      GetDosageForm(m.consumeType),
      IsPrescriptionRequired(m.category),
      IsControlledSubstance(m.drugName, m.category),
      if m.sideEffects == "" then [] else [m.sideEffects],
      [Lower(m.category), Lower(m.drugName)],
      true,
      d.featured > 0.8,
      d.onSale > 0.9,
      if d.saleGate > 0.9 then Some((d.salePct * 30.0).Floor + 10) else None,
      Contains(Lower(m.category), "insulin") || Contains(Lower(m.category), "vaccine"))
  }

  // ---------------------------------------------------------------- unique slugs

  /** The `k`-th slug tried for `base`: `base`, then `base-1`, `base-2`, ... */
  function Candidate(base: string, k: nat): string
  {
    if k == 0 then base else base + "-" + Dec(k)
  }

  lemma CandidateInjective(base: string, j: nat, k: nat)
    ensures Candidate(base, j) == Candidate(base, k) ==> j == k
  {
    if j != 0 && k != 0 {
      var n := |base| + 1;
      assert Dec(j) == Candidate(base, j)[n..];
      assert Dec(k) == Candidate(base, k)[n..];
      DecInjective(j, k);
    } else {
      assert |Candidate(base, j)| == |base| <==> j == 0;
      assert |Candidate(base, k)| == |base| <==> k == 0;
    }
  }

  lemma {:induction false} SubsetCardinality<T>(a: set<T>, b: set<T>)
    requires a <= b
    ensures |a| <= |b|
    decreases |a|
  {
    if a != {} {
      var x :| x in a;
      SubsetCardinality(a - {x}, b - {x});
    }
  }

  /** The first `k` candidates. */
  function Candidates(base: string, k: nat): set<string>
  {
    if k == 0 then {} else Candidates(base, k - 1) + {Candidate(base, k - 1)}
  }

  lemma {:induction false} CandidatesMembers(base: string, k: nat)
    ensures forall s :: s in Candidates(base, k) ==> exists j :: 0 <= j < k && Candidate(base, j) == s
    ensures forall j :: 0 <= j < k ==> Candidate(base, j) in Candidates(base, k)
  {
    if k > 0 {
      CandidatesMembers(base, k - 1);
    }
  }

  /** The first `k` candidates are `k` different strings. */
  lemma {:induction false} CandidatesCount(base: string, k: nat)
    ensures |Candidates(base, k)| == k
  {
    if k > 0 {
      CandidatesCount(base, k - 1);
      CandidatesMembers(base, k - 1);
      if Candidate(base, k - 1) in Candidates(base, k - 1) {
        var j :| 0 <= j < k - 1 && Candidate(base, j) == Candidate(base, k - 1);
        CandidateInjective(base, j, k - 1);
        assert false;
      }
    }
  }

  /** If the first `k` candidates are all taken, there are at least `k` taken slugs. */
  lemma TakenBound(base: string, used: set<string>, k: nat)
    requires forall j :: 0 <= j < k ==> Candidate(base, j) in used
    ensures k <= |used|
  {
    CandidatesCount(base, k);
    CandidatesMembers(base, k);
    SubsetCardinality(Candidates(base, k), used);
  }

  /**
   * Reference definition of the collision rule: the index of the first candidate
   * from `k` on that is not taken.
   */
  function FirstFree(base: string, used: set<string>, k: nat): (r: nat)
    requires forall j :: 0 <= j < k ==> Candidate(base, j) in used
    ensures k <= r <= |used|
    ensures Candidate(base, r) !in used
    ensures forall j :: 0 <= j < r ==> Candidate(base, j) in used
    decreases |used| - k
  {
    TakenBound(base, used, k);
    if Candidate(base, k) !in used then k
    else
      TakenBound(base, used, k + 1);
      FirstFree(base, used, k + 1)
  }

  /**
   * The slug-collision loop: try `base`, then `base-1`, `base-2`, ... and take the
   * first candidate not in `used`; `counter` is how many candidates were passed over.
   */
  method UniqueSlug(base: string, used: set<string>) returns (slug: string, counter: nat)
    ensures counter == FirstFree(base, used, 0)
    ensures slug == Candidate(base, counter) && slug !in used
  {
    slug := base;
    counter := 0;
    while slug in used
      invariant slug == Candidate(base, counter)
      invariant forall j :: 0 <= j < counter ==> Candidate(base, j) in used
      invariant FirstFree(base, used, counter) == FirstFree(base, used, 0)
      decreases |used| - counter
    {
      TakenBound(base, used, counter + 1);
      counter := counter + 1;
      slug := base + "-" + Dec(counter);
    }
  }

  function SetOf(s: seq<string>): set<string>
  {
    set x | x in s
  }

  /**
   * Reference definition of a slug loop: each base, in order, made unique
   * against the slugs resolved before it.
   */
  function ResolveSlugs(bases: seq<string>): (r: seq<string>)
    ensures |r| == |bases|
  {
    if |bases| == 0 then []
    else
      var prev := ResolveSlugs(bases[..|bases| - 1]);
      var base := bases[|bases| - 1];
      prev + [Candidate(base, FirstFree(base, SetOf(prev), 0))]
  }

  lemma ResolveSlugsSnoc(bases: seq<string>, base: string)
    ensures ResolveSlugs(bases + [base])
            == ResolveSlugs(bases) + [Candidate(base, FirstFree(base, SetOf(ResolveSlugs(bases)), 0))]
  {
    assert (bases + [base])[..|bases|] == bases;
  }

  lemma SetOfSnoc(s: seq<string>, x: string)
    ensures SetOf(s + [x]) == SetOf(s) + {x}
  {
  }

  /** The last resolved slug extends the earlier ones and is none of them. */
  lemma ResolvedLastFresh(bases: seq<string>)
    requires |bases| > 0
    ensures var r := ResolveSlugs(bases);
            var prev := ResolveSlugs(bases[..|bases| - 1]);
            r == prev + [r[|bases| - 1]] && r[|bases| - 1] !in SetOf(prev)
  {
  }

  /** The resolved slugs are pairwise different. */
  lemma {:induction false} ResolveSlugsUnique(bases: seq<string>)
    ensures forall i, j :: 0 <= i < j < |bases| ==> ResolveSlugs(bases)[i] != ResolveSlugs(bases)[j]
  {
    if |bases| > 0 {
      var n := |bases| - 1;
      ResolveSlugsUnique(bases[..n]);
      var prev := ResolveSlugs(bases[..n]);
      var r := ResolveSlugs(bases);
      ResolvedLastFresh(bases);
      forall i, j | 0 <= i < j < |r|
        ensures r[i] != r[j]
      {
        assert r[i] == prev[i];
        assert r[i] in SetOf(prev);
        if j < n {
          assert r[j] == prev[j];
          assert prev[i] != prev[j];
        } else {
          assert r[j] == r[n];
        }
      }
    }
  }

  // ---------------------------------------------------------------- the import

  /** The trimmed names of the categories the medicines name, empty ones skipped. */
  function CategoryNames(meds: seq<Medicine>): (r: set<string>)
  {
    if |meds| == 0 then {}
    else
      var last := meds[|meds| - 1];
      CategoryNames(meds[..|meds| - 1]) + (if last.category != "" then {Trim(last.category)} else {})
  }

  /**
   * The distinct trimmed category names in order of first appearance: a `Set`
   * iterates in insertion order, and adding a name already present keeps its place.
   */
  function FirstAppearance(meds: seq<Medicine>): (r: seq<string>)
    ensures forall i, j :: 0 <= i < j < |r| ==> r[i] != r[j]
    ensures (set s | s in r) == CategoryNames(meds)
  {
    if |meds| == 0 then []
    else
      var prev := FirstAppearance(meds[..|meds| - 1]);
      var last := meds[|meds| - 1];
      if last.category != "" && Trim(last.category) !in prev then prev + [Trim(last.category)]
      else prev
  }

  /** A name collected earlier stays in front of every name collected after it. */
  lemma {:induction false} FirstAppearanceExtends(meds: seq<Medicine>, n: nat)
    requires n <= |meds|
    ensures FirstAppearance(meds[..n]) <= FirstAppearance(meds)
  {
    if n == |meds| {
      assert meds[..n] == meds;
    } else {
      var init := meds[..|meds| - 1];
      FirstAppearanceExtends(init, n);
      assert init[..n] == meds[..n];
    }
  }

  /**
   * The distinct trimmed category names of the medicines that have a category,
   * in order of first appearance (the script collects them in a `Set`).
   */
  method CollectCategories(meds: seq<Medicine>) returns (names: seq<string>)
    ensures names == FirstAppearance(meds)
    ensures forall i, j :: 0 <= i < j < |names| ==> names[i] != names[j]
    ensures (set s | s in names) == CategoryNames(meds)
  {
    names := [];
    for n := 0 to |meds|
      invariant names == FirstAppearance(meds[..n])
      invariant forall i, j :: 0 <= i < j < |names| ==> names[i] != names[j]
      invariant (set s | s in names) == CategoryNames(meds[..n])
    {
      assert meds[..n + 1][..n] == meds[..n];
      if meds[n].category != "" {
        var name := Trim(meds[n].category);
        if name !in names {
          names := names + [name];
        }
      }
    }
    assert meds[..|meds|] == meds;
  }

  /** The slugs of the names, before collisions are resolved. */
  function SlugBases(names: seq<string>): (r: seq<string>)
    ensures |r| == |names|
  {
    if |names| == 0 then [] else SlugBases(names[..|names| - 1]) + [Slug.Slugify(names[|names| - 1])]
  }

  /** Pairs each name with the slug at the same position. */
  function Pair(names: seq<string>, slugs: seq<string>): (r: seq<ImportedCategory>)
    requires |names| == |slugs|
    ensures |r| == |names|
    ensures forall i :: 0 <= i < |r| ==> r[i] == ImportedCategory(names[i], slugs[i])
  {
    if |names| == 0 then []
    else Pair(names[..|names| - 1], slugs[..|slugs| - 1]) + [ImportedCategory(names[|names| - 1], slugs[|slugs| - 1])]
  }

  lemma PairSnoc(names: seq<string>, slugs: seq<string>)
    requires |names| == |slugs| > 0
    ensures Pair(names, slugs)
            == Pair(names[..|names| - 1], slugs[..|slugs| - 1]) + [ImportedCategory(names[|names| - 1], slugs[|slugs| - 1])]
  {
  }

  /** One turn of the category loop extends the resolved slugs by the new name's slug. */
  lemma CategoryStep(names: seq<string>, n: nat, slugs: seq<string>)
    requires n < |names| && slugs == ResolveSlugs(SlugBases(names[..n]))
    ensures var base := Slug.Slugify(names[n]);
            slugs + [Candidate(base, FirstFree(base, SetOf(slugs), 0))] == ResolveSlugs(SlugBases(names[..n + 1]))
  {
    var base := Slug.Slugify(names[n]);
    assert names[..n + 1][..n] == names[..n];
    assert SlugBases(names[..n + 1]) == SlugBases(names[..n]) + [base];
    ResolveSlugsSnoc(SlugBases(names[..n]), base);
  }

  /**
   * The category loop: each distinct name, in order, becomes a category whose
   * slug is the name's slug made unique against the earlier categories' slugs.
   */
  method ImportCategories(names: seq<string>) returns (categories: seq<ImportedCategory>)
    ensures categories == Pair(names, ResolveSlugs(SlugBases(names)))
  {
    categories := [];
    ghost var slugs: seq<string> := [];
    var usedSlugs: set<string> := {};
    for n := 0 to |names|
      invariant |slugs| == n
      invariant categories == Pair(names[..n], slugs)
      invariant slugs == ResolveSlugs(SlugBases(names[..n]))
      invariant usedSlugs == SetOf(slugs)
    {
      var base := Slug.Slugify(names[n]);
      var slug, _ := UniqueSlug(base, usedSlugs);
      CategoryStep(names, n, slugs);
      SetOfSnoc(slugs, slug);
      PairSnoc(names[..n + 1], slugs + [slug]);
      assert names[..n + 1][..n] == names[..n];
      assert (slugs + [slug])[..n] == slugs;
      categories := categories + [ImportedCategory(names[n], slug)];
      slugs := slugs + [slug];
      usedSlugs := usedSlugs + {slug};
    }
    assert names[..|names|] == names;
  }

  /** The positions of the medicines whose trimmed category is among `categories`, in order. */
  function Importable(meds: seq<Medicine>, categories: set<string>): (r: seq<nat>)
    ensures forall k :: 0 <= k < |r| ==> r[k] < |meds| && Trim(meds[r[k]].category) in categories
    ensures forall k, l :: 0 <= k < l < |r| ==> r[k] < r[l]
  {
    if |meds| == 0 then []
    else
      var n := |meds| - 1;
      var prev := Importable(meds[..n], categories);
      if Trim(meds[n].category) in categories then prev + [n] else prev
  }

  /** Every medicine whose category was created is imported. */
  lemma {:induction false} ImportableComplete(meds: seq<Medicine>, categories: set<string>)
    ensures forall i :: 0 <= i < |meds| && Trim(meds[i].category) in categories
              ==> i in Importable(meds, categories)
  {
    if |meds| > 0 {
      var n := |meds| - 1;
      ImportableComplete(meds[..n], categories);
      forall i | 0 <= i < n && Trim(meds[i].category) in categories
        ensures i in Importable(meds, categories)
      {
        assert meds[..n][i] == meds[i];
      }
    }
  }

  /** The drug names' slugs of the medicines at the given positions. */
  function DrugBases(meds: seq<Medicine>, idx: seq<nat>): (r: seq<string>)
    requires forall k :: 0 <= k < |idx| ==> idx[k] < |meds|
    ensures |r| == |idx|
  {
    if |idx| == 0 then []
    else DrugBases(meds, idx[..|idx| - 1]) + [Slug.Slugify(meds[idx[|idx| - 1]].drugName)]
  }

  /** The products imported from the first `n` medicines, with their slugs. */
  ghost predicate ImportedSoFar(meds: seq<Medicine>, draws: seq<Draws>, categories: set<string>,
                                n: nat, products: seq<ImportedProduct>, slugs: seq<string>)
    requires n <= |meds| == |draws|
    requires forall i :: 0 <= i < |draws| ==> DrawsValid(draws[i])
  {
    var idx := Importable(meds[..n], categories);
    |products| == |idx| == |slugs|
    && (forall k :: 0 <= k < |idx| ==>
          products[k] == ImportMedicine(meds[idx[k]], slugs[k], draws[idx[k]]))
    && slugs == ResolveSlugs(DrugBases(meds, idx))
  }

  /** One step of the product loop keeps `ImportedSoFar`. */
  lemma ImportStep(meds: seq<Medicine>, draws: seq<Draws>, categories: set<string>,
                   n: nat, products: seq<ImportedProduct>, slugs: seq<string>)
    requires n < |meds| == |draws|
    requires forall i :: 0 <= i < |draws| ==> DrawsValid(draws[i])
    requires ImportedSoFar(meds, draws, categories, n, products, slugs)
    ensures Trim(meds[n].category) !in categories ==>
              ImportedSoFar(meds, draws, categories, n + 1, products, slugs)
    ensures Trim(meds[n].category) in categories ==>
              var base := Slug.Slugify(meds[n].drugName);
              var slug := Candidate(base, FirstFree(base, SetOf(slugs), 0));
              ImportedSoFar(meds, draws, categories, n + 1,
                            products + [ImportMedicine(meds[n], slug, draws[n])], slugs + [slug])
  {
    if Trim(meds[n].category) in categories {
      ImportTake(meds, draws, categories, n, products, slugs);
    } else {
      ImportSkip(meds, draws, categories, n, products, slugs);
    }
  }

  /** A medicine without a created category is skipped. */
  lemma ImportSkip(meds: seq<Medicine>, draws: seq<Draws>, categories: set<string>,
                   n: nat, products: seq<ImportedProduct>, slugs: seq<string>)
    requires n < |meds| == |draws|
    requires forall i :: 0 <= i < |draws| ==> DrawsValid(draws[i])
    requires ImportedSoFar(meds, draws, categories, n, products, slugs)
    requires Trim(meds[n].category) !in categories
    ensures ImportedSoFar(meds, draws, categories, n + 1, products, slugs)
  {
    assert meds[..n + 1][..n] == meds[..n];
    assert Importable(meds[..n + 1], categories) == Importable(meds[..n], categories);
  }

  /** A medicine of a created category is imported with the next unique slug. */
  lemma ImportTake(meds: seq<Medicine>, draws: seq<Draws>, categories: set<string>,
                   n: nat, products: seq<ImportedProduct>, slugs: seq<string>)
    requires n < |meds| == |draws|
    requires forall i :: 0 <= i < |draws| ==> DrawsValid(draws[i])
    requires ImportedSoFar(meds, draws, categories, n, products, slugs)
    requires Trim(meds[n].category) in categories
    ensures var base := Slug.Slugify(meds[n].drugName);
            var slug := Candidate(base, FirstFree(base, SetOf(slugs), 0));
            ImportedSoFar(meds, draws, categories, n + 1,
                          products + [ImportMedicine(meds[n], slug, draws[n])], slugs + [slug])
  {
    assert meds[..n + 1][..n] == meds[..n];
    var idx := Importable(meds[..n], categories);
    var idx' := idx + [n];
    assert Importable(meds[..n + 1], categories) == idx';
    assert idx'[..|idx|] == idx;
    var base := Slug.Slugify(meds[n].drugName);
    assert DrugBases(meds, idx') == DrugBases(meds, idx) + [base];
    ResolveSlugsSnoc(DrugBases(meds, idx), base);
  }

  /**
   * The product loop: each medicine of a created category, in order, becomes the
   * product record built from it, with the drug name's slug made unique against
   * the earlier products' slugs.
   */
  method ImportProducts(meds: seq<Medicine>, draws: seq<Draws>, categories: set<string>)
      returns (products: seq<ImportedProduct>)
    requires |draws| == |meds|
    requires forall i :: 0 <= i < |draws| ==> DrawsValid(draws[i])
    ensures var idx := Importable(meds, categories);
            var slugs := ResolveSlugs(DrugBases(meds, idx));
            |products| == |idx|
            && forall k :: 0 <= k < |idx| ==>
                 products[k] == ImportMedicine(meds[idx[k]], slugs[k], draws[idx[k]])
  {
    products := [];
    ghost var slugs: seq<string> := [];
    var usedSlugs: set<string> := {};
    for n := 0 to |meds|
      invariant ImportedSoFar(meds, draws, categories, n, products, slugs)
      invariant usedSlugs == SetOf(slugs)
    {
      ImportStep(meds, draws, categories, n, products, slugs);
      if Trim(meds[n].category) in categories {
        var slug, _ := UniqueSlug(Slug.Slugify(meds[n].drugName), usedSlugs);
        SetOfSnoc(slugs, slug);
        products := products + [ImportMedicine(meds[n], slug, draws[n])];
        slugs := slugs + [slug];
        usedSlugs := usedSlugs + {slug};
      }
    }
    assert meds[..|meds|] == meds;
  }
}
