/**
 * The skills list page: `groupedSkills` buckets the skills of the store by
 * category with a `reduce` that creates a bucket on a category's first
 * occurrence and pushes onto it, and each bucket is then sorted in place by
 * `display_order` before it is shown.
 */
module SkillsPage {
  import opened Wrappers
  import opened Json
  import opened Lists
  import opened Sorting
  import opened Store

  /** One entry of `Object.entries(groupedSkills)`. */
  datatype Group = Group(category: Value, skills: seq<Record>)

  function CategoryOf(r: Record): Value {
    Column(r, "category")
  }

  function InCategory(c: Value): Record -> bool {
    (r: Record) => CategoryOf(r) == c
  }

  function HasCategory(c: Value): Group -> bool {
    (g: Group) => g.category == c
  }

  /** One step of the `reduce`: create the bucket when `acc[category]` is
      missing, then push. */
  function AddSkill(groups: seq<Group>, x: Record): (r: seq<Group>) {
    var c := CategoryOf(x);
    var k := IndexOfFirst(groups, HasCategory(c));
    if k == -1 then groups + [Group(c, [x])]
    else groups[k := Group(c, groups[k].skills + [x])]
  }

  /** `skills.reduce(..., {})`. */
  function Grouped(s: seq<Record>): (r: seq<Group>)
    decreases |s|
  {
    if s == [] then [] else AddSkill(Grouped(s[..|s| - 1]), s[|s| - 1])
  }

  /** The categories of `s` in order of first occurrence. */
  function FirstOccurrences(s: seq<Record>): seq<Value>
    decreases |s|
  {
    if s == [] then []
    else
      var prefix := FirstOccurrences(s[..|s| - 1]);
      if CategoryOf(s[|s| - 1]) in prefix then prefix else prefix + [CategoryOf(s[|s| - 1])]
  }

  function CategoriesOf(groups: seq<Group>): (r: seq<Value>)
    ensures |r| == |groups|
    ensures forall i :: 0 <= i < |groups| ==> r[i] == groups[i].category
  {
    seq(|groups|, i requires 0 <= i < |groups| => groups[i].category)
  }

  function TotalSize(groups: seq<Group>): nat
    decreases |groups|
  {
    if groups == [] then 0 else TotalSize(groups[..|groups| - 1]) + |groups[|groups| - 1].skills|
  }

  /** What the grouping means: one bucket per category, in first-occurrence
      order, each holding exactly the skills of its category in input order. */
  predicate GroupsOf(s: seq<Record>, groups: seq<Group>) {
    && CategoriesOf(groups) == FirstOccurrences(s)
    && (forall i :: 0 <= i < |groups| ==> groups[i].skills == Keep(s, InCategory(groups[i].category)))
  }

  lemma {:induction false} FirstOccurrencesMembers(s: seq<Record>)
    ensures forall c :: c in FirstOccurrences(s) <==> exists r :: r in s && CategoryOf(r) == c
    decreases |s|
  {
    if s != [] {
      var p := s[..|s| - 1];
      FirstOccurrencesMembers(p);
      assert s == p + [s[|s| - 1]];
      forall c ensures c in FirstOccurrences(s) <==> exists r :: r in s && CategoryOf(r) == c {
        if c in FirstOccurrences(s) && c !in FirstOccurrences(p) {
          assert s[|s| - 1] in s;
        }
        if exists r :: r in s && CategoryOf(r) == c {
          var r :| r in s && CategoryOf(r) == c;
          if r != s[|s| - 1] {
            assert r in p;
          }
        }
      }
    }
  }

  lemma {:induction false} TotalSizeUpdate(groups: seq<Group>, k: nat, g: Group)
    requires k < |groups|
    ensures TotalSize(groups[k := g]) + |groups[k].skills| == TotalSize(groups) + |g.skills|
    decreases |groups|
  {
    var n := |groups|;
    if k < n - 1 {
      assert groups[k := g][..n - 1] == groups[..n - 1][k := g];
      TotalSizeUpdate(groups[..n - 1], k, g);
    } else {
      assert groups[k := g][..n - 1] == groups[..n - 1];
    }
  }

  lemma TotalSizeAppend(groups: seq<Group>, g: Group)
    ensures TotalSize(groups + [g]) == TotalSize(groups) + |g.skills|
  {
    assert (groups + [g])[..|groups|] == groups;
  }

  /** Every skill lands in exactly one bucket, so the bucket sizes add up to
      the number of skills. */
  lemma {:induction false} GroupedSizes(s: seq<Record>)
    ensures TotalSize(Grouped(s)) == |s|
    decreases |s|
  {
    if s != [] {
      var p, x := s[..|s| - 1], s[|s| - 1];
      GroupedSizes(p);
      var groups := Grouped(p);
      var k := IndexOfFirst(groups, HasCategory(CategoryOf(x)));
      if k == -1 {
        TotalSizeAppend(groups, Group(CategoryOf(x), [x]));
      } else {
        TotalSizeUpdate(groups, k, Group(CategoryOf(x), groups[k].skills + [x]));
      }
    }
  }

  /** One step of the `reduce` keeps the categories in first-occurrence order. */
  lemma AddSkillCategories(p: seq<Record>, x: Record, before: seq<Group>)
    requires CategoriesOf(before) == FirstOccurrences(p)
    ensures CategoriesOf(AddSkill(before, x)) == FirstOccurrences(p + [x])
  {
    var c := CategoryOf(x);
    var after := AddSkill(before, x);
    assert (p + [x])[..|p + [x]| - 1] == p;
    if IndexOfFirst(before, HasCategory(c)) == -1 {
      assert c !in CategoriesOf(before);
      assert CategoriesOf(after) == CategoriesOf(before) + [c];
    } else {
      assert c in CategoriesOf(before);
      assert CategoriesOf(after) == CategoriesOf(before);
    }
  }

  /** One step of the `reduce` puts `x` in the bucket of its category and
      nowhere else. */
  lemma AddSkillBucket(p: seq<Record>, x: Record, before: seq<Group>, i: nat)
    requires GroupsOf(p, before)
    requires i < |AddSkill(before, x)|
    ensures AddSkill(before, x)[i].skills == Keep(p + [x], InCategory(AddSkill(before, x)[i].category))
  {
    var after := AddSkill(before, x);
    var c := CategoryOf(x);
    var k := IndexOfFirst(before, HasCategory(c));
    KeepAppend(p, [x], InCategory(after[i].category));
    if i < |before| && before[i].category == c {
      FirstOccurrencesDistinct(p);
      assert CategoriesOf(before)[i] == CategoriesOf(before)[k];
      assert after[i].skills == before[i].skills + [x];
    } else if i < |before| {
      assert after[i] == before[i];
    } else {
      FirstOccurrencesMembers(p);
      forall r | r in p ensures CategoryOf(r) != c {
        assert CategoryOf(r) in FirstOccurrences(p);
      }
      KeepNone(p, InCategory(c));
    }
  }

  /** The grouping is the one `GroupsOf` describes. */
  lemma {:induction false} GroupedMeaning(s: seq<Record>)
    ensures GroupsOf(s, Grouped(s))
    decreases |s|
  {
    if s != [] {
      var p, x := s[..|s| - 1], s[|s| - 1];
      assert s == p + [x];
      GroupedMeaning(p);
      AddSkillCategories(p, x, Grouped(p));
      forall i | 0 <= i < |Grouped(s)| ensures Grouped(s)[i].skills == Keep(s, InCategory(Grouped(s)[i].category)) {
        AddSkillBucket(p, x, Grouped(p), i);
      }
    }
  }

  /** Buckets hold distinct categories, and a category has a bucket exactly
      when some skill has it. */
  lemma GroupedCategories(s: seq<Record>)
    ensures NoDuplicates(CategoriesOf(Grouped(s)))
    ensures forall c :: c in CategoriesOf(Grouped(s)) <==> exists r :: r in s && CategoryOf(r) == c
  {
    GroupedMeaning(s);
    FirstOccurrencesMembers(s);
    FirstOccurrencesDistinct(s);
  }

  lemma {:induction false} FirstOccurrencesDistinct(s: seq<Record>)
    ensures NoDuplicates(FirstOccurrences(s))
    decreases |s|
  {
    if s != [] {
      FirstOccurrencesDistinct(s[..|s| - 1]);
    }
  }

  /** `acc[category]`: the position of the category's bucket, or -1. */
  method FindGroup(groups: seq<Group>, c: Value) returns (k: int)
    ensures k == IndexOfFirst(groups, HasCategory(c))
  {
    k := 0;
    while k < |groups| && groups[k].category != c
      invariant 0 <= k <= |groups|
      invariant forall j :: 0 <= j < k ==> groups[j].category != c
    {
      k := k + 1;
    }
    if k == |groups| {
      k := -1;
    }
  }

  /** The `reduce` itself, over `skills || []`. */
  method GroupSkills(skills: Option<seq<Record>>) returns (groups: seq<Group>)
    ensures groups == Grouped(if skills.None? then [] else skills.value)
  {
    var s: seq<Record> := [];
    if skills.Some? {
      s := skills.value;
    }
    groups := [];
    var i := 0;
    while i < |s|
      invariant 0 <= i <= |s|
      invariant groups == Grouped(s[..i])
    {
      assert s[..i + 1][..i] == s[..i];
      var c := CategoryOf(s[i]);
      var k := FindGroup(groups, c);
      if k == -1 {
        groups := groups + [Group(c, [s[i]])];
      } else {
        groups := groups[k := Group(c, groups[k].skills + [s[i]])];
      }
      i := i + 1;
    }
    assert s[..i] == s;
  }

  /** `(skills?.length || 0) === 0`: the empty state shows exactly when there
      is no bucket to show. */
  predicate ShowsEmptyState(skills: Option<seq<Record>>) {
    skills.None? || |skills.value| == 0
  }

  lemma EmptyStateWhenNoGroups(skills: Option<seq<Record>>)
    ensures ShowsEmptyState(skills) <==> Grouped(if skills.None? then [] else skills.value) == []
  {
    var s := if skills.None? then [] else skills.value;
    GroupedSizes(s);
  }

  /** `categorySkills.sort((a, b) => a.display_order - b.display_order)` on
      the bucket's own array. */
  method SortGroup(g: Group) returns (shown: Group)
    ensures shown == Group(g.category, SortBy(g.skills, ByDisplayOrder))
  {
    var a := new Record[|g.skills|](i requires 0 <= i < |g.skills| => g.skills[i]);
    assert a[..] == g.skills;
    SortInPlace(a, ByDisplayOrder);
    shown := Group(g.category, a[..]);
  }

  /** The buckets as rendered. */
  method RenderGroups(groups: seq<Group>) returns (shown: seq<Group>)
    ensures |shown| == |groups|
    ensures forall i :: 0 <= i < |groups| ==> shown[i] == Group(groups[i].category, SortBy(groups[i].skills, ByDisplayOrder))
  {
    shown := [];
    var i := 0;
    while i < |groups|
      invariant 0 <= i <= |groups|
      invariant |shown| == i
      invariant forall j :: 0 <= j < i ==> shown[j] == Group(groups[j].category, SortBy(groups[j].skills, ByDisplayOrder))
    {
      var g := SortGroup(groups[i]);
      shown := shown + [g];
      i := i + 1;
    }
  }

  /** A rendered bucket holds the skills of its category, ascending by
      `display_order`, with skills of equal order in input order. */
  lemma RenderedGroupSorted(s: seq<Record>, i: nat, order: Value)
    requires i < |Grouped(s)|
    ensures var g := Grouped(s)[i];
      var shown := SortBy(g.skills, ByDisplayOrder);
      && SortedBy(shown, ByDisplayOrder)
      && multiset(shown) == multiset(Keep(s, InCategory(g.category)))
      && Keep(shown, (r: Record) => Column(r, "display_order") == order) ==
         Keep(Keep(s, InCategory(g.category)), (r: Record) => Column(r, "display_order") == order)
  {
    var g := Grouped(s)[i];
    GroupedMeaning(s);
    ByDisplayOrderIsTotalPreorder();
    SortBySorted(g.skills, ByDisplayOrder);
    SortByPermutation(g.skills, ByDisplayOrder);
    var same := (r: Record) => Column(r, "display_order") == order;
    forall a, b | same(a) && same(b) ensures ByDisplayOrder(a, b) {
      ValueLeTotal(order, order);
    }
    SortByStable(g.skills, ByDisplayOrder, same);
  }
}
