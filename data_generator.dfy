/** The derivations at the end of `generate_byu_course_data`: the
    class-overlap table (classes that count for several programs, most
    versatile first) and the number of programs per category. */
module DataGenerator {
  import opened Sorting
  import opened Counting
  import opened Catalog

  /** A record of `class_overlap.json`: the class with its program count
      and versatility score. */
  datatype OverlapEntry = OverlapEntry(
    courseId: string,
    courseName: string,
    title: string,
    creditHours: real,
    description: string,
    prerequisites: string,
    category: string,
    appliesToPrograms: seq<string>,
    programCount: nat,
    versatilityScore: nat)

  /** A class counts for several programs. */
  predicate MultiMajor(c: Course) {
    |c.appliesToPrograms| > 1
  }

  /** The overlap record of a class: every catalogue field copied, the
      program count is the number of programs, the score ten per program. */
  function Entry(c: Course): (e: OverlapEntry)
    ensures e.courseId == c.courseId && e.courseName == c.courseName && e.title == c.title
    ensures e.creditHours == c.creditHours && e.description == c.description
    ensures e.prerequisites == c.prerequisites && e.category == c.category
    ensures e.appliesToPrograms == c.appliesToPrograms
    ensures e.programCount == |c.appliesToPrograms| && e.versatilityScore == 10 * e.programCount
  {
    var programCount := |c.appliesToPrograms|;
    OverlapEntry(c.courseId, c.courseName, c.title, c.creditHours, c.description, c.prerequisites,
                 c.category, c.appliesToPrograms, programCount, programCount * 10)
  }

  /** The records of the multi-program classes, in catalogue order. */
  function Overlapping(classes: seq<Course>): (r: seq<OverlapEntry>)
    ensures |r| <= |classes|
    decreases |classes|
  {
    if |classes| == 0 then []
    else
      var c := classes[|classes| - 1];
      Overlapping(classes[..|classes| - 1]) + (if MultiMajor(c) then [Entry(c)] else [])
  }

  function ProgramCountKey(): OverlapEntry -> real {
    (e: OverlapEntry) => e.programCount as real
  }

  /** `class_overlap_data` after the sort. */
  function OverlapTable(classes: seq<Course>): seq<OverlapEntry> {
    SortDesc(Overlapping(classes), ProgramCountKey())
  }

  /** The overlap loop and `class_overlap_data.sort(key=program_count, reverse=True)`. */
  method BuildOverlap(classes: seq<Course>) returns (data: seq<OverlapEntry>)
    ensures data == OverlapTable(classes)
  {
    data := [];
    for i := 0 to |classes|
      invariant data == Overlapping(classes[..i])
    {
      assert classes[..i + 1][..i] == classes[..i];
      var cls := classes[i];
      var programCount := |cls.appliesToPrograms|;
      if programCount > 1 {
        data := data + [OverlapEntry(cls.courseId, cls.courseName, cls.title, cls.creditHours,
                                     cls.description, cls.prerequisites, cls.category,
                                     cls.appliesToPrograms, programCount, programCount * 10)];
      }
    }
    assert classes[..|classes|] == classes;
    data := SortDesc(data, ProgramCountKey());
  }

  /** An entry is in the filtered list exactly when it is the record of a
      multi-program class. */
  lemma {:induction false} OverlappingMembers(classes: seq<Course>, e: OverlapEntry)
    ensures e in Overlapping(classes) <==> exists i :: 0 <= i < |classes| && MultiMajor(classes[i]) && e == Entry(classes[i])
    decreases |classes|
  {
    if |classes| > 0 {
      var init := classes[..|classes| - 1];
      OverlappingMembers(init, e);
      assert forall i :: 0 <= i < |init| ==> init[i] == classes[i];
    }
  }

  /** The table holds the record of a class exactly when the class counts
      for more than one program, once per such class; it is ordered by
      program count, most first. */
  lemma OverlapTableMeaning(classes: seq<Course>)
    ensures forall e :: e in OverlapTable(classes) <==>
      exists i :: 0 <= i < |classes| && MultiMajor(classes[i]) && e == Entry(classes[i])
    ensures multiset(OverlapTable(classes)) == multiset(Overlapping(classes))
    ensures forall i, j :: 0 <= i < j < |OverlapTable(classes)| ==>
      OverlapTable(classes)[i].programCount >= OverlapTable(classes)[j].programCount
  {
    var s := Overlapping(classes);
    var t := OverlapTable(classes);
    forall e ensures e in t <==> e in s {
      assert e in t <==> e in multiset(t);
    }
    forall e {
      OverlappingMembers(classes, e);
    }
    assert SortedDesc(t, ProgramCountKey());
    forall i, j | 0 <= i < j < |t| ensures t[i].programCount >= t[j].programCount {
      assert ProgramCountKey()(t[i]) >= ProgramCountKey()(t[j]);
    }
  }

  /** Classes that count for equally many programs keep their catalogue
      order. */
  lemma OverlapTableStable(classes: seq<Course>, n: nat)
    ensures WithKey(OverlapTable(classes), ProgramCountKey(), n as real)
         == WithKey(Overlapping(classes), ProgramCountKey(), n as real)
  {
    SortDescStable(Overlapping(classes), ProgramCountKey(), n as real);
  }

  /** A class with one program or none is never in the table. */
  lemma SingleProgramExcluded(classes: seq<Course>, c: Course)
    requires !MultiMajor(c)
    ensures Entry(c) !in OverlapTable(classes)
  {
    OverlapTableMeaning(classes);
  }

  // ---------------------------------------------------------------------
  // Program categories
  // ---------------------------------------------------------------------

  function Categories(programs: seq<Program>): (r: seq<string>)
    ensures |r| == |programs| && forall k :: 0 <= k < |programs| ==> r[k] == programs[k].programCategory
  {
    seq(|programs|, k requires 0 <= k < |programs| => programs[k].programCategory)
  }

  /** The category loop: `categories[cat] = categories.get(cat, 0) + 1`. */
  method CountCategories(programs: seq<Program>) returns (categories: map<string, nat>)
    ensures categories == CountMap(Categories(programs))
  {
    ghost var cats := Categories(programs);
    categories := map[];
    for i := 0 to |programs|
      invariant categories == CountMap(cats[..i])
    {
      var cat := programs[i].programCategory;
      assert cats[..i + 1] == cats[..i] + [cat];
      CountMapSnoc(cats[..i], cat);
      categories := categories[cat := (if cat in categories then categories[cat] else 0) + 1];
    }
    assert cats[..|programs|] == cats;
  }

  /** The sum of `m`'s values over `keys`, as the report loop prints them. */
  function SumValues(keys: seq<string>, m: map<string, nat>): nat
    requires forall k :: k in keys ==> k in m
    decreases |keys|
  {
    if |keys| == 0 then 0 else m[keys[0]] + SumValues(keys[1..], m)
  }

  lemma {:induction false} SumValuesOfCounts(keys: seq<string>, xs: seq<string>)
    requires forall k :: k in keys ==> k in xs
    ensures forall k :: k in keys ==> k in CountMap(xs)
    ensures SumValues(keys, CountMap(xs)) == SumOfCounts(keys, xs)
    decreases |keys|
  {
    if |keys| > 0 {
      SumValuesOfCounts(keys[1..], xs);
    }
  }

  /** Every category is listed once, in order of first appearance, and the
      counts over all categories add up to the number of programs. */
  lemma CategoryCountsSum(programs: seq<Program>)
    ensures forall c :: c in CountMap(Categories(programs)) <==> exists k :: 0 <= k < |programs| && programs[k].programCategory == c
    ensures forall c :: c in Dedup(Categories(programs)) ==> c in CountMap(Categories(programs))
    ensures SumValues(Dedup(Categories(programs)), CountMap(Categories(programs))) == |programs|
  {
    var cats := Categories(programs);
    SumValuesOfCounts(Dedup(cats), cats);
    SumOfCountsIsLength(cats);
    forall c ensures c in cats <==> exists k :: 0 <= k < |programs| && programs[k].programCategory == c {
      if c in cats {
        var k :| 0 <= k < |cats| && cats[k] == c;
      }
    }
  }
}
